/**
 The copies of models, observations and policies (modelcatalog/catalog.go).  `...Mirrors` relates a copy
 to its original, cell by cell; the `...Facts` lemmas say what a mirror is worth: it has the same
 content, and it reaches a cell of the original exactly when the original reaches a mapping that the
 copying code does not know.
 */
module CatalogCopies {
  import opened CatalogValues

  datatype Option<+T> = None | Some(value: T)

  datatype Identity = Identity(harness: string, provider: string, modelName: string, version: string, tier: string)

  datatype PolicyEntry = PolicyEntry(kind: string, identity: Cell?<Identity>, versionPin: string, enabled: Cell?<bool>,
                                     fields: Fields)

  datatype AccessObservation = AccessObservation(
    identity: Identity, status: string, how: string, observedAt: string, account: Cell?<string>, facts: Items)

  datatype RolePolicy = RolePolicy(models: Cell?<map<string, Strings>>)

  datatype Policy = Policy(
    defaultEnabled: bool, enabled: Strings, models: Cell?<map<string, PolicyEntry>>,
    roles: Cell?<map<string, RolePolicy>>, modelTraits: Cell?<map<string, string>>)

  datatype Guide = Guide(cost: int, costByTier: Cell?<map<string, int>>, texts: seq<string>)

  datatype Model = Model(
    identity: Identity, key: string, aliases: Strings, preferred: bool, effort: Cell?<bool>, facts: Fields,
      guide: Guide,
    access: Cell?<seq<AccessObservation>>, policy: Cell?<PolicyEntry>, overrides: Fields, source: string)

  // ----- Contents: the same structures without references

  datatype EntryTree = EntryTree(kind: string, identity: Option<Identity>, versionPin: string, enabled: Option<bool>,
                                 fields: Tree)

  datatype AccessTree = AccessTree(
    identity: Identity, status: string, how: string, observedAt: string, account: Option<string>, facts: Tree)

  datatype PolicyTree = PolicyTree(
    defaultEnabled: bool, enabled: seq<string>, models: map<string, EntryTree>,
    roles: map<string, map<string, seq<string>>>, modelTraits: map<string, string>)

  datatype ModelTree = ModelTree(
    identity: Identity, key: string, aliases: seq<string>, preferred: bool, effort: Option<bool>, facts: Tree,
    cost: int, costByTier: Option<map<string, int>>, texts: seq<string>,
    access: seq<AccessTree>, policy: Option<EntryTree>, overrides: Tree, source: string)

  ghost predicate In<T>(p: Cell?<T>, cells: set<object>) {
    p != null ==> p in cells
  }

  ghost predicate PointsInto<T>(p: Cell?<T>, cells: set<object>) {
    p != null && p in cells
  }

  ghost function Pointee<T>(p: Cell?<T>): Option<T>
    reads p
  {
    if p == null then None else Some(p.v)
  }

  ghost function TextsOf(p: Strings): seq<string>
    reads p
  {
    if p == null then [] else p.v
  }

  /** `x := *p; q = &x`. */
  method ClonePointer<T>(p: Cell?<T>) returns (copy: Cell?<T>, ghost made: set<object>)
    ensures fresh(made) && In(copy, made) && Pointee(copy) == Pointee(p)
  {
    if p == null {
      return null, {};
    }
    copy := new Cell(p.v);
    made := {copy};
  }

  // ----- Policy entries

  ghost predicate EntryWithin(e: PolicyEntry, cells: set<object>, depth: nat)
    reads cells
  {
    In(e.identity, cells) && In(e.enabled, cells) && Within(Object(e.fields), cells, depth)
  }

  ghost function EntryContent(e: PolicyEntry, cells: set<object>, depth: nat): EntryTree
    requires EntryWithin(e, cells, depth)
    reads cells
  {
    EntryTree(e.kind, Pointee(e.identity), e.versionPin, Pointee(e.enabled), ContentOf(Object(e.fields), cells, depth))
  }

  ghost predicate EntryPlain(e: PolicyEntry, cells: set<object>, depth: nat)
    requires EntryWithin(e, cells, depth)
    reads cells
  {
    Plain(Object(e.fields), cells, depth)
  }

  ghost predicate EntryTouches(e: PolicyEntry, shared: set<object>, cells: set<object>, depth: nat)
    requires EntryWithin(e, cells, depth)
    reads cells
  {
    PointsInto(e.identity, shared) || PointsInto(e.enabled, shared) || Touches(Object(e.fields), shared, cells, depth)
  }

  ghost predicate EntryMirrors(copy: PolicyEntry, made: set<object>, e: PolicyEntry, cells: set<object>, depth: nat)
    reads made, cells
  {
    && EntryWithin(e, cells, depth) && copy.kind == e.kind && copy.versionPin == e.versionPin
    && In(copy.identity, made) && Pointee(copy.identity) == Pointee(e.identity)
    && In(copy.enabled, made) && Pointee(copy.enabled) == Pointee(e.enabled)
    && Mirrors(Object(copy.fields), made, Object(e.fields), cells, depth)
  }

  lemma WiderEntry(copy: PolicyEntry, made: set<object>, more: set<object>, e: PolicyEntry, cells: set<object>,
                   depth: nat)
    requires EntryMirrors(copy, made, e, cells, depth) && made <= more
    ensures EntryMirrors(copy, more, e, cells, depth)
  {
    WiderMirrors(Object(copy.fields), made, more, Object(e.fields), cells, depth);
  }

  lemma EntryFacts(copy: PolicyEntry, made: set<object>, e: PolicyEntry, cells: set<object>, depth: nat)
    requires EntryMirrors(copy, made, e, cells, depth) && made !! cells
    ensures EntryWithin(e, cells, depth) && EntryWithin(copy, made + cells, depth)
    ensures EntryContent(copy, made + cells, depth) == EntryContent(e, cells, depth)
    ensures EntryTouches(copy, cells, made + cells, depth) <==> !EntryPlain(e, cells, depth)
  {
    MirrorFacts(Object(copy.fields), made, Object(e.fields), cells, depth);
    hide Mirrors, Touches, Plain, ContentOf;
  }

  method CloneEntry(e: PolicyEntry, ghost cells: set<object>, ghost depth: nat)
    returns (copy: PolicyEntry, ghost made: set<object>)
    requires EntryWithin(e, cells, depth)
    ensures fresh(made) && EntryMirrors(copy, made, e, cells, depth)
  {
    hide Mirrors;
    var identity, made1 := ClonePointer(e.identity);
    var enabled, made2 := ClonePointer(e.enabled);
    var fields, made3 := CloneMap(e.fields, cells, depth);
    copy := e.(identity := identity, enabled := enabled, fields := fields);
    made := made1 + made2 + made3;
    WiderMirrors(Object(fields), made3, made, Object(e.fields), cells, depth);
  }

  method ClonePolicyEntry(e: Cell?<PolicyEntry>, ghost cells: set<object>, ghost depth: nat)
    returns (copy: Cell?<PolicyEntry>, ghost made: set<object>)
    requires e != null ==> EntryWithin(e.v, cells, depth)
    ensures fresh(made) && In(copy, made) && (copy == null <==> e == null)
    ensures copy != null ==> EntryMirrors(copy.v, made, e.v, cells, depth)
  {
    hide EntryMirrors;
    if e == null {
      return null, {};
    }
    var entry, more := CloneEntry(e.v, cells, depth);
    var out := new Cell(entry);
    copy, made := out, more + {out};
    WiderEntry(entry, more, made, e.v, cells, depth);
  }

  // ----- Access observations

  ghost predicate ObservationWithin(a: AccessObservation, cells: set<object>, depth: nat)
    reads cells
  {
    In(a.account, cells) && Within(Array(a.facts), cells, depth)
  }

  ghost function ObservationContent(a: AccessObservation, cells: set<object>, depth: nat): AccessTree
    requires ObservationWithin(a, cells, depth)
    reads cells
  {
    AccessTree(a.identity, a.status, a.how, a.observedAt, Pointee(a.account), ContentOf(Array(a.facts), cells, depth))
  }

  ghost predicate ObservationTouches(a: AccessObservation, shared: set<object>, cells: set<object>, depth: nat)
    requires ObservationWithin(a, cells, depth)
    reads cells
  {
    PointsInto(a.account, shared) || Touches(Array(a.facts), shared, cells, depth)
  }

  ghost predicate ObservationMirrors(copy: AccessObservation, made: set<object>, a: AccessObservation,
                                     cells: set<object>, depth: nat)
    reads made, cells
  {
    && ObservationWithin(a, cells, depth)
    && copy == a.(account := copy.account, facts := copy.facts)
    && In(copy.account, made) && Pointee(copy.account) == Pointee(a.account)
    && Mirrors(Array(copy.facts), made, Array(a.facts), cells, depth)
  }

  ghost predicate AccessWithin(s: seq<AccessObservation>, cells: set<object>, depth: nat)
    reads cells
  {
    forall i | 0 <= i < |s| :: ObservationWithin(s[i], cells, depth)
  }

  ghost function AccessContent(s: seq<AccessObservation>, cells: set<object>, depth: nat): (r: seq<AccessTree>)
    requires AccessWithin(s, cells, depth)
    reads cells
    ensures |r| == |s| && forall i | 0 <= i < |r| :: r[i] == ObservationContent(s[i], cells, depth)
  {
    if s == [] then [] else [ObservationContent(s[0], cells, depth)] + AccessContent(s[1..], cells, depth)
  }

  ghost predicate AccessPlain(s: seq<AccessObservation>, cells: set<object>, depth: nat)
    requires AccessWithin(s, cells, depth)
    reads cells
  {
    forall i | 0 <= i < |s| :: Plain(Array(s[i].facts), cells, depth)
  }

  ghost predicate AccessTouches(s: seq<AccessObservation>, shared: set<object>, cells: set<object>, depth: nat)
    requires AccessWithin(s, cells, depth)
    reads cells
  {
    exists i | 0 <= i < |s| :: ObservationTouches(s[i], shared, cells, depth)
  }

  /** The first `n` observations are copied. */
  ghost predicate AccessMirrors(copies: seq<AccessObservation>, made: set<object>, s: seq<AccessObservation>,
                                cells: set<object>,
                                depth: nat, n: nat)
    reads made, cells
  {
    n <= |copies| == |s| && forall i | 0 <= i < n :: ObservationMirrors(copies[i], made, s[i], cells, depth)
  }

  lemma WiderObservation(copy: AccessObservation, made: set<object>, more: set<object>, a: AccessObservation,
                         cells: set<object>, depth: nat)
    requires ObservationMirrors(copy, made, a, cells, depth) && made <= more
    ensures ObservationMirrors(copy, more, a, cells, depth)
  {
    WiderMirrors(Array(copy.facts), made, more, Array(a.facts), cells, depth);
  }

  lemma WiderAccess(copies: seq<AccessObservation>, made: set<object>, more: set<object>,
                    s: seq<AccessObservation>, cells: set<object>, depth: nat, n: nat)
    requires AccessMirrors(copies, made, s, cells, depth, n) && made <= more
    ensures AccessMirrors(copies, more, s, cells, depth, n)
  {
    hide ObservationMirrors;
    forall i | 0 <= i < n
      ensures ObservationMirrors(copies[i], more, s[i], cells, depth)
    {
      WiderObservation(copies[i], made, more, s[i], cells, depth);
    }
  }

  lemma ObservationFacts(copy: AccessObservation, made: set<object>, a: AccessObservation, cells: set<object>,
                         depth: nat)
    requires ObservationMirrors(copy, made, a, cells, depth) && made !! cells
    ensures ObservationWithin(a, cells, depth) && ObservationWithin(copy, made + cells, depth)
    ensures ObservationContent(copy, made + cells, depth) == ObservationContent(a, cells, depth)
    ensures ObservationTouches(copy, cells, made + cells, depth) <==> !Plain(Array(a.facts), cells, depth)
  {
    MirrorFacts(Array(copy.facts), made, Array(a.facts), cells, depth);
    hide Mirrors, Touches, Plain, ContentOf;
  }

  lemma AccessFacts(copies: seq<AccessObservation>, made: set<object>, s: seq<AccessObservation>, cells: set<object>,
                    depth: nat)
    requires AccessMirrors(copies, made, s, cells, depth, |s|) && made !! cells
    ensures AccessWithin(s, cells, depth) && AccessWithin(copies, made + cells, depth)
    ensures AccessContent(copies, made + cells, depth) == AccessContent(s, cells, depth)
    ensures AccessTouches(copies, cells, made + cells, depth) <==> !AccessPlain(s, cells, depth)
  {
    forall i | 0 <= i < |s|
      ensures ObservationWithin(s[i], cells, depth) && ObservationWithin(copies[i], made + cells, depth)
      ensures ObservationContent(copies[i], made + cells, depth) == ObservationContent(s[i], cells, depth)
      ensures ObservationTouches(copies[i], cells, made + cells, depth) <==> !Plain(Array(s[i].facts), cells, depth)
    {
      ObservationFacts(copies[i], made, s[i], cells, depth);
    }
    hide ObservationMirrors, ObservationContent, ObservationTouches, Plain;
  }

  method CloneObservation(a: AccessObservation, ghost cells: set<object>, ghost depth: nat)
    returns (copy: AccessObservation, ghost made: set<object>)
    requires ObservationWithin(a, cells, depth)
    ensures fresh(made) && ObservationMirrors(copy, made, a, cells, depth)
  {
    hide Mirrors;
    var account, made1 := ClonePointer(a.account);
    var facts, made2 := CloneSlice(a.facts, cells, depth);
    copy := a.(account := account, facts := facts);
    made := made1 + made2;
    WiderMirrors(Array(facts), made2, made, Array(a.facts), cells, depth);
  }

  lemma CopyObservation(copies: seq<AccessObservation>, made: set<object>, s: seq<AccessObservation>,
                        cells: set<object>, depth: nat,
                        n: nat, copy: AccessObservation, more: set<object>)
    requires AccessMirrors(copies, made, s, cells, depth, n) && n < |s|
    requires ObservationMirrors(copy, more, s[n], cells, depth)
    ensures AccessMirrors(copies[n := copy], made + more, s, cells, depth, n + 1)
  {
    WiderAccess(copies, made, made + more, s, cells, depth, n);
    WiderObservation(copy, more, made + more, s[n], cells, depth);
    hide ObservationMirrors;
  }

  lemma ObservationAt(s: seq<AccessObservation>, cells: set<object>, depth: nat, i: nat)
    requires AccessWithin(s, cells, depth) && i < |s|
    ensures ObservationWithin(s[i], cells, depth)
  {
  }

  ghost function AccessOf(p: Cell?<seq<AccessObservation>>): seq<AccessObservation>
    reads p
  {
    if p == null then [] else p.v
  }

  /** Appends the observations to nil and replaces their references; a copy of an empty slice is nil. */
  method CloneAccess(s: Cell?<seq<AccessObservation>>, ghost cells: set<object>, ghost depth: nat)
    returns (copy: Cell?<seq<AccessObservation>>, ghost made: set<object>)
    requires AccessWithin(AccessOf(s), cells, depth)
    ensures fresh(made) && In(copy, made) && (copy == null <==> s == null || s.v == [])
    ensures AccessMirrors(AccessOf(copy), made, AccessOf(s), cells, depth, |AccessOf(s)|)
  {
    if s == null || s.v == [] {
      return null, {};
    }
    var out := new Cell(s.v);
    made := {};
    for i := 0 to |s.v|
      invariant fresh(out) && fresh(made) && out !in made
      invariant |out.v| == |s.v| && AccessMirrors(out.v, made, s.v, cells, depth, i)
    {
      hide AccessMirrors, ObservationMirrors, ObservationWithin, AccessWithin;
      ObservationAt(s.v, cells, depth, i);
      var observation, more := CloneObservation(s.v[i], cells, depth);
      CopyObservation(out.v, made, s.v, cells, depth, i, observation, more);
      out.v := out.v[i := observation];
      made := made + more;
    }
    WiderAccess(out.v, made, made + {out}, s.v, cells, depth, |s.v|);
    return out, made + {out};
  }

  // ----- Policies

  /** `make` and a loop over the entries, which hold no references. */
  method CopyEntries<T>(m: map<string, T>) returns (copy: Cell<map<string, T>>)
    ensures fresh(copy) && copy.v == m
  {
    copy := new Cell(map[]);
    var pending := m.Keys;
    while pending != {}
      invariant fresh(copy) && pending <= m.Keys && copy.v.Keys == m.Keys - pending
      invariant forall k | k in copy.v :: copy.v[k] == m[k]
    {
      var k :| k in pending;
      copy.v := copy.v[k := m[k]];
      pending := pending - {k};
    }
  }

  /** The trait lists of a role. */
  function TraitsOf(role: RolePolicy): map<string, Strings>
    reads role.models
  {
    if role.models == null then map[] else role.models.v
  }

  ghost predicate RoleWithin(role: RolePolicy, cells: set<object>)
    reads cells
  {
    In(role.models, cells) && (role.models != null ==> forall t | t in role.models.v :: In(role.models.v[t], cells))
  }

  ghost function RoleContent(role: RolePolicy, cells: set<object>): map<string, seq<string>>
    requires RoleWithin(role, cells)
    reads cells
  {
    if role.models == null then map[] else map t | t in role.models.v :: TextsOf(role.models.v[t])
  }

  ghost predicate RoleTouches(role: RolePolicy, shared: set<object>, cells: set<object>)
    requires RoleWithin(role, cells)
    reads cells
  {
    role.models != null
      && (role.models in shared || exists t | t in role.models.v :: PointsInto(role.models.v[t], shared))
  }

  ghost predicate RoleMirrors(copy: RolePolicy, made: set<object>, role: RolePolicy, cells: set<object>)
    reads made, cells
  {
    RoleWithin(role, cells) && RoleWithin(copy, made) && RoleContent(copy, made) == RoleContent(role, cells)
  }

  lemma WiderRole(copy: RolePolicy, made: set<object>, more: set<object>, role: RolePolicy, cells: set<object>)
    requires RoleMirrors(copy, made, role, cells) && made <= more
    ensures RoleMirrors(copy, more, role, cells)
  {
  }

  method CloneRole(role: RolePolicy, ghost cells: set<object>) returns (copy: RolePolicy, ghost made: set<object>)
    requires RoleWithin(role, cells)
    ensures fresh(made) && RoleMirrors(copy, made, role, cells)
  {
    var out := new Cell<map<string, Strings>>(map[]);
    made := {};
    var traits: map<string, Strings> := TraitsOf(role);
    var pending := traits.Keys;
    while pending != {}
      invariant fresh(out) && fresh(made) && out !in made
      invariant pending <= traits.Keys && out.v.Keys == traits.Keys - pending
      invariant forall t | t in out.v :: out.v[t] != null && out.v[t] in made && out.v[t].v == TextsOf(traits[t])
    {
      var t :| t in pending;
      var targets := new Cell(if traits[t] == null then [] else traits[t].v);
      out.v := out.v[t := targets];
      made := made + {targets};
      pending := pending - {t};
    }
    made := made + {out};
    copy := RolePolicy(out);
  }

  function RolesOf(p: Policy): map<string, RolePolicy>
    reads p.roles
  {
    if p.roles == null then map[] else p.roles.v
  }

  function EntriesOf(p: Policy): map<string, PolicyEntry>
    reads p.models
  {
    if p.models == null then map[] else p.models.v
  }

  function TraitNames(p: Policy): map<string, string>
    reads p.modelTraits
  {
    if p.modelTraits == null then map[] else p.modelTraits.v
  }

  ghost predicate RolesWithin(m: map<string, RolePolicy>, cells: set<object>)
    reads cells
  {
    forall k | k in m :: RoleWithin(m[k], cells)
  }

  ghost predicate EntriesWithin(m: map<string, PolicyEntry>, cells: set<object>, depth: nat)
    reads cells
  {
    forall k | k in m :: EntryWithin(m[k], cells, depth)
  }

  ghost function RolesContent(m: map<string, RolePolicy>, cells: set<object>): map<string, map<string, seq<string>>>
    requires RolesWithin(m, cells)
    reads cells
  {
    map k | k in m :: RoleContent(m[k], cells)
  }

  ghost function EntriesContent(m: map<string, PolicyEntry>, cells: set<object>, depth: nat): map<string, EntryTree>
    requires EntriesWithin(m, cells, depth)
    reads cells
  {
    map k | k in m :: EntryContent(m[k], cells, depth)
  }

  ghost predicate PolicyWithin(p: Policy, cells: set<object>, depth: nat)
    reads cells
  {
    && In(p.enabled, cells) && In(p.models, cells) && In(p.roles, cells) && In(p.modelTraits, cells)
    && (p.models != null ==> EntriesWithin(p.models.v, cells, depth))
    && (p.roles != null ==> RolesWithin(p.roles.v, cells))
  }

  /** Nil and empty maps of a policy are the same content. */
  ghost function PolicyContent(p: Policy, cells: set<object>, depth: nat): PolicyTree
    requires PolicyWithin(p, cells, depth)
    reads cells
  {
    PolicyTree(p.defaultEnabled, TextsOf(p.enabled),
               if p.models == null then map[] else EntriesContent(p.models.v, cells, depth),
               if p.roles == null then map[] else RolesContent(p.roles.v, cells),
               if p.modelTraits == null then map[] else p.modelTraits.v)
  }

  ghost predicate PolicyPlain(p: Policy, cells: set<object>, depth: nat)
    requires PolicyWithin(p, cells, depth)
    reads cells
  {
    p.models != null ==> forall k | k in p.models.v :: EntryPlain(p.models.v[k], cells, depth)
  }

  ghost predicate PolicyTouches(p: Policy, shared: set<object>, cells: set<object>, depth: nat)
    requires PolicyWithin(p, cells, depth)
    reads cells
  {
    || PointsInto(p.enabled, shared) || PointsInto(p.modelTraits, shared)
    || (p.models != null
        && (p.models in shared || exists k | k in p.models.v :: EntryTouches(p.models.v[k], shared, cells, depth)))
    || (p.roles != null && (p.roles in shared || exists k | k in p.roles.v :: RoleTouches(p.roles.v[k], shared, cells)))
  }

  ghost predicate RolesMirror(copies: map<string, RolePolicy>, made: set<object>, m: map<string, RolePolicy>,
                              cells: set<object>)
    reads made, cells
  {
    forall k | k in copies :: k in m && RoleMirrors(copies[k], made, m[k], cells)
  }

  lemma WiderRoles(copies: map<string, RolePolicy>, made: set<object>, more: set<object>, m: map<string, RolePolicy>,
                   cells: set<object>)
    requires RolesMirror(copies, made, m, cells) && made <= more
    ensures RolesMirror(copies, more, m, cells)
  {
    hide RoleMirrors;
    forall j | j in copies
      ensures j in m && RoleMirrors(copies[j], more, m[j], cells)
    {
      WiderRole(copies[j], made, more, m[j], cells);
    }
  }

  method CloneRoles(m: map<string, RolePolicy>, ghost cells: set<object>)
    returns (copy: Cell<map<string, RolePolicy>>, ghost made: set<object>)
    requires RolesWithin(m, cells)
    ensures fresh(made) && copy in made && copy.v.Keys == m.Keys && RolesMirror(copy.v, made, m, cells)
  {
    copy := new Cell(map[]);
    made := {};
    var pending := m.Keys;
    while pending != {}
      invariant fresh(copy) && fresh(made) && copy !in made
      invariant pending <= m.Keys && copy.v.Keys == m.Keys - pending && RolesMirror(copy.v, made, m, cells)
    {
      hide RoleMirrors, RoleWithin;
      var k :| k in pending;
      var role, more := CloneRole(m[k], cells);
      WiderRoles(copy.v, made, made + more, m, cells);
      WiderRole(role, more, made + more, m[k], cells);
      copy.v := copy.v[k := role];
      made := made + more;
      pending := pending - {k};
    }
    WiderRoles(copy.v, made, made + {copy}, m, cells);
    made := made + {copy};
  }

  ghost predicate EntriesMirror(copies: map<string, PolicyEntry>, made: set<object>, m: map<string, PolicyEntry>,
                                cells: set<object>, depth: nat)
    reads made, cells
  {
    forall k | k in copies :: k in m && EntryMirrors(copies[k], made, m[k], cells, depth)
  }

  lemma WiderEntries(copies: map<string, PolicyEntry>, made: set<object>, more: set<object>,
                     m: map<string, PolicyEntry>, cells: set<object>, depth: nat)
    requires EntriesMirror(copies, made, m, cells, depth) && made <= more
    ensures EntriesMirror(copies, more, m, cells, depth)
  {
    hide EntryMirrors;
    forall j | j in copies
      ensures j in m && EntryMirrors(copies[j], more, m[j], cells, depth)
    {
      WiderEntry(copies[j], made, more, m[j], cells, depth);
    }
  }

  lemma AddEntry(copies: map<string, PolicyEntry>, made: set<object>, m: map<string, PolicyEntry>, cells: set<object>,
                 depth: nat,
                 k: string, copy: PolicyEntry, more: set<object>)
    requires EntriesMirror(copies, made, m, cells, depth) && k in m && EntryMirrors(copy, more, m[k], cells, depth)
    ensures EntriesMirror(copies[k := copy], made + more, m, cells, depth)
  {
    WiderEntries(copies, made, made + more, m, cells, depth);
    WiderEntry(copy, more, made + more, m[k], cells, depth);
    hide EntryMirrors;
  }

  lemma EntryAt(m: map<string, PolicyEntry>, cells: set<object>, depth: nat, k: string)
    requires EntriesWithin(m, cells, depth) && k in m
    ensures EntryWithin(m[k], cells, depth)
  {
  }

  lemma NoEntries(made: set<object>, m: map<string, PolicyEntry>, cells: set<object>, depth: nat)
    ensures EntriesMirror(map[], made, m, cells, depth)
  {
  }

  method CloneEntries(m: map<string, PolicyEntry>, ghost cells: set<object>, ghost depth: nat)
    returns (copy: Cell<map<string, PolicyEntry>>, ghost made: set<object>)
    requires EntriesWithin(m, cells, depth)
    ensures fresh(made) && copy in made && copy.v.Keys == m.Keys && EntriesMirror(copy.v, made, m, cells, depth)
  {
    hide EntriesMirror, EntryMirrors, EntryWithin, EntriesWithin;
    NoEntries({}, m, cells, depth);
    copy := new Cell(map[]);
    made := {};
    var pending := m.Keys;
    while pending != {}
      invariant fresh(copy) && fresh(made) && copy !in made
      invariant pending <= m.Keys && copy.v.Keys == m.Keys - pending && EntriesMirror(copy.v, made, m, cells, depth)
    {
      var k :| k in pending;
      EntryAt(m, cells, depth, k);
      var entry, more := CloneEntry(m[k], cells, depth);
      AddEntry(copy.v, made, m, cells, depth, k, entry, more);
      copy.v := copy.v[k := entry];
      made := made + more;
      pending := pending - {k};
    }
    WiderEntries(copy.v, made, made + {copy}, m, cells, depth);
    made := made + {copy};
  }

  ghost predicate PolicyMirrors(copy: Policy, made: set<object>, p: Policy, cells: set<object>, depth: nat)
    reads made, cells
  {
    && PolicyWithin(p, cells, depth) && copy.defaultEnabled == p.defaultEnabled
    && In(copy.enabled, made) && TextsOf(copy.enabled) == TextsOf(p.enabled)
    && copy.modelTraits != null && copy.modelTraits in made && copy.modelTraits.v == TraitNames(p)
    && copy.roles != null && copy.roles in made && copy.roles.v.Keys == RolesOf(p).Keys
    && RolesMirror(copy.roles.v, made, RolesOf(p), cells)
    && copy.models != null && copy.models in made && copy.models.v.Keys == EntriesOf(p).Keys
    && EntriesMirror(copy.models.v, made, EntriesOf(p), cells, depth)
  }

  lemma WiderPolicy(copy: Policy, made: set<object>, more: set<object>, p: Policy, cells: set<object>, depth: nat)
    requires PolicyMirrors(copy, made, p, cells, depth) && made <= more
    ensures PolicyMirrors(copy, more, p, cells, depth)
  {
    WiderRoles(copy.roles.v, made, more, RolesOf(p), cells);
    WiderEntries(copy.models.v, made, more, EntriesOf(p), cells, depth);
    hide RolesMirror, EntriesMirror;
  }

  /** The flat containers of a policy. */
  method CloneNames(p: Policy) returns (enabled: Strings, traits: Cell<map<string, string>>, ghost made: set<object>)
    ensures fresh(made) && In(enabled, made) && traits in made
    ensures TextsOf(enabled) == TextsOf(p.enabled) && traits.v == TraitNames(p)
  {
    ghost var made1;
    enabled, made1 := CloneStrings(p.enabled);
    traits := CopyEntries(TraitNames(p));
    made := made1 + {traits};
  }

  method ClonePolicyFields(p: Policy, ghost cells: set<object>, ghost depth: nat)
    returns (copy: Policy, ghost made: set<object>)
    requires PolicyWithin(p, cells, depth)
    ensures fresh(made) && PolicyMirrors(copy, made, p, cells, depth)
  {
    hide EntryWithin, RoleWithin, RolesMirror, EntriesMirror;
    var enabled, traits, names := CloneNames(p);
    var roles, made1 := CloneRoles(RolesOf(p), cells);
    var models, made2 := CloneEntries(EntriesOf(p), cells, depth);
    made := names + made1 + made2;
    copy := Policy(p.defaultEnabled, enabled, models, roles, traits);
    WiderRoles(roles.v, made1, made, RolesOf(p), cells);
    WiderEntries(models.v, made2, made, EntriesOf(p), cells, depth);
  }

  /** `clonePolicy`; its maps are made even where the policy has nil ones. */
  method ClonePolicy(p: Cell?<Policy>, ghost cells: set<object>, ghost depth: nat)
    returns (copy: Cell?<Policy>, ghost made: set<object>)
    requires p != null ==> PolicyWithin(p.v, cells, depth)
    ensures fresh(made) && In(copy, made) && (copy == null <==> p == null)
    ensures copy != null ==> PolicyMirrors(copy.v, made, p.v, cells, depth)
  {
    hide PolicyMirrors, PolicyWithin;
    if p == null {
      return null, {};
    }
    var policy, more := ClonePolicyFields(p.v, cells, depth);
    var out := new Cell(policy);
    made := more + {out};
    WiderPolicy(policy, more, made, p.v, cells, depth);
    copy := out;
  }

  lemma RoleFacts(copies: map<string, RolePolicy>, made: set<object>, m: map<string, RolePolicy>, cells: set<object>)
    requires RolesMirror(copies, made, m, cells) && copies.Keys == m.Keys && made !! cells
    ensures RolesWithin(m, cells) && RolesWithin(copies, made + cells)
      && RolesContent(copies, made + cells) == RolesContent(m, cells)
    ensures forall k | k in copies :: !RoleTouches(copies[k], cells, made + cells)
  {
    forall k | k in copies
      ensures RoleMirrors(copies[k], made + cells, m[k], cells) && !RoleTouches(copies[k], cells, made + cells)
    {
      WiderRole(copies[k], made, made + cells, m[k], cells);
    }
  }

  lemma EntriesFacts(copies: map<string, PolicyEntry>, made: set<object>, m: map<string, PolicyEntry>,
                     cells: set<object>, depth: nat)
    requires EntriesMirror(copies, made, m, cells, depth) && copies.Keys == m.Keys && made !! cells
    ensures EntriesWithin(m, cells, depth) && EntriesWithin(copies, made + cells, depth)
    ensures EntriesContent(copies, made + cells, depth) == EntriesContent(m, cells, depth)
    ensures forall k | k in m ::
      EntryTouches(copies[k], cells, made + cells, depth) <==> !EntryPlain(m[k], cells, depth)
  {
    forall k | k in m
      ensures EntryWithin(m[k], cells, depth) && EntryWithin(copies[k], made + cells, depth)
      ensures EntryContent(copies[k], made + cells, depth) == EntryContent(m[k], cells, depth)
      ensures EntryTouches(copies[k], cells, made + cells, depth) <==> !EntryPlain(m[k], cells, depth)
    {
      EntryFacts(copies[k], made, m[k], cells, depth);
    }
    hide EntryMirrors, EntryContent, EntryTouches, EntryPlain;
  }

  lemma PolicyFacts(copy: Policy, made: set<object>, p: Policy, cells: set<object>, depth: nat)
    requires PolicyMirrors(copy, made, p, cells, depth) && made !! cells
    ensures PolicyWithin(p, cells, depth) && PolicyWithin(copy, made + cells, depth)
    ensures PolicyContent(copy, made + cells, depth) == PolicyContent(p, cells, depth)
    ensures PolicyTouches(copy, cells, made + cells, depth) <==> !PolicyPlain(p, cells, depth)
  {
    RoleFacts(copy.roles.v, made, RolesOf(p), cells);
    EntriesFacts(copy.models.v, made, EntriesOf(p), cells, depth);
    hide RolesMirror, EntriesMirror, RoleTouches, EntryTouches, EntryPlain, RoleWithin, EntryWithin;
  }

  // ----- Models

  ghost predicate ModelWithin(m: Model, cells: set<object>, depth: nat)
    reads cells
  {
    && In(m.aliases, cells) && In(m.effort, cells)
    && In(m.guide.costByTier, cells) && In(m.access, cells) && In(m.policy, cells)
    && Within(Object(m.facts), cells, depth) && Within(Object(m.overrides), cells, depth)
    && (m.access != null ==> AccessWithin(m.access.v, cells, depth))
    && (m.policy != null ==> EntryWithin(m.policy.v, cells, depth))
  }

  ghost function ModelContent(m: Model, cells: set<object>, depth: nat): ModelTree
    requires ModelWithin(m, cells, depth)
    reads cells
  {
    ModelTree(m.identity, m.key, TextsOf(m.aliases), m.preferred, Pointee(m.effort),
      ContentOf(Object(m.facts), cells, depth),
              m.guide.cost, Pointee(m.guide.costByTier), m.guide.texts,
              if m.access == null then [] else AccessContent(m.access.v, cells, depth),
              if m.policy == null then None else Some(EntryContent(m.policy.v, cells, depth)),
              ContentOf(Object(m.overrides), cells, depth), m.source)
  }

  ghost predicate ModelPlain(m: Model, cells: set<object>, depth: nat)
    requires ModelWithin(m, cells, depth)
    reads cells
  {
    && Plain(Object(m.facts), cells, depth) && Plain(Object(m.overrides), cells, depth)
    && (m.access != null ==> AccessPlain(m.access.v, cells, depth))
    && (m.policy != null ==> EntryPlain(m.policy.v, cells, depth))
  }

  ghost predicate ModelTouches(m: Model, shared: set<object>, cells: set<object>, depth: nat)
    requires ModelWithin(m, cells, depth)
    reads cells
  {
    || PointsInto(m.aliases, shared) || PointsInto(m.effort, shared) || PointsInto(m.guide.costByTier, shared)
    || Touches(Object(m.facts), shared, cells, depth) || Touches(Object(m.overrides), shared, cells, depth)
    || (m.access != null && (m.access in shared || AccessTouches(m.access.v, shared, cells, depth)))
    || (m.policy != null && (m.policy in shared || EntryTouches(m.policy.v, shared, cells, depth)))
  }

  /** The documents of a model. */
  ghost predicate DocsMirror(copy: Model, made: set<object>, m: Model, cells: set<object>, depth: nat)
    reads made, cells
  {
    && Within(Object(m.facts), cells, depth) && Within(Object(m.overrides), cells, depth)
    && Mirrors(Object(copy.facts), made, Object(m.facts), cells, depth)
    && Mirrors(Object(copy.overrides), made, Object(m.overrides), cells, depth)
  }

  /** Its access observations and policy entry. */
  ghost predicate NotesMirror(copy: Model, made: set<object>, m: Model, cells: set<object>, depth: nat)
    reads made, cells, m.access, m.policy, copy.access, copy.policy
  {
    && In(copy.access, made)
    && AccessMirrors(AccessOf(copy.access), made, AccessOf(m.access), cells, depth, |AccessOf(m.access)|)
    && In(copy.policy, made) && (copy.policy == null <==> m.policy == null)
    && (copy.policy != null ==> EntryMirrors(copy.policy.v, made, m.policy.v, cells, depth))
  }

  /** Its pointer and flat containers. */
  ghost predicate FlatMirrors(copy: Model, made: set<object>, m: Model)
    reads m.effort, m.aliases, m.guide.costByTier, copy.effort, copy.aliases, copy.guide.costByTier
  {
    && In(copy.effort, made) && Pointee(copy.effort) == Pointee(m.effort)
    && In(copy.aliases, made) && TextsOf(copy.aliases) == TextsOf(m.aliases)
    && In(copy.guide.costByTier, made) && Pointee(copy.guide.costByTier) == Pointee(m.guide.costByTier)
  }

  predicate SamePlainFields(copy: Model, m: Model) {
    && copy.identity == m.identity && copy.key == m.key && copy.preferred == m.preferred && copy.source == m.source
    && copy.guide.cost == m.guide.cost && copy.guide.texts == m.guide.texts
  }

  /** The references of the copy lead into its own cells. */
  ghost predicate Owns(copy: Model, made: set<object>) {
    && In(copy.effort, made) && In(copy.aliases, made) && In(copy.guide.costByTier, made)
    && In(copy.access, made) && In(copy.policy, made)
  }

  ghost predicate ModelMirrors(copy: Model, made: set<object>, m: Model, cells: set<object>, depth: nat)
    reads made, cells
  {
    && ModelWithin(m, cells, depth) && SamePlainFields(copy, m) && Owns(copy, made)
    && DocsMirror(copy, made, m, cells, depth) && NotesMirror(copy, made, m, cells, depth) && FlatMirrors(copy, made, m)
  }

  lemma WiderModel(copy: Model, made: set<object>, more: set<object>, m: Model, cells: set<object>, depth: nat)
    requires ModelMirrors(copy, made, m, cells, depth) && made <= more
    ensures ModelMirrors(copy, more, m, cells, depth)
  {
    hide Mirrors, AccessMirrors, EntryMirrors;
    WiderMirrors(Object(copy.facts), made, more, Object(m.facts), cells, depth);
    WiderMirrors(Object(copy.overrides), made, more, Object(m.overrides), cells, depth);
    WiderAccess(AccessOf(copy.access), made, more, AccessOf(m.access), cells, depth, |AccessOf(m.access)|);
    if copy.policy != null {
      WiderEntry(copy.policy.v, made, more, m.policy.v, cells, depth);
    }
  }

  /** A copied model reads like the original, and reaches a cell of it exactly when the original
      reaches a mapping that the copying code does not know. */
  lemma ModelFacts(copy: Model, made: set<object>, m: Model, cells: set<object>, depth: nat)
    requires ModelMirrors(copy, made, m, cells, depth) && made !! cells
    ensures ModelWithin(m, cells, depth) && ModelWithin(copy, made + cells, depth)
    ensures ModelContent(copy, made + cells, depth) == ModelContent(m, cells, depth)
    ensures ModelTouches(copy, cells, made + cells, depth) <==> !ModelPlain(m, cells, depth)
  {
    hide Mirrors, AccessMirrors, EntryMirrors, Touches, Plain, ContentOf, Within, AccessContent, EntryContent,
      AccessWithin, EntryWithin, AccessTouches, AccessPlain, EntryTouches, EntryPlain;
    MirrorFacts(Object(copy.facts), made, Object(m.facts), cells, depth);
    MirrorFacts(Object(copy.overrides), made, Object(m.overrides), cells, depth);
    AccessFacts(AccessOf(copy.access), made, AccessOf(m.access), cells, depth);
    NoAccess(cells, cells, depth);
    NoAccess(cells, made + cells, depth);
    if copy.policy != null {
      EntryFacts(copy.policy.v, made, m.policy.v, cells, depth);
    }
  }

  lemma NoAccess(shared: set<object>, cells: set<object>, depth: nat)
    ensures AccessWithin([], cells, depth) && AccessContent([], cells, depth) == []
    ensures AccessPlain([], cells, depth) && !AccessTouches([], shared, cells, depth)
  {
  }

  /** `cloneIntMap`: nil stays nil. */
  method CloneIntMap(m: Cell?<map<string, int>>) returns (copy: Cell?<map<string, int>>, ghost made: set<object>)
    ensures fresh(made) && In(copy, made) && Pointee(copy) == Pointee(m)
  {
    if m == null {
      return null, {};
    }
    var out := CopyEntries(m.v);
    copy, made := out, {out};
  }

  method CloneDocs(m: Model, ghost cells: set<object>, ghost depth: nat)
    returns (facts: Fields, overrides: Fields, ghost made: set<object>)
    requires Within(Object(m.facts), cells, depth) && Within(Object(m.overrides), cells, depth)
    ensures fresh(made) && DocsMirror(m.(facts := facts, overrides := overrides), made, m, cells, depth)
  {
    hide Mirrors;
    ghost var made1, made2;
    facts, made1 := CloneMap(m.facts, cells, depth);
    overrides, made2 := CloneMap(m.overrides, cells, depth);
    made := made1 + made2;
    WiderMirrors(Object(facts), made1, made, Object(m.facts), cells, depth);
    WiderMirrors(Object(overrides), made2, made, Object(m.overrides), cells, depth);
  }

  method CloneNotes(m: Model, ghost cells: set<object>, ghost depth: nat)
    returns (access: Cell?<seq<AccessObservation>>, policy: Cell?<PolicyEntry>, ghost made: set<object>)
    requires AccessWithin(AccessOf(m.access), cells, depth)
      && (m.policy != null ==> EntryWithin(m.policy.v, cells, depth))
    ensures fresh(made) && NotesMirror(m.(access := access, policy := policy), made, m, cells, depth)
  {
    hide AccessMirrors, EntryMirrors, AccessWithin, EntryWithin;
    ghost var made1, made2;
    access, made1 := CloneAccess(m.access, cells, depth);
    policy, made2 := ClonePolicyEntry(m.policy, cells, depth);
    made := made1 + made2;
    WiderAccess(AccessOf(access), made1, made, AccessOf(m.access), cells, depth, |AccessOf(m.access)|);
    if policy != null {
      WiderEntry(policy.v, made2, made, m.policy.v, cells, depth);
    }
  }

  method CloneFlat(m: Model)
    returns (effort: Cell?<bool>, aliases: Strings, costs: Cell?<map<string, int>>, ghost made: set<object>)
    ensures fresh(made)
    ensures FlatMirrors(m.(effort := effort, aliases := aliases, guide := m.guide.(costByTier := costs)), made, m)
  {
    ghost var made1, made2, made3;
    effort, made1 := ClonePointer(m.effort);
    aliases, made2 := CloneStrings(m.aliases);
    costs, made3 := CloneIntMap(m.guide.costByTier);
    made := made1 + made2 + made3;
  }

  method CloneModel(m: Model, ghost cells: set<object>, ghost depth: nat) returns (copy: Model, ghost made: set<object>)
    requires ModelWithin(m, cells, depth)
    ensures fresh(made) && ModelMirrors(copy, made, m, cells, depth)
  {
    hide EntryWithin, AccessWithin, Within, Mirrors, AccessMirrors, EntryMirrors;
    NoAccess(cells, cells, depth);
    var effort, aliases, costs, made3 := CloneFlat(m);
    var access, policy, made2 := CloneNotes(m, cells, depth);
    var facts, overrides, made1 := CloneDocs(m, cells, depth);
    made := made1 + made2 + made3;
    copy := m.(effort := effort, aliases := aliases, facts := facts, guide := m.guide.(costByTier := costs),
               access := access, policy := policy, overrides := overrides);
    JoinParts(copy, m, cells, depth, made1, made2, made3);
  }

  /** The model that separately copied parts make up. */
  lemma JoinParts(copy: Model, m: Model, cells: set<object>, depth: nat, docs: set<object>, notes: set<object>,
                  flat: set<object>)
    requires ModelWithin(m, cells, depth) && SamePlainFields(copy, m)
    requires DocsMirror(copy, docs, m, cells, depth)
      && NotesMirror(copy, notes, m, cells, depth) && FlatMirrors(copy, flat, m)
    ensures ModelMirrors(copy, docs + notes + flat, m, cells, depth)
  {
    var made := docs + notes + flat;
    hide Mirrors, AccessMirrors, EntryMirrors;
    WiderMirrors(Object(copy.facts), docs, made, Object(m.facts), cells, depth);
    WiderMirrors(Object(copy.overrides), docs, made, Object(m.overrides), cells, depth);
    WiderAccess(AccessOf(copy.access), notes, made, AccessOf(m.access), cells, depth, |AccessOf(m.access)|);
    if copy.policy != null {
      WiderEntry(copy.policy.v, notes, made, m.policy.v, cells, depth);
    }
  }
}
