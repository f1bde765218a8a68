/**
 `Models`, `Access` and `UserPolicy` of the catalog (modelcatalog/catalog.go): what callers get reads
 like the catalog, and shares no cell with it exactly when the catalog's documents hold no mapping with
 other keys than strings.  Then nothing that callers do can be seen in the catalog.
 */
module CatalogHandout {
  import opened CatalogValues
  import opened CatalogCopies

  datatype CatalogTree = CatalogTree(
    models: map<string, ModelTree>, access: seq<AccessTree>, accessComplete: bool, policy: Option<PolicyTree>,
      policyPath: string)

  ghost predicate ModelsWithin(m: map<string, Model>, cells: set<object>, depth: nat)
    reads cells
  {
    forall k | k in m :: ModelWithin(m[k], cells, depth)
  }

  ghost function ModelsContent(m: map<string, Model>, cells: set<object>, depth: nat): map<string, ModelTree>
    requires ModelsWithin(m, cells, depth)
    reads cells
  {
    map k | k in m :: ModelContent(m[k], cells, depth)
  }

  ghost predicate ModelsPlain(m: map<string, Model>, cells: set<object>, depth: nat)
    requires ModelsWithin(m, cells, depth)
    reads cells
  {
    forall k | k in m :: ModelPlain(m[k], cells, depth)
  }

  ghost predicate ModelsTouch(m: map<string, Model>, shared: set<object>, cells: set<object>, depth: nat)
    requires ModelsWithin(m, cells, depth)
    reads cells
  {
    exists k | k in m :: ModelTouches(m[k], shared, cells, depth)
  }

  ghost predicate AccessCellWithin(p: Cell?<seq<AccessObservation>>, cells: set<object>, depth: nat)
    reads cells
  {
    In(p, cells) && (p != null ==> AccessWithin(p.v, cells, depth))
  }

  ghost function AccessCellContent(p: Cell?<seq<AccessObservation>>, cells: set<object>, depth: nat): seq<AccessTree>
    requires AccessCellWithin(p, cells, depth)
    reads cells
  {
    if p == null then [] else AccessContent(p.v, cells, depth)
  }

  ghost predicate PolicyCellWithin(p: Cell?<Policy>, cells: set<object>, depth: nat)
    reads cells
  {
    In(p, cells) && (p != null ==> PolicyWithin(p.v, cells, depth))
  }

  ghost function PolicyCellContent(p: Cell?<Policy>, cells: set<object>, depth: nat): Option<PolicyTree>
    requires PolicyCellWithin(p, cells, depth)
    reads cells
  {
    if p == null then None else Some(PolicyContent(p.v, cells, depth))
  }

  class Catalog {
    var models: Cell<map<string, Model>>
    var access: Cell?<seq<AccessObservation>>
    var accessComplete: bool
    var policy: Cell?<Policy>
    var policyPath: string
    /** The cells of the catalog and how deeply its documents are nested. */
    ghost var cells: set<object>
    ghost var depth: nat

    constructor (models: Cell<map<string, Model>>, access: Cell?<seq<AccessObservation>>, accessComplete: bool,
                 policy: Cell?<Policy>,
                 policyPath: string, ghost cells: set<object>, ghost depth: nat)
      requires models in cells && ModelsWithin(models.v, cells, depth)
      requires AccessCellWithin(access, cells, depth) && PolicyCellWithin(policy, cells, depth)
      ensures Valid() && this.cells == cells && this.depth == depth
      ensures this.models == models && this.access == access && this.accessComplete == accessComplete
      ensures this.policy == policy && this.policyPath == policyPath
    {
      this.models, this.access, this.accessComplete := models, access, accessComplete;
      this.policy, this.policyPath, this.cells, this.depth := policy, policyPath, cells, depth;
    }

    ghost predicate Valid()
      reads this, cells
    {
      && this !in cells && models in cells && ModelsWithin(models.v, cells, depth)
      && AccessCellWithin(access, cells, depth) && PolicyCellWithin(policy, cells, depth)
    }

    ghost function Content(): CatalogTree
      requires Valid()
      reads this, cells
    {
      CatalogTree(ModelsContent(models.v, cells, depth), AccessCellContent(access, cells, depth), accessComplete,
                  PolicyCellContent(policy, cells, depth), policyPath)
    }

    /** No document of the catalog holds a mapping with other keys than strings. */
    ghost predicate IsPlain()
      requires Valid()
      reads this, cells
    {
      && ModelsPlain(models.v, cells, depth)
      && (access != null ==> AccessPlain(access.v, cells, depth))
      && (policy != null ==> PolicyPlain(policy.v, cells, depth))
    }
  }

  ghost predicate ModelsMirror(copies: map<string, Model>, made: set<object>, m: map<string, Model>, cells: set<object>,
                               depth: nat)
    reads made, cells
  {
    forall k | k in copies :: k in m && ModelMirrors(copies[k], made, m[k], cells, depth)
  }

  lemma WiderModels(copies: map<string, Model>, made: set<object>, more: set<object>, m: map<string, Model>,
                    cells: set<object>, depth: nat)
    requires ModelsMirror(copies, made, m, cells, depth) && made <= more
    ensures ModelsMirror(copies, more, m, cells, depth)
  {
    hide ModelMirrors;
    forall j | j in copies
      ensures j in m && ModelMirrors(copies[j], more, m[j], cells, depth)
    {
      WiderModel(copies[j], made, more, m[j], cells, depth);
    }
  }

  lemma AddModel(copies: map<string, Model>, made: set<object>, m: map<string, Model>, cells: set<object>, depth: nat,
                 k: string, copy: Model, more: set<object>)
    requires ModelsMirror(copies, made, m, cells, depth) && k in m && ModelMirrors(copy, more, m[k], cells, depth)
    ensures ModelsMirror(copies[k := copy], made + more, m, cells, depth)
  {
    WiderModels(copies, made, made + more, m, cells, depth);
    WiderModel(copy, more, made + more, m[k], cells, depth);
    hide ModelMirrors;
  }

  /** All models copied: they read alike, and one of the copies reaches a cell of the originals exactly
      when some model is not plain. */
  lemma ModelsFacts(copies: map<string, Model>, made: set<object>, m: map<string, Model>, cells: set<object>,
                    depth: nat)
    requires ModelsMirror(copies, made, m, cells, depth) && copies.Keys == m.Keys && made !! cells
    ensures ModelsWithin(m, cells, depth) && ModelsWithin(copies, made + cells, depth)
    ensures ModelsContent(copies, made + cells, depth) == ModelsContent(m, cells, depth)
    ensures ModelsTouch(copies, cells, made + cells, depth) <==> !ModelsPlain(m, cells, depth)
  {
    forall k | k in m
      ensures ModelWithin(m[k], cells, depth) && ModelWithin(copies[k], made + cells, depth)
      ensures ModelContent(copies[k], made + cells, depth) == ModelContent(m[k], cells, depth)
      ensures ModelTouches(copies[k], cells, made + cells, depth) <==> !ModelPlain(m[k], cells, depth)
    {
      ModelFacts(copies[k], made, m[k], cells, depth);
    }
    hide ModelMirrors, ModelContent, ModelTouches, ModelPlain, ModelWithin;
  }

  lemma ModelAt(m: map<string, Model>, cells: set<object>, depth: nat, k: string)
    requires ModelsWithin(m, cells, depth) && k in m
    ensures ModelWithin(m[k], cells, depth)
  {
  }

  method CloneModels(m: map<string, Model>, ghost cells: set<object>, ghost depth: nat)
    returns (copy: Cell<map<string, Model>>, ghost made: set<object>)
    requires ModelsWithin(m, cells, depth)
    ensures fresh(made) && copy in made && copy.v.Keys == m.Keys && ModelsMirror(copy.v, made, m, cells, depth)
  {
    hide ModelMirrors, ModelWithin, ModelsWithin;
    copy := new Cell(map[]);
    made := {};
    var pending := m.Keys;
    while pending != {}
      invariant fresh(copy) && fresh(made) && copy !in made && ModelsWithin(m, cells, depth)
      invariant pending <= m.Keys && copy.v.Keys == m.Keys - pending && ModelsMirror(copy.v, made, m, cells, depth)
    {
      hide ModelsMirror;
      var k :| k in pending;
      ModelAt(m, cells, depth, k);
      var model, more := CloneModel(m[k], cells, depth);
      AddModel(copy.v, made, m, cells, depth, k, model, more);
      copy.v := copy.v[k := model];
      made := made + more;
      pending := pending - {k};
    }
    WiderModels(copy.v, made, made + {copy}, m, cells, depth);
    made := made + {copy};
  }

  /** A copy of the models. */
  method Models(c: Catalog?) returns (r: Cell?<map<string, Model>>, ghost made: set<object>)
    requires c != null ==> c.Valid()
    ensures fresh(made) && In(r, made) && (r == null <==> c == null)
    ensures c != null ==> c.Valid() && c.Content() == old(c.Content())
    ensures c != null ==> r.v.Keys == c.models.v.Keys && ModelsMirror(r.v, made, c.models.v, c.cells, c.depth)
    ensures c != null ==>
              && ModelsWithin(r.v, made + c.cells, c.depth)
              && ModelsContent(r.v, made + c.cells, c.depth) == c.Content().models
              && (ModelsTouch(r.v, c.cells, made + c.cells, c.depth) <==> !ModelsPlain(c.models.v, c.cells, c.depth))
  {
    hide ModelsWithin, ModelsContent, ModelsTouch, ModelsPlain, ModelsMirror;
    if c == null {
      return null, {};
    }
    r, made := CloneModels(c.models.v, c.cells, c.depth);
    ModelsFacts(r.v, made, c.models.v, c.cells, c.depth);
  }

  /** A copy of the observations. */
  method Access(c: Catalog?) returns (r: Cell?<seq<AccessObservation>>, ghost made: set<object>)
    requires c != null ==> c.Valid()
    ensures fresh(made) && In(r, made) && (c == null ==> r == null)
    ensures c != null ==> c.Valid() && c.Content() == old(c.Content())
    ensures c != null ==>
              AccessCellWithin(r, made + c.cells, c.depth)
                && AccessCellContent(r, made + c.cells, c.depth) == c.Content().access
    ensures c != null ==>
              (AccessTouches(AccessOf(r), c.cells, made + c.cells, c.depth) <==>
                !AccessPlain(AccessOf(c.access), c.cells, c.depth))
  {
    hide ModelsWithin, ModelsContent, PolicyCellWithin, PolicyCellContent, AccessWithin, AccessContent, AccessMirrors,
      AccessTouches, AccessPlain;
    if c == null {
      return null, {};
    }
    NoAccess(c.cells, c.cells, c.depth);
    r, made := CloneAccess(c.access, c.cells, c.depth);
    AccessFacts(AccessOf(r), made, AccessOf(c.access), c.cells, c.depth);
    NoAccess(c.cells, made + c.cells, c.depth);
    NoAccess(c.cells, c.cells, c.depth);
  }

  /** A copy of the policy. */
  method UserPolicy(c: Catalog?) returns (r: Cell?<Policy>, ghost made: set<object>)
    requires c != null ==> c.Valid()
    ensures fresh(made) && In(r, made) && (c == null ==> r == null)
    ensures c != null ==> c.Valid() && c.Content() == old(c.Content())
    ensures c != null ==>
              PolicyCellWithin(r, made + c.cells, c.depth)
                && PolicyCellContent(r, made + c.cells, c.depth) == c.Content().policy
    ensures c != null && r != null ==>
              (PolicyTouches(r.v, c.cells, made + c.cells, c.depth) <==> !PolicyPlain(c.policy.v, c.cells, c.depth))
  {
    hide ModelsWithin, ModelsContent, AccessCellWithin, AccessCellContent, PolicyWithin, PolicyContent, PolicyMirrors,
      PolicyTouches, PolicyPlain;
    if c == null {
      return null, {};
    }
    r, made := ClonePolicy(c.policy, c.cells, c.depth);
    if r != null {
      PolicyFacts(r.v, made, c.policy.v, c.cells, c.depth);
    }
  }

  /** Whatever callers do to everything they can reach from what they were handed, a plain catalog reads
      as before.  From a plain catalog they reach new cells only. */
  method AnyUse(c: Catalog)
    requires c.Valid()
    modifies c.cells
    ensures old(c.IsPlain()) ==> c.Valid() && c.Content() == old(c.Content())
  {
    hide ModelsWithin, ModelsContent, PolicyCellWithin, PolicyCellContent, AccessCellWithin, AccessCellContent,
      ModelsMirror, ModelsTouch, ModelsPlain, AccessTouches, AccessPlain, PolicyTouches, PolicyPlain;
    var models, made1 := Models(c);
    var access, made2 := Access(c);
    var policy, made3 := UserPolicy(c);
    ghost var reached := made1 + made2 + made3 + if c.IsPlain() then {} else c.cells;
    modify reached;
  }

  // ----- A catalog that is not plain

  /** The fact `value: {limits: {8: [a]}}`, whose innermost map has a number for a key; or with that
      map emptied. */
  ghost predicate SharingFacts(facts: Cell<map<string, Value>>, value: Cell<map<string, Value>>,
                               mapping: Cell<map<Key, Value>>, list: Cell<seq<Value>>)
    reads facts, value, mapping, list
  {
    && facts.v == map["value" := Object(value)] && value.v == map["limits" := Mapping(mapping)]
    && (mapping.v == map[NumberKey(8) := Array(list)] || mapping.v == map[]) && list.v == [Scalar("a")]
  }

  lemma MappingContent(mapping: Cell<map<Key, Value>>, list: Cell<seq<Value>>, cells: set<object>)
    requires (mapping.v == map[NumberKey(8) := Array(list)] || mapping.v == map[]) && list.v == [Scalar("a")]
    requires mapping in cells && list in cells
    ensures Within(Mapping(mapping), cells, 2) && ContentOf(Mapping(mapping), cells, 2).TMapping?
    ensures ContentOf(Mapping(mapping), cells, 2).entries.Keys == mapping.v.Keys
  {
    assert Within(Array(list), cells, 1);
  }

  lemma SharingContent(facts: Cell<map<string, Value>>, value: Cell<map<string, Value>>, mapping: Cell<map<Key, Value>>,
                       list: Cell<seq<Value>>, cells: set<object>)
    requires SharingFacts(facts, value, mapping, list)
    requires facts in cells && value in cells && mapping in cells && list in cells
    ensures Within(Object(facts), cells, 4) && !Plain(Object(facts), cells, 4)
    ensures Within(Mapping(mapping), cells, 2)
    ensures ContentOf(Object(facts), cells, 4)
         == TObject(map["value" := TObject(map["limits" := ContentOf(Mapping(mapping), cells, 2)])])
  {
    MappingContent(mapping, list, cells);
    assert !Plain(value.v["limits"], cells, 2);
    assert Within(Object(value), cells, 3) && !Plain(facts.v["value"], cells, 3);
    assert ContentOf(Object(value), cells, 3).fields == map["limits" := ContentOf(Mapping(mapping), cells, 2)];
    assert ContentOf(Object(facts), cells, 4).fields == map["value" := ContentOf(Object(value), cells, 3)];
  }

  /** The copy of these facts leads to the same map. */
  lemma SharingPath(copy: Fields, made: set<object>, facts: Cell<map<string, Value>>, value: Cell<map<string, Value>>,
                    mapping: Cell<map<Key, Value>>, list: Cell<seq<Value>>, cells: set<object>)
    requires SharingFacts(facts, value, mapping, list) && Within(Object(facts), cells, 4)
    requires Mirrors(Object(copy), made, Object(facts), cells, 4)
    ensures copy != null && "value" in copy.v && copy.v["value"].Object? && copy.v["value"].fields != null
    ensures "limits" in copy.v["value"].fields.v && copy.v["value"].fields.v["limits"] == Mapping(mapping)
  {
    assert Mirrors(copy.v["value"], made, Object(value), cells, 3);
    assert Mirrors(copy.v["value"].fields.v["limits"], made, Mapping(mapping), cells, 2);
  }

  function SharingModel(facts: Cell<map<string, Value>>): Model {
    Model(Identity("h", "p", "m", "1", ""), "m", null, false, null, facts, Guide(0, null, []), null,
          null, null, "state")
  }

  lemma SharingModelWithin(facts: Cell<map<string, Value>>, cells: set<object>)
    requires Within(Object(facts), cells, 4)
    ensures ModelWithin(SharingModel(facts), cells, 4)
    ensures ModelContent(SharingModel(facts), cells, 4).facts == ContentOf(Object(facts), cells, 4)
    ensures ModelPlain(SharingModel(facts), cells, 4) ==> Plain(Object(facts), cells, 4)
  {
    hide Within, ContentOf, Plain;
    NullWithin(cells);
  }

  lemma NullWithin(cells: set<object>)
    ensures Within(Object(null), cells, 4)
  {
  }

  /** A catalog of one model with these facts. */
  ghost predicate Sharing(c: Catalog, facts: Cell<map<string, Value>>, value: Cell<map<string, Value>>,
                          mapping: Cell<map<Key, Value>>, list: Cell<seq<Value>>)
    reads c, c.cells
  {
    && c !in c.cells && c.models in c.cells && facts in c.cells
    && value in c.cells && mapping in c.cells && list in c.cells
    && SharingFacts(facts, value, mapping, list)
    && c.models.v == map["m" := SharingModel(facts)] && c.access == null && c.policy == null && c.depth == 4
  }

  lemma SharingCatalog(c: Catalog, facts: Cell<map<string, Value>>, value: Cell<map<string, Value>>,
                       mapping: Cell<map<Key, Value>>, list: Cell<seq<Value>>)
    requires Sharing(c, facts, value, mapping, list)
    ensures c.Valid() && !c.IsPlain() && Within(Mapping(mapping), c.cells, 2)
      && ContentOf(Mapping(mapping), c.cells, 2).TMapping?
    ensures ContentOf(Mapping(mapping), c.cells, 2).entries.Keys == mapping.v.Keys
    ensures "m" in c.Content().models
    ensures c.Content().models["m"].facts
         == TObject(map["value" := TObject(map["limits" := ContentOf(Mapping(mapping), c.cells, 2)])])
  {
    SharingContent(facts, value, mapping, list, c.cells);
    SharingModelWithin(facts, c.cells);
    MappingContent(mapping, list, c.cells);
    hide Within, ContentOf, Plain, ModelWithin, ModelContent, ModelPlain, SharingModel, SharingFacts;
    assert !ModelPlain(c.models.v["m"], c.cells, 4);
  }

  method BuildFacts()
    returns (facts: Cell<map<string, Value>>, value: Cell<map<string, Value>>, mapping: Cell<map<Key, Value>>,
      list: Cell<seq<Value>>)
    ensures fresh(facts) && fresh(value) && fresh(mapping) && fresh(list)
    ensures SharingFacts(facts, value, mapping, list) && mapping.v != map[]
  {
    list := new Cell([Scalar("a")]);
    mapping := new Cell(map[NumberKey(8) := Array(list)]);
    value := new Cell(map["limits" := Mapping(mapping)]);
    facts := new Cell(map["value" := Object(value)]);
    assert NumberKey(8) in mapping.v;
  }

  lemma OneModel(models: map<string, Model>, facts: Cell<map<string, Value>>, cells: set<object>)
    requires models == map["m" := SharingModel(facts)] && Within(Object(facts), cells, 4)
    ensures ModelsWithin(models, cells, 4) && AccessCellWithin(null, cells, 4) && PolicyCellWithin(null, cells, 4)
  {
    SharingModelWithin(facts, cells);
    hide ModelWithin, SharingModel;
  }

  method BuildSharing()
    returns (c: Catalog, facts: Cell<map<string, Value>>, value: Cell<map<string, Value>>,
      mapping: Cell<map<Key, Value>>, list: Cell<seq<Value>>)
    ensures fresh(c) && fresh(c.cells) && Sharing(c, facts, value, mapping, list) && mapping.v != map[]
  {
    hide *;
    facts, value, mapping, list := BuildFacts();
    var models := new Cell(map["m" := SharingModel(facts)]);
    ghost var none: set<object> := {};
    ghost var cells := none + {list} + {mapping} + {value} + {facts} + {models};
    SharingContent(facts, value, mapping, list, cells);
    OneModel(models.v, facts, cells);
    c := new Catalog(models, null, true, null, "", cells, 4);
    IsSharing(c, facts, value, mapping, list);
  }

  lemma IsSharing(c: Catalog, facts: Cell<map<string, Value>>, value: Cell<map<string, Value>>,
                  mapping: Cell<map<Key, Value>>, list: Cell<seq<Value>>)
    requires c.Valid() && facts in c.cells && value in c.cells && mapping in c.cells && list in c.cells
    requires SharingFacts(facts, value, mapping, list)
    requires c.models.v == map["m" := SharingModel(facts)] && c.access == null && c.policy == null && c.depth == 4
    ensures Sharing(c, facts, value, mapping, list)
  {
    hide SharingFacts, SharingModel;
  }

  /** A write to a handed-out model shows in a catalog that holds this fact. */
  method SharedMappingShows() returns (c: Catalog, ghost before: CatalogTree)
    ensures fresh(c) && fresh(c.cells) && c.Valid() && !c.IsPlain() && c.Content() != before
  {
    hide Within, ContentOf, ModelWithin, ModelContent, ModelPlain, ModelTouches, SharingModel, Mirrors, ModelMirrors,
      ModelsTouch, ModelsPlain, ModelsContent, ModelsWithin, AccessCellWithin, PolicyCellWithin, AccessCellContent,
      PolicyCellContent;
    var facts, value, mapping, list;
    c, facts, value, mapping, list := BuildSharing();
    SharingCatalog(c, facts, value, mapping, list);
    before := c.Content();
    ghost var inner := ContentOf(Mapping(mapping), c.cells, 2);
    var handed, made := Models(c);
    var copy := handed.v["m"];
    MirroredFactsOf(copy, made, facts, c.cells);
    SharingPath(copy.facts, made, facts, value, mapping, list, c.cells);
    var limits := copy.facts.v["value"].fields.v["limits"];
    limits.entries.v := map[];
    SharingCatalog(c, facts, value, mapping, list);
    Innermost(inner, ContentOf(Mapping(mapping), c.cells, 2));
  }

  lemma MirroredFactsOf(copy: Model, made: set<object>, facts: Cell<map<string, Value>>, cells: set<object>)
    requires ModelMirrors(copy, made, SharingModel(facts), cells, 4)
    ensures Within(Object(facts), cells, 4) && Mirrors(Object(copy.facts), made, Object(facts), cells, 4)
  {
    hide Mirrors, Within;
  }

  lemma Innermost(a: Tree, b: Tree)
    requires a != b
    ensures TObject(map["value" := TObject(map["limits" := a])]) != TObject(map["value" := TObject(map["limits" := b])])
  {
    assert map["limits" := a]["limits"] != map["limits" := b]["limits"];
    assert map["value" := TObject(map["limits" := a])]["value"] != map["value" := TObject(map["limits" := b])]["value"];
  }
}
