/**
 Resolution of the user's model policy (modelcatalog/catalog.go): which catalog model a policy
 id names, the validator that rejects contradicting entries, and the query `IsEnabled`.

 Go iterates a map in an order of its own.  Every loop over a map takes that order as a
 parameter here: any list that names each key once.  Case folding is that of ASCII.
 */
module CatalogPolicy {
  import opened PolicyIds

  datatype Option<+T> = None | Some(value: T)

  datatype Identity = Identity(harness: string, provider: string, model: string, version: string, tier: string)

  datatype Kind = Custom | Patch

  datatype PolicyEntry = PolicyEntry(kind: Kind, identity: Option<Identity>, versionPin: string, enabled: Option<bool>,
                                     fields: map<string, string>)

  datatype Policy = Policy(defaultEnabled: bool, enabled: seq<string>, models: map<string, PolicyEntry>)

  datatype Model = Model(
    identity: Identity, key: string, aliases: seq<string>,
    policy: Option<PolicyEntry>, overrides: map<string, string>, source: string)

  const NO_IDENTITY := Identity("", "", "", "", "")

  function ModelId(id: Identity): string {
    id.harness + ":" + id.provider + ":" + id.model + ":" + id.version + ":" + id.tier
  }

  // ----- Which model a policy id names

  function PolicyKey(m: Model): string {
    var alias := if m.aliases != [] then Base(m.aliases[0]) else m.identity.model;
    var provider := if m.identity.harness == "" then m.identity.provider else m.identity.harness;
    provider + ":" + alias + ":" + m.identity.tier
  }

  function AllNames(m: Model): seq<string> {
    m.aliases + [m.key, m.identity.model]
  }

  /** The model answers to the policy id, whatever tier the id may carry. */
  predicate Answers(m: Model, policyId: string) {
    || m.identity.harness + ":" + m.identity.model == policyId
    || m.identity.provider + ":" + m.identity.model == policyId
    || PolicyKey(m) == policyId
    || exists tier | tier in {"low", "med", "high"} ::
         PolicyIdMatches(m.identity.harness, AllNames(m), tier, policyId)
           || PolicyIdMatches(m.identity.provider, AllNames(m), tier, policyId)
  }

  /** `order` visits every key of a map once. */
  ghost predicate Enumerates(order: seq<string>, keys: set<string>) {
    && (forall k :: k in order <==> k in keys)
    && (forall i, j | 0 <= i < j < |order| :: order[i] != order[j])
  }

  /** Models are stored under their id, and no model has an empty identity. */
  ghost predicate WellFormed(models: map<string, Model>) {
    forall k | k in models :: ModelId(models[k].identity) == k && models[k].identity != NO_IDENTITY
  }

  /** The one model that answers to the policy id. */
  ghost predicate OnlyAnswer(models: map<string, Model>, policyId: string, k: string) {
    k in models && Answers(models[k], policyId) && forall other | other in models && Answers(models[other], policyId) ::
      other == k
  }

  ghost predicate IsPolicyIdentity(models: map<string, Model>, policyId: string, id: Identity) {
    if id == NO_IDENTITY then forall k :: !OnlyAnswer(models, policyId, k)
    else OnlyAnswer(models, policyId, ModelId(id)) && models[ModelId(id)].identity == id
  }

  lemma AnswersUnfolds(m: Model, policyId: string)
    ensures Answers(m, policyId) <==>
      || m.identity.harness + ":" + m.identity.model == policyId
      || m.identity.provider + ":" + m.identity.model == policyId
      || PolicyKey(m) == policyId
      || PolicyIdMatches(m.identity.harness, AllNames(m), "low", policyId)
      || PolicyIdMatches(m.identity.provider, AllNames(m), "low", policyId)
      || PolicyIdMatches(m.identity.harness, AllNames(m), "med", policyId)
      || PolicyIdMatches(m.identity.provider, AllNames(m), "med", policyId)
      || PolicyIdMatches(m.identity.harness, AllNames(m), "high", policyId)
      || PolicyIdMatches(m.identity.provider, AllNames(m), "high", policyId)
  {
    hide PolicyIdMatches, PolicyKey;
    var tiers := {"low", "med", "high"};
    assert "low" in tiers && "med" in tiers && "high" in tiers;
    assert forall tier | tier in tiers :: tier == "low" || tier == "med" || tier == "high";
  }

  /** A model answers to `harness:model`, `provider:model` and its own key, and to every id that lists one of its
      names under its harness or provider, with one of the three tiers or none, or with more than three parts. */
  lemma AnswersMeans(m: Model, policyId: string)
    ensures Answers(m, policyId) <==>
      || policyId == m.identity.harness + ":" + m.identity.model
      || policyId == m.identity.provider + ":" + m.identity.model
      || IsPolicyKey(m, policyId)
      || exists provider, name, tier :: AnswersUnder(m, policyId, provider, name, tier)
  {
    AnswersUnfolds(m, policyId);
    PolicyKeyMeans(m, policyId);
    forall provider, tier | provider in {m.identity.harness, m.identity.provider} && tier in {"low", "med", "high"}
      ensures PolicyIdMatches(provider, AllNames(m), tier, policyId) <==>
        exists name :: AnswersUnder(m, policyId, provider, name, tier)
    {
      hide Lists, HasFourParts, Answers, PolicyIdMatches;
      PolicyIdMatchesMeans(provider, AllNames(m), tier, policyId);
      assert forall name :: name in AllNames(m) <==> name in m.aliases || name == m.key || name == m.identity.model;
      if name :| name in AllNames(m) &&
                 (Lists(policyId, provider, name, tier) || HasFourParts(policyId, provider, name)) {
        assert AnswersUnder(m, policyId, provider, name, tier);
      }
    }
    hide Answers, PolicyIdMatches, PolicyKey, IsPolicyKey;
    assert forall provider, name, tier | AnswersUnder(m, policyId, provider, name, tier) ::
      provider in {m.identity.harness, m.identity.provider} && tier in {"low", "med", "high"};
    hide AnswersUnder;
  }

  /** The id lists this name of the model under this harness or provider. */
  ghost predicate AnswersUnder(m: Model, policyId: string, provider: string, name: string, tier: string) {
    && (provider == m.identity.harness || provider == m.identity.provider)
    && (name in m.aliases || name == m.key || name == m.identity.model)
    && (tier == "low" || tier == "med" || tier == "high")
    && (Lists(policyId, provider, name, tier) || HasFourParts(policyId, provider, name))
  }

  /** Harness, or provider if there is none; first alias without its suffix, or model name if there is none; tier. */
  ghost predicate IsPolicyKey(m: Model, policyId: string) {
    exists base :: IsPolicyKeyWith(m, policyId, base)
  }

  ghost predicate IsPolicyKeyWith(m: Model, policyId: string, base: string) {
    && (if m.aliases == [] then base == m.identity.model else IsBase(m.aliases[0], base))
    && policyId == (if m.identity.harness != "" then m.identity.harness else m.identity.provider)
                   + ":" + base + ":" + m.identity.tier
  }

  lemma PolicyKeyMeans(m: Model, policyId: string)
    ensures PolicyKey(m) == policyId <==> IsPolicyKey(m, policyId)
  {
    hide IsBase, Base;
    if m.aliases != [] {
      BaseMeans(m.aliases[0], Base(m.aliases[0]));
      forall base | IsBase(m.aliases[0], base)
        ensures base == Base(m.aliases[0])
      {
        BaseMeans(m.aliases[0], base);
      }
    }
    assert PolicyKey(m) == policyId ==>
      IsPolicyKeyWith(m, policyId, if m.aliases == [] then m.identity.model else Base(m.aliases[0]));
  }

  /** The result is the same for every iteration order: the only answering model, or nothing. */
  method FindPolicyIdentity(models: map<string, Model>, policyId: string, order: seq<string>) returns (found: Identity)
    requires WellFormed(models) && Enumerates(order, models.Keys)
    ensures IsPolicyIdentity(models, policyId, found)
  {
    hide Answers, ModelId;
    found := NO_IDENTITY;
    for i := 0 to |order|
      invariant found == NO_IDENTITY ==> forall k | k in order[..i] :: !Answers(models[k], policyId)
      invariant found != NO_IDENTITY ==>
        && ModelId(found) in models && models[ModelId(found)].identity == found
        && Answers(models[ModelId(found)], policyId)
        && forall k | k in order[..i] && Answers(models[k], policyId) :: k == ModelId(found)
    {
      assert order[i] in order;
      assert order[..i + 1] == order[..i] + [order[i]];
      var model := models[order[i]];
      var aliases := model.aliases + [model.key, model.identity.model];
      var matches :=
        || model.identity.harness + ":" + model.identity.model == policyId
        || model.identity.provider + ":" + model.identity.model == policyId
        || PolicyKey(model) == policyId
        || PolicyIdMatches(model.identity.harness, aliases, "low", policyId)
        || PolicyIdMatches(model.identity.provider, aliases, "low", policyId)
        || PolicyIdMatches(model.identity.harness, aliases, "med", policyId)
        || PolicyIdMatches(model.identity.provider, aliases, "med", policyId)
        || PolicyIdMatches(model.identity.harness, aliases, "high", policyId)
        || PolicyIdMatches(model.identity.provider, aliases, "high", policyId);
      AnswersUnfolds(model, policyId);
      if !matches {
        continue;
      }
      if found != NO_IDENTITY && ModelId(found) != ModelId(model.identity) {
        return NO_IDENTITY;
      }
      found := model.identity;
    }
    assert order[..|order|] == order;
  }

  lemma PolicyIdentityUnique(models: map<string, Model>, policyId: string, a: Identity, b: Identity)
    requires IsPolicyIdentity(models, policyId, a) && IsPolicyIdentity(models, policyId, b)
    ensures a == b
  {
    hide Answers, ModelId;
    if a != NO_IDENTITY && b != NO_IDENTITY {
      assert ModelId(a) == ModelId(b);
    }
  }

  /** No well-formed catalog stores a model under the id of the empty identity. */
  lemma EmptyIdIsFree(models: map<string, Model>)
    requires WellFormed(models)
    ensures ModelId(NO_IDENTITY) !in models
  {
  }

  // ----- The validator

  /** The two entries switch the same model on and off, and not for two different tiers. */
  ghost predicate Conflict(models: map<string, Model>, policy: Policy, left: string, right: string)
    requires left in policy.models && right in policy.models
  {
    && policy.models[left].enabled.Some? && policy.models[right].enabled.Some?
    && policy.models[left].enabled != policy.models[right].enabled
    && (exists l, r | IsEntryIdentity(models, policy, left, l) && IsEntryIdentity(models, policy, right, r) ::
          ModelId(l) == ModelId(r) != ModelId(NO_IDENTITY))
    && (PolicyIdTier(left) == "" || PolicyIdTier(right) == "" || PolicyIdTier(left) == PolicyIdTier(right))
  }

  ghost predicate IsEntryIdentity(models: map<string, Model>, policy: Policy, key: string, id: Identity)
    requires key in policy.models
  {
    match policy.models[key].identity
    case Some(explicit) => id == explicit
    case None => IsPolicyIdentity(models, key, id)
  }

  ghost predicate ConflictFree(models: map<string, Model>, policy: Policy) {
    forall left, right | left in policy.models && right in policy.models :: !Conflict(models, policy, left, right)
  }

  method EntryIdentity(models: map<string, Model>, policy: Policy, key: string, order: seq<string>)
    returns (id: Identity)
    requires WellFormed(models) && Enumerates(order, models.Keys) && key in policy.models
    ensures IsEntryIdentity(models, policy, key, id)
    ensures forall other | IsEntryIdentity(models, policy, key, other) :: other == id
  {
    id := FindPolicyIdentity(models, key, order);
    forall other | IsPolicyIdentity(models, key, other)
      ensures other == id
    {
      PolicyIdentityUnique(models, key, other, id);
    }
    if policy.models[key].identity.Some? {
      id := policy.models[key].identity.value;
    }
  }

  lemma ConflictSymmetric(models: map<string, Model>, policy: Policy, left: string, right: string)
    requires left in policy.models && right in policy.models && Conflict(models, policy, left, right)
    ensures Conflict(models, policy, right, left)
  {
    hide ModelId, IsEntryIdentity, PolicyIdTier;
    var l, r :| IsEntryIdentity(models, policy, left, l) && IsEntryIdentity(models, policy, right, r)
      && ModelId(l) == ModelId(r) != ModelId(NO_IDENTITY);
    assert ModelId(r) == ModelId(l) != ModelId(NO_IDENTITY);
  }

  /** `keys` is the sorted list of the policy's ids; the outcome does not depend on its order. */
  method ValidatePolicyEnablement(models: map<string, Model>, policy: Policy, keys: seq<string>, order: seq<string>)
    returns (ok: bool)
    requires WellFormed(models) && Enumerates(order, models.Keys) && Enumerates(keys, policy.models.Keys)
    ensures ok <==> ConflictFree(models, policy)
  {
    hide ModelId, IsEntryIdentity, PolicyIdTier, WellFormed;
    for i := 0 to |keys|
      invariant forall a, b | 0 <= a < i && a < b < |keys| :: !Conflict(models, policy, keys[a], keys[b])
    {
      assert keys[i] in keys;
      var left := policy.models[keys[i]];
      if left.enabled.None? {
        continue;
      }
      var leftIdentity := EntryIdentity(models, policy, keys[i], order);
      for j := i + 1 to |keys|
        invariant forall b | i < b < j :: !Conflict(models, policy, keys[i], keys[b])
      {
        assert keys[j] in keys;
        var right := policy.models[keys[j]];
        if right.enabled.None? || left.enabled == right.enabled {
          continue;
        }
        var rightIdentity := EntryIdentity(models, policy, keys[j], order);
        if ModelId(leftIdentity) != ModelId(rightIdentity) || ModelId(leftIdentity) == ModelId(NO_IDENTITY) {
          continue;
        }
        var leftTier, rightTier := PolicyIdTier(keys[i]), PolicyIdTier(keys[j]);
        if leftTier == "" || rightTier == "" || leftTier == rightTier {
          assert Conflict(models, policy, keys[i], keys[j]);
          return false;
        }
      }
    }
    forall left, right | left in policy.models && right in policy.models
      ensures !Conflict(models, policy, left, right)
    {
      var a :| 0 <= a < |keys| && keys[a] == left;
      var b :| 0 <= b < |keys| && keys[b] == right;
      if Conflict(models, policy, left, right) && b < a {
        ConflictSymmetric(models, policy, left, right);
      }
    }
    ok := true;
  }

  // ----- The query

  /** A query in lower case, as IsEnabled works with it. */
  datatype Query = Query(provider: string, modelName: string, tier: string)

  function Normalized(provider: string, modelName: string, tier: string): Query {
    Query(Lower(provider), modelName, Lower(tier))
  }

  /** The query names this catalog model. */
  ghost predicate Names(m: Model, q: Query) {
    && (EqualFold(m.identity.harness, q.provider) || EqualFold(m.identity.provider, q.provider))
    && (m.identity.model == q.modelName || m.key == q.modelName
        || exists alias | alias in m.aliases :: alias == q.modelName || IsBase(alias, q.modelName))
  }

  /** The part of IsEnabled's first loop that tells whether the query names the model. */
  method IsNamed(model: Model, q: Query) returns (matches: bool)
    ensures matches <==> Names(model, q)
  {
    hide IsBase, Base, EqualFold;
    if !EqualFold(model.identity.harness, q.provider) && !EqualFold(model.identity.provider, q.provider) {
      return false;
    }
    matches := model.identity.model == q.modelName || model.key == q.modelName;
    for j := 0 to |model.aliases|
      invariant matches <==>
        || model.identity.model == q.modelName || model.key == q.modelName
        || exists i | 0 <= i < j :: model.aliases[i] == q.modelName || IsBase(model.aliases[i], q.modelName)
    {
      BaseMeans(model.aliases[j], q.modelName);
      if model.aliases[j] == q.modelName || Base(model.aliases[j]) == q.modelName {
        matches := true;
      }
    }
    assert forall i | 0 <= i < |model.aliases| :: model.aliases[i] in model.aliases;
  }

  ghost predicate IsQueryProvider(models: map<string, Model>, q: Query, provider: string) {
    provider == q.provider
    || exists k | k in models && Names(models[k], q) ::
         provider == Lower(models[k].identity.harness) || provider == Lower(models[k].identity.provider)
  }

  ghost predicate IsQueryAlias(models: map<string, Model>, q: Query, alias: string) {
    exists k | k in models && Names(models[k], q) :: alias in AllNames(models[k])
  }

  predicate IdentityMatches(entry: PolicyEntry, q: Query) {
    && entry.identity.Some?
    && var id := entry.identity.value;
       && (EqualFold(id.harness, q.provider) || EqualFold(id.provider, q.provider))
       && id.model == q.modelName
       && (id.tier == "" || EqualFold(id.tier, q.tier))
  }

  /** Some provider and alias collected for the query match the policy id. */
  ghost predicate IdMatches(models: map<string, Model>, q: Query, policyId: string) {
    exists provider, aliases | IsQueryProvider(models, q, provider)
      && (forall a | a in aliases :: IsQueryAlias(models, q, a)) ::
      PolicyIdMatches(provider, aliases, q.tier, policyId)
  }

  ghost predicate EntryMatches(models: map<string, Model>, policy: Policy, q: Query, policyId: string)
    requires policyId in policy.models
  {
    IdentityMatches(policy.models[policyId], q) || IdMatches(models, q, policyId)
  }

  /** What matching entries say explicitly. */
  ghost predicate Says(models: map<string, Model>, policy: Policy, q: Query, verdict: bool) {
    exists id | id in policy.models :: EntryMatches(models, policy, q, id) && policy.models[id].enabled == Some(verdict)
  }

  ghost predicate ListedUnder(models: map<string, Model>, policy: Policy, q: Query) {
    exists providers, aliases
      | (forall p | p in providers :: IsQueryProvider(models, q, p))
        && (forall a | a in aliases :: IsQueryAlias(models, q, a)) ::
      ListsModel(policy.enabled, providers, aliases, q.tier)
  }

  /** A custom entry whose own id is on the enabled list. */
  predicate CustomListed(policy: Policy, q: Query, policyId: string)
    requires policyId in policy.models
  {
    IdentityMatches(policy.models[policyId], q) && IndexOfColon(policyId) < |policyId|
    && var i := IndexOfColon(policyId);
       ListsModel(policy.enabled, [policyId[..i]], [policyId[i + 1..]], q.tier)
  }

  /** The answer when no matching entry is explicit. */
  ghost predicate Fallback(models: map<string, Model>, policy: Policy, q: Query) {
    || ListedUnder(models, policy, q)
    || (exists id | id in policy.models :: CustomListed(policy, q, id))
    || ((forall k | k in models :: !Names(models[k], q))
        && ListsModel(policy.enabled, [q.provider], [q.modelName], q.tier))
    || policy.defaultEnabled
  }

  /** An id on the enabled list enables the query: it lists a name of a model that the query names, under the query's
      provider or a harness or provider of such a model; or the name in the id of a custom entry that describes the
      queried model; or, if the query names no model, the query itself. */
  ghost predicate Enables(models: map<string, Model>, policy: Policy, q: Query, id: string) {
    || (exists provider, name | IsQueryProvider(models, q, provider) && IsQueryAlias(models, q, name) ::
          Lists(id, provider, name, q.tier))
    || (exists p, n ::
          && NoColon(p) && p + ":" + n in policy.models && IdentityMatches(policy.models[p + ":" + n], q)
          && Lists(id, p, n, q.tier))
    || ((forall k | k in models :: !Names(models[k], q)) && Lists(id, q.provider, q.modelName, q.tier))
  }

  /** An id with another tier enables nothing. */
  lemma OtherTierEnablesNothing(models: map<string, Model>, policy: Policy, q: Query, p: string, b: string, t: string)
    requires NoColon(p) && NoColon(b) && NoColon(t) && !SameButCase(t, q.tier)
    ensures !Enables(models, policy, q, p + ":" + b + ":" + t)
  {
    forall provider, name
      ensures !Lists(p + ":" + b + ":" + t, provider, name, q.tier)
    {
      OtherTierListsNothing(provider, name, q.tier, p, b, t);
    }
    hide Lists;
  }

  /** A policy id matches the query when it lists a name of a model that the query names, under the query's provider
      or a harness or provider of such a model; with four parts or more it does so for every tier. */
  lemma IdMatchesMeans(models: map<string, Model>, q: Query, policyId: string)
    ensures IdMatches(models, q, policyId) <==>
      exists provider, name | IsQueryProvider(models, q, provider) && IsQueryAlias(models, q, name) ::
        Lists(policyId, provider, name, q.tier) || HasFourParts(policyId, provider, name)
  {
    hide IsQueryProvider, IsQueryAlias, Lists, HasFourParts, PolicyIdMatches;
    if IdMatches(models, q, policyId) {
      var provider, aliases :|
        IsQueryProvider(models, q, provider) && (forall a | a in aliases :: IsQueryAlias(models, q, a))
        && PolicyIdMatches(provider, aliases, q.tier, policyId);
      PolicyIdMatchesMeans(provider, aliases, q.tier, policyId);
    }
    if provider, name :| IsQueryProvider(models, q, provider) && IsQueryAlias(models, q, name)
                         && (Lists(policyId, provider, name, q.tier) || HasFourParts(policyId, provider, name)) {
      PolicyIdMatchesMeans(provider, [name], q.tier, policyId);
      assert name in [name];
    }
  }

  /** Model ids of identities without colons list their five fields in this order, so they tell them apart. */
  lemma ModelIdTellsApart(a: Identity, b: Identity)
    requires NoColon(a.harness) && NoColon(a.provider) && NoColon(a.model) && NoColon(a.version) && NoColon(a.tier)
    requires NoColon(b.harness) && NoColon(b.provider) && NoColon(b.model) && NoColon(b.version) && NoColon(b.tier)
    ensures Split(ModelId(a)) == [a.harness, a.provider, a.model, a.version, a.tier]
    ensures ModelId(a) == ModelId(b) <==> a == b
  {
    ModelIdParts(a);
    ModelIdParts(b);
    hide ModelId, Split;
    var x, y := Fields(a), Fields(b);
    if x == y {
      assert x[0] == y[0] && x[1] == y[1] && x[2] == y[2] && x[3] == y[3] && x[4] == y[4];
    }
  }

  ghost function Fields(a: Identity): seq<string> {
    [a.harness, a.provider, a.model, a.version, a.tier]
  }

  lemma ModelIdParts(a: Identity)
    requires NoColon(a.harness) && NoColon(a.provider) && NoColon(a.model) && NoColon(a.version) && NoColon(a.tier)
    ensures Split(ModelId(a)) == [a.harness, a.provider, a.model, a.version, a.tier]
  {
    hide Split, NoColon;
    Associates(a.harness, a.provider, a.model + ":" + (a.version + ":" + a.tier));
    Associates(a.harness + ":" + a.provider, a.model, a.version + ":" + a.tier);
    Associates(a.harness + ":" + a.provider + ":" + a.model, a.version, a.tier);
    TwoParts(a.version, a.tier);
    SplitJoined(a.model, a.version + ":" + a.tier);
    SplitJoined(a.provider, a.model + ":" + (a.version + ":" + a.tier));
    SplitJoined(a.harness, a.provider + ":" + (a.model + ":" + (a.version + ":" + a.tier)));
  }

  lemma FallbackEnables(models: map<string, Model>, policy: Policy, q: Query)
    ensures Fallback(models, policy, q) <==>
      policy.defaultEnabled || exists id | id in policy.enabled :: Enables(models, policy, q, id)
  {
    ListedUnderMeans(models, policy, q);
    CustomListedMeans(policy, q);
    ListsModelMeans(policy.enabled, [q.provider], [q.modelName], q.tier);
    assert forall x: string, y: string :: x in [y] <==> x == y;
    hide ListedUnder, CustomListed, ListsModel, Lists, IsQueryProvider, IsQueryAlias, IdentityMatches, Names, NoColon;
  }

  lemma ListedUnderMeans(models: map<string, Model>, policy: Policy, q: Query)
    ensures ListedUnder(models, policy, q) <==>
      exists id, provider, name | id in policy.enabled && IsQueryProvider(models, q, provider)
                                  && IsQueryAlias(models, q, name) ::
        Lists(id, provider, name, q.tier)
  {
    hide IsQueryProvider, IsQueryAlias, Lists, ListsModel;
    if ListedUnder(models, policy, q) {
      var providers, aliases :|
        && (forall p | p in providers :: IsQueryProvider(models, q, p))
        && (forall a | a in aliases :: IsQueryAlias(models, q, a))
        && ListsModel(policy.enabled, providers, aliases, q.tier);
      ListsModelMeans(policy.enabled, providers, aliases, q.tier);
    }
    if id, provider, name :| id in policy.enabled && IsQueryProvider(models, q, provider)
                             && IsQueryAlias(models, q, name) && Lists(id, provider, name, q.tier) {
      ListsModelMeans(policy.enabled, [provider], [name], q.tier);
      assert provider in [provider] && name in [name];
    }
  }

  lemma CustomListedMeans(policy: Policy, q: Query)
    ensures (exists entry | entry in policy.models :: CustomListed(policy, q, entry)) <==>
      exists id, p, n | id in policy.enabled && NoColon(p) && p + ":" + n in policy.models
                        && IdentityMatches(policy.models[p + ":" + n], q) ::
        Lists(id, p, n, q.tier)
  {
    hide Lists, ListsModel, IdentityMatches, NoColon;
    if entry :| entry in policy.models && CustomListed(policy, q, entry) {
      var i := IndexOfColon(entry);
      var p, n := entry[..i], entry[i + 1..];
      IndexOfColonIsFirst(entry);
      assert entry == p + ":" + n;
      ListsModelMeans(policy.enabled, [p], [n], q.tier);
    }
    if id, p, n :| id in policy.enabled && NoColon(p) && p + ":" + n in policy.models
                   && IdentityMatches(policy.models[p + ":" + n], q) && Lists(id, p, n, q.tier) {
      var entry := p + ":" + n;
      IndexOfJoined(p, n);
      assert entry[..|p|] == p && entry[|p| + 1..] == n;
      ListsModelMeans(policy.enabled, [p], [n], q.tier);
      assert p in [p] && n in [n];
      assert CustomListed(policy, q, entry);
    }
  }

  lemma {:induction false} ImplicitAnswer(models: map<string, Model>, policy: Policy, q: Query, order: seq<string>)
    requires Enumerates(order, policy.models.Keys)
    ensures (forall id | id in policy.models ::
             !EntryMatches(models, policy, q, id) || policy.models[id].enabled.None?) ==>
      Answer(models, policy, q, order) == Fallback(models, policy, q)
  {
    hide EntryMatches, Fallback;
    AnswerSays(models, policy, q, order);
  }

  /** The first explicit entry in iteration order decides. */
  ghost function Answer(models: map<string, Model>, policy: Policy, q: Query, policyOrder: seq<string>): bool
    requires forall id | id in policyOrder :: id in policy.models
  {
    if policyOrder == [] then Fallback(models, policy, q)
    else if EntryMatches(models, policy, q, policyOrder[0]) && policy.models[policyOrder[0]].enabled.Some? then
      policy.models[policyOrder[0]].enabled.value
    else Answer(models, policy, q, policyOrder[1..])
  }

  lemma {:induction false} AnswerSkips(models: map<string, Model>, policy: Policy, q: Query, a: seq<string>,
                                       b: seq<string>)
    requires forall id | id in a + b :: id in policy.models
    requires forall id | id in a :: !EntryMatches(models, policy, q, id) || policy.models[id].enabled.None?
    ensures Answer(models, policy, q, a + b) == Answer(models, policy, q, b)
  {
    hide EntryMatches, Fallback;
    if a == [] {
      assert a + b == b;
    } else {
      assert (a + b)[1..] == a[1..] + b;
      AnswerSkips(models, policy, q, a[1..], b);
    }
  }

  // ----- The answer does not depend on the iteration order

  lemma {:induction false} AnswerSays(models: map<string, Model>, policy: Policy, q: Query, order: seq<string>)
    requires forall id | id in order :: id in policy.models
    ensures var a := Answer(models, policy, q, order);
            || (exists id | id in order :: EntryMatches(models, policy, q, id) && policy.models[id].enabled == Some(a))
            || ((forall id | id in order :: !EntryMatches(models, policy, q, id) || policy.models[id].enabled.None?)
                && a == Fallback(models, policy, q))
  {
    hide EntryMatches, Fallback;
    if order != [] {
      assert order == [order[0]] + order[1..];
      AnswerSays(models, policy, q, order[1..]);
    }
  }

  /** Some order of the keys starts with a given key. */
  lemma {:induction false} OrderStartingWith(keys: set<string>, first: string) returns (order: seq<string>)
    requires first in keys
    ensures Enumerates(order, keys) && order[0] == first
  {
    var rest := SomeOrder(keys - {first});
    order := [first] + rest;
  }

  lemma {:induction false} SomeOrder(keys: set<string>) returns (order: seq<string>)
    ensures Enumerates(order, keys)
    decreases keys
  {
    if keys == {} {
      order := [];
    } else {
      var k :| k in keys;
      var rest := SomeOrder(keys - {k});
      order := [k] + rest;
    }
  }

  /** Two iteration orders can disagree exactly when matching entries say both yes and no. */
  lemma OrderMattersExactlyOnContradiction(models: map<string, Model>, policy: Policy, q: Query)
    ensures (exists a, b :: Enumerates(a, policy.models.Keys) && Enumerates(b, policy.models.Keys)
               && Answer(models, policy, q, a) != Answer(models, policy, q, b))
            <==> Says(models, policy, q, true) && Says(models, policy, q, false)
  {
    hide EntryMatches, Fallback;
    if Says(models, policy, q, true) && Says(models, policy, q, false) {
      var yes :| yes in policy.models && EntryMatches(models, policy, q, yes)
        && policy.models[yes].enabled == Some(true);
      var no :| no in policy.models && EntryMatches(models, policy, q, no) && policy.models[no].enabled == Some(false);
      var a := OrderStartingWith(policy.models.Keys, yes);
      var b := OrderStartingWith(policy.models.Keys, no);
      assert Answer(models, policy, q, a) && !Answer(models, policy, q, b);
    } else {
      forall a, b | Enumerates(a, policy.models.Keys) && Enumerates(b, policy.models.Keys)
        ensures Answer(models, policy, q, a) == Answer(models, policy, q, b)
      {
        AnswerSays(models, policy, q, a);
        AnswerSays(models, policy, q, b);
      }
    }
  }

  // ----- Accepted policies

  ghost predicate PatchesOnly(policy: Policy) {
    forall id | id in policy.models :: policy.models[id].kind == Patch && policy.models[id].identity.None?
  }

  /** What loading a policy of patches has checked: every patch names one model, and no two
      entries contradict each other. */
  ghost predicate Accepted(models: map<string, Model>, policy: Policy) {
    && ConflictFree(models, policy)
    && forall id | id in policy.models :: exists k :: OnlyAnswer(models, id, k)
  }

  ghost predicate NamesAtMostOne(models: map<string, Model>, q: Query) {
    forall a, b | a in models && b in models && Names(models[a], q) && Names(models[b], q) :: a == b
  }

  /** A matching policy id is one the named model answers to. */
  lemma MatchingIdIsAnswered(models: map<string, Model>, q: Query, policyId: string) returns (k: string)
    requires IdMatches(models, q, policyId) && NamesAtMostOne(models, q)
      && q.tier in {"low", "med", "high"} && Lower(q.provider) == q.provider
    ensures k in models && Names(models[k], q) && Answers(models[k], policyId)
    ensures |Split(policyId)| == 3 ==> EqualFold(Split(policyId)[2], q.tier)
  {
    hide Base, Split;
    var provider, aliases :|
      IsQueryProvider(models, q, provider) && (forall a | a in aliases :: IsQueryAlias(models, q, a))
      && PolicyIdMatches(provider, aliases, q.tier, policyId);
    var alias :| alias in aliases && Split(policyId)[1] == Base(alias);
    assert IsQueryAlias(models, q, alias);
    k :| k in models && Names(models[k], q) && alias in AllNames(models[k]);
    var m := models[k];
    LowerTwice(m.identity.harness);
    LowerTwice(m.identity.provider);
    assert EqualFold(provider, m.identity.harness) || EqualFold(provider, m.identity.provider);
    assert PolicyIdMatches(m.identity.harness, AllNames(m), q.tier, policyId)
      || PolicyIdMatches(m.identity.provider, AllNames(m), q.tier, policyId);
  }

  /** The tier of an id that matches a query is the query's tier, or none. */
  lemma MatchingTier(policyId: string, tier: string)
    requires tier in {"low", "med", "high"}
    requires |Split(policyId)| == 3 ==> EqualFold(Split(policyId)[2], tier)
    ensures PolicyIdTier(policyId) == "" || PolicyIdTier(policyId) == tier
  {
    hide Split;
    LowerOfTier(tier);
    if PolicyIdTier(policyId) != "" {
      LowerOfTier(PolicyIdTier(policyId));
    }
  }

  lemma LowerOfTier(tier: string)
    requires tier in {"low", "med", "high"}
    ensures Lower(tier) == tier
  {
  }

  /** Two patches that match such a query and disagree are a conflict the validator sees. */
  lemma DisagreeingPatchesConflict(models: map<string, Model>, policy: Policy, q: Query, yes: string, no: string)
    requires WellFormed(models) && PatchesOnly(policy) && yes in policy.models && no in policy.models
    requires forall id | id in policy.models :: exists k :: OnlyAnswer(models, id, k)
    requires NamesAtMostOne(models, q) && q.tier in {"low", "med", "high"} && Lower(q.provider) == q.provider
    requires IdMatches(models, q, yes) && IdMatches(models, q, no)
    requires policy.models[yes].enabled == Some(true) && policy.models[no].enabled == Some(false)
    ensures Conflict(models, policy, yes, no)
  {
    hide IdMatches, Answers, ModelId, PolicyIdTier, Split;
    var k := MatchingIdIsAnswered(models, q, yes);
    var other := MatchingIdIsAnswered(models, q, no);
    assert k == other;
    EmptyIdIsFree(models);
    var id := models[k].identity;
    assert IsEntryIdentity(models, policy, yes, id) && IsEntryIdentity(models, policy, no, id);
    MatchingTier(yes, q.tier);
    MatchingTier(no, q.tier);
  }

  /** For an accepted policy of patches, a query that names at most one model and a known tier,
      the matching entries never contradict each other, so every iteration order answers alike. */
  lemma AcceptedPolicyIsOrderFree(models: map<string, Model>, policy: Policy, q: Query, a: seq<string>, b: seq<string>)
    requires WellFormed(models) && PatchesOnly(policy) && Accepted(models, policy)
    requires NamesAtMostOne(models, q) && q.tier in {"low", "med", "high"} && Lower(q.provider) == q.provider
    requires Enumerates(a, policy.models.Keys) && Enumerates(b, policy.models.Keys)
    ensures Answer(models, policy, q, a) == Answer(models, policy, q, b)
  {
    hide IdMatches, Conflict, NamesAtMostOne, OnlyAnswer, Fallback, WellFormed;
    OrderMattersExactlyOnContradiction(models, policy, q);
    if Says(models, policy, q, true) && Says(models, policy, q, false) {
      var yes :| yes in policy.models && EntryMatches(models, policy, q, yes)
        && policy.models[yes].enabled == Some(true);
      var no :| no in policy.models && EntryMatches(models, policy, q, no) && policy.models[no].enabled == Some(false);
      DisagreeingPatchesConflict(models, policy, q, yes, no);
    }
  }

  // ----- The catalog object

  /** Merging a policy changes nothing that names are matched against. */
  ghost predicate SameNames(a: map<string, Model>, b: map<string, Model>) {
    a.Keys == b.Keys && forall k | k in a ::
      a[k].identity == b[k].identity && a[k].key == b[k].key && a[k].aliases == b[k].aliases
  }

  /** Every model carries one of the patches that name it, and a model that none names is unchanged. */
  ghost predicate PatchedBy(original: map<string, Model>, models: map<string, Model>, policy: Policy,
                            ids: seq<string>) {
    forall k | k in original :: k in models && IsPatched(original, k, models[k], policy, ids)
  }

  ghost predicate IsPatched(original: map<string, Model>, k: string, m: Model, policy: Policy, ids: seq<string>)
    requires k in original
  {
    || (m == original[k] && forall id | id in ids :: !OnlyAnswer(original, id, k))
    || exists id | id in ids && id in policy.models ::
         && OnlyAnswer(original, id, k)
         && m.policy == Some(policy.models[id]) && m.source == "user-declared"
         && forall field | field in policy.models[id].fields ::
            field in m.overrides && m.overrides[field] == policy.models[id].fields[field]
  }

  lemma SameAnswer(a: map<string, Model>, b: map<string, Model>, policyId: string, k: string)
    requires SameNames(a, b)
    ensures OnlyAnswer(a, policyId, k) <==> OnlyAnswer(b, policyId, k)
  {
    hide PolicyIdMatches;
    assert forall x | x in a :: AllNames(a[x]) == AllNames(b[x]) && PolicyKey(a[x]) == PolicyKey(b[x]);
    assert forall x | x in a :: Answers(a[x], policyId) <==> Answers(b[x], policyId);
  }

  /** The identity an entry is merged under: its own, or that of the one model that answers to its id. */
  ghost predicate IsMergeIdentity(models: map<string, Model>, policyId: string, entry: PolicyEntry,
                                  identity: Identity) {
    match entry.identity
    case Some(explicit) => identity == explicit
    case None => IsPolicyIdentity(models, policyId, identity)
  }

  function MergeTarget(models: map<string, Model>, identity: Identity): Model {
    if ModelId(identity) in models then models[ModelId(identity)]
    else Model(identity, "", [], None, map[], "user-declared")
  }

  /** The entry names a model, or declares one, whose version it does not contradict. */
  predicate MergesInto(models: map<string, Model>, entry: PolicyEntry, identity: Identity) {
    && (ModelId(identity) in models || (entry.kind == Custom && entry.identity.Some?))
    && (entry.versionPin == "" || entry.versionPin == MergeTarget(models, identity).identity.version)
  }

  predicate IsMergeResult(before: map<string, Model>, policyId: string, entry: PolicyEntry, identity: Identity,
                          ok: bool, after: map<string, Model>) {
    && (ok <==> MergesInto(before, entry, identity))
    && after == if ok then before[ModelId(identity) := Catalog.Patched(MergeTarget(before, identity), policyId, entry)]
       else before
  }

  /** A patch names one model, of the version it may pin. */
  ghost predicate NamesPinned(models: map<string, Model>, policyId: string, entry: PolicyEntry) {
    exists k :: OnlyAnswer(models, policyId, k)
      && (entry.versionPin == "" || entry.versionPin == models[k].identity.version)
  }

  ghost predicate Acceptable(models: map<string, Model>, policy: Policy) {
    ConflictFree(models, policy) && forall id | id in policy.models :: NamesPinned(models, id, policy.models[id])
  }

  /** A patch is merged exactly when it names one model of the original catalog and pins its version. */
  lemma PatchMerges(original: map<string, Model>, before: map<string, Model>, policyId: string, entry: PolicyEntry,
                    ok: bool, after: map<string, Model>)
    requires SameNames(original, before) && WellFormed(before) && entry.kind == Patch && entry.identity.None?
    requires exists identity :: IsMergeIdentity(before, policyId, entry, identity)
                                && IsMergeResult(before, policyId, entry, identity, ok, after)
    ensures ok <==> NamesPinned(original, policyId, entry)
    ensures ok ==> exists k ::
      OnlyAnswer(before, policyId, k) && after == before[k := Catalog.Patched(before[k], policyId, entry)]
  {
    var identity :|
      IsMergeIdentity(before, policyId, entry, identity) && IsMergeResult(before, policyId, entry, identity, ok, after);
    PinnedAlike(original, before, policyId, entry);
    FoundMeansOnly(before, policyId, identity);
    EmptyIdIsFree(before);
    hide OnlyAnswer, WellFormed, SameNames, ModelId;
    var id := ModelId(identity);
    if id in before {
      assert OnlyAnswer(before, policyId, id);
    }
    if NamesPinned(before, policyId, entry) {
      var k :| OnlyAnswer(before, policyId, k)
        && (entry.versionPin == "" || entry.versionPin == before[k].identity.version);
      AnswerIsFound(before, policyId, identity, k);
    }
  }

  lemma AnswerIsFound(models: map<string, Model>, policyId: string, identity: Identity, k: string)
    requires IsPolicyIdentity(models, policyId, identity) && OnlyAnswer(models, policyId, k)
    ensures ModelId(identity) == k && k in models
  {
    hide Answers, ModelId;
  }

  lemma PinnedAlike(a: map<string, Model>, b: map<string, Model>, policyId: string, entry: PolicyEntry)
    requires SameNames(a, b)
    ensures NamesPinned(a, policyId, entry) <==> NamesPinned(b, policyId, entry)
  {
    forall k
      ensures OnlyAnswer(a, policyId, k) <==> OnlyAnswer(b, policyId, k)
      ensures OnlyAnswer(a, policyId, k) ==> k in a && k in b && a[k].identity == b[k].identity
    {
      SameAnswer(a, b, policyId, k);
      OnlyAnswerIsIn(a, policyId, k);
    }
    hide OnlyAnswer, SameNames;
  }

  class Catalog {
    var models: map<string, Model>
    var policy: Option<Policy>

    constructor (models: map<string, Model>)
      ensures this.models == models && policy == None
    {
      this.models := models;
      this.policy := None;
    }

    /** Any iteration order of a map's keys. */
    static method AnyOrder(keys: set<string>) returns (order: seq<string>)
      ensures Enumerates(order, keys)
    {
      order := [];
      var rest := keys;
      while rest != {}
        invariant rest <= keys && Enumerates(order, keys - rest)
        decreases rest
      {
        var k :| k in rest;
        order := order + [k];
        rest := rest - {k};
      }
    }

    /** The model a policy entry is merged into, with that entry applied. */
    static function Patched(m: Model, policyId: string, entry: PolicyEntry): Model {
      var i := IndexOfColon(policyId);
      m.(policy := Some(entry),
         key := if m.key == "" && entry.kind == Custom then (if i < |policyId| then policyId[i + 1..] else policyId)
           else m.key,
         source := "user-declared",
         overrides := m.overrides + entry.fields)
    }

    /** One entry of mergePolicyFile's loop. */
    method MergeEntry(policyId: string, entry: PolicyEntry) returns (ok: bool)
      requires WellFormed(models) && entry.identity != Some(NO_IDENTITY)
      modifies this`models
      ensures WellFormed(models)
      ensures exists identity :: IsMergeIdentity(old(models), policyId, entry, identity)
                                 && IsMergeResult(old(models), policyId, entry, identity, ok, models)
    {
      hide Answers, ModelId, IsPolicyIdentity;
      var identity;
      if entry.identity.Some? {
        identity := entry.identity.value;
      } else {
        var order := AnyOrder(models.Keys);
        identity := FindPolicyIdentity(models, policyId, order);
        FoundMeansOnly(models, policyId, identity);
      }
      assert IsMergeIdentity(models, policyId, entry, identity);
      var modelId := ModelId(identity);
      var model;
      if modelId in models {
        model := models[modelId];
      } else if entry.kind == Custom && entry.identity.Some? {
        model := Model(identity, "", [], None, map[], "user-declared");
      } else {
        return false;
      }
      assert MergeTarget(models, identity) == model;
      if entry.versionPin != "" && entry.versionPin != model.identity.version {
        return false;
      }
      var colon := IndexOfColon(policyId);
      if model.key == "" && entry.kind == Custom {
        // TrimPrefix takes the part before the first colon away, if there is one
        model := model.(key := if colon < |policyId| then policyId[colon + 1..] else policyId);
      }
      model := model.(policy := Some(entry), source := "user-declared", overrides := model.overrides + entry.fields);
      models := models[modelId := model];
      ok := true;
    }

    /** mergePolicyFile on a decoded policy.  The schema allows no empty identity. */
    method MergePolicy(newPolicy: Policy) returns (ok: bool)
      requires WellFormed(models)
      requires forall id | id in newPolicy.models :: newPolicy.models[id].identity != Some(NO_IDENTITY)
      modifies this
      ensures ok ==> policy == Some(newPolicy) && WellFormed(models) && ConflictFree(old(models), newPolicy)
      ensures PatchesOnly(newPolicy) ==> (ok <==> Acceptable(old(models), newPolicy))
      ensures ok && PatchesOnly(newPolicy) ==> Accepted(models, newPolicy) && SameNames(old(models), models)
      ensures ok && PatchesOnly(newPolicy) ==>
        exists ids :: Enumerates(ids, newPolicy.models.Keys) && PatchedBy(old(models), models, newPolicy, ids)
    {
      hide Answers, ModelId, ConflictFree, IsPolicyIdentity, OnlyAnswer, WellFormed, PatchedBy, NamesPinned,
        IsMergeIdentity, IsMergeResult, SameNames;
      NothingPatched(models, newPolicy);
      var keys := AnyOrder(newPolicy.models.Keys);
      var order := AnyOrder(models.Keys);
      var valid := ValidatePolicyEnablement(models, newPolicy, keys, order);
      if !valid {
        return false;
      }
      policy := Some(newPolicy);
      keys := AnyOrder(newPolicy.models.Keys);
      for i := 0 to |keys|
        invariant policy == Some(newPolicy) && WellFormed(models)
        invariant PatchesOnly(newPolicy) ==> SameNames(old(models), models)
        invariant PatchesOnly(newPolicy) ==> PatchedBy(old(models), models, newPolicy, keys[..i])
        invariant PatchesOnly(newPolicy) ==> forall id | id in keys[..i] :: exists k :: OnlyAnswer(old(models), id, k)
        invariant PatchesOnly(newPolicy) ==> forall id | id in keys[..i] ::
          NamesPinned(old(models), id, newPolicy.models[id])
      {
        assert keys[i] in keys;
        assert keys[..i + 1] == keys[..i] + [keys[i]];
        ghost var before := models;
        var merged := MergeEntry(keys[i], newPolicy.models[keys[i]]);
        if PatchesOnly(newPolicy) {
          PatchMerges(old(models), before, keys[i], newPolicy.models[keys[i]], merged, models);
        }
        if !merged {
          return false;
        }
        if PatchesOnly(newPolicy) {
          PatchKeepsNames(old(models), before, keys[i], newPolicy.models[keys[i]], models);
          PatchedByOneMore(old(models), before, newPolicy, keys[..i], keys[i], models);
        }
      }
      assert keys[..|keys|] == keys;
      if PatchesOnly(newPolicy) {
        AcceptedTransfers(old(models), models, newPolicy);
      }
      ok := true;
    }

    /** IsEnabled answers by the first explicit matching entry, in whatever order the maps iterate. */
    method IsEnabled(provider: string, modelName: string, tier: string, policyOrder: seq<string>)
      returns (enabled: bool)
      requires policy.Some? ==> Enumerates(policyOrder, policy.value.models.Keys)
      ensures policy.None? ==> enabled
      ensures policy.Some? ==>
        enabled == Answer(models, policy.value, Normalized(provider, modelName, tier), policyOrder)
      // with no explicit entry, the list of enabled ids and the default decide
      ensures policy.Some? ==>
        var q := Query(Lower(provider), modelName, Lower(tier));
        (forall id | id in policy.value.models ::
           !EntryMatches(models, policy.value, q, id) || policy.value.models[id].enabled.None?) ==>
        (enabled <==> policy.value.defaultEnabled
                      || exists id | id in policy.value.enabled :: Enables(models, policy.value, q, id))
    {
      hide EntryMatches, Fallback, Names, CustomListed, ListsModel, IdMatches, ListedUnder, Enables;
      if policy.None? {
        return true;
      }
      var p := policy.value;
      var q := Normalized(provider, modelName, tier);
      FallbackEnables(models, p, q);
      ImplicitAnswer(models, p, q, policyOrder);
      var providers, aliases, known := CollectNames(q);
      for i := 0 to |policyOrder|
        invariant Answer(models, p, q, policyOrder) == Answer(models, p, q, policyOrder[i..])
      {
        var policyId := policyOrder[i];
        assert policyId in policyOrder;
        assert policyOrder[i..][1..] == policyOrder[i + 1..];
        var entry := p.models[policyId];
        CollectedIdMatches(models, q, providers, aliases, policyId);
        EntryMatchesMeans(models, p, q, policyId);
        var identityMatches := entry.identity.Some?
          && (EqualFold(entry.identity.value.harness, q.provider)
              || EqualFold(entry.identity.value.provider, q.provider))
          && entry.identity.value.model == q.modelName
          && (entry.identity.value.tier == "" || EqualFold(entry.identity.value.tier, q.tier));
        var idMatches := exists prefix | prefix in providers :: PolicyIdMatches(prefix, aliases, q.tier, policyId);
        if (identityMatches || idMatches) && entry.enabled.Some? {
          return entry.enabled.value;
        }
      }
      assert policyOrder[|policyOrder|..] == [];
      FallbackMeans(models, p, q, providers, aliases);
      if ListsModel(p.enabled, providers, aliases, q.tier) {
        return true;
      }
      for i := 0 to |policyOrder|
        invariant forall id | id in policyOrder[..i] :: !CustomListed(p, q, id)
      {
        assert policyOrder[i] in policyOrder;
        assert policyOrder[..i + 1] == policyOrder[..i] + [policyOrder[i]];
        if CustomListed(p, q, policyOrder[i]) {
          return true;
        }
      }
      assert policyOrder[..|policyOrder|] == policyOrder;
      if !known && ListsModel(p.enabled, [q.provider], [q.modelName], q.tier) {
        return true;
      }
      return p.defaultEnabled;
    }

    /** The providers and aliases of every model the query names, in any order. */
    method CollectNames(q: Query) returns (providers: seq<string>, aliases: seq<string>, known: bool)
      ensures forall p :: p in providers <==> IsQueryProvider(models, q, p)
      ensures forall a :: a in aliases <==> IsQueryAlias(models, q, a)
      ensures known <==> exists k | k in models :: Names(models[k], q)
    {
      hide Names, Lower;
      providers, aliases, known := [q.provider], [], false;
      var order := AnyOrder(models.Keys);
      for i := 0 to |order|
        invariant known <==> exists k | k in order[..i] :: Names(models[k], q)
        invariant forall p ::
          p in providers <==> (p == q.provider || exists k | k in order[..i] && Names(models[k], q) ::
          p == Lower(models[k].identity.harness) || p == Lower(models[k].identity.provider))
        invariant forall a ::
          a in aliases <==> exists k | k in order[..i] && Names(models[k], q) :: a in AllNames(models[k])
      {
        assert order[i] in order;
        assert order[..i + 1] == order[..i] + [order[i]];
        var model := models[order[i]];
        var named := IsNamed(model, q);
        if !named {
          continue;
        }
        known := true;
        providers := providers + [Lower(model.identity.harness), Lower(model.identity.provider)];
        aliases := aliases + [model.key, model.identity.model] + model.aliases;
      }
      assert order[..|order|] == order;
    }
  }

  lemma NothingPatched(models: map<string, Model>, policy: Policy)
    ensures PatchedBy(models, models, policy, []) && SameNames(models, models)
  {
  }

  lemma PatchedByOneMore(
    original: map<string, Model>, before: map<string, Model>, policy: Policy, ids: seq<string>, id: string,
      after: map<string, Model>)
    requires id in policy.models && SameNames(original, before) && PatchedBy(original, before, policy, ids)
    requires exists k ::
      OnlyAnswer(before, id, k) && after == before[k := Catalog.Patched(before[k], id, policy.models[id])]
    ensures PatchedBy(original, after, policy, ids + [id])
  {
    hide Answers;
    var named :| OnlyAnswer(before, id, named)
      && after == before[named := Catalog.Patched(before[named], id, policy.models[id])];
    SameAnswer(original, before, id, named);
    forall k | k in original
      ensures IsPatched(original, k, after[k], policy, ids + [id])
    {
      assert IsPatched(original, k, before[k], policy, ids);
      if k == named {
        assert id in ids + [id];
      } else {
        OnlyOneAnswer(original, id, named, k);
        assert forall x | x in ids :: x in ids + [id];
      }
    }
  }

  lemma OnlyOneAnswer(models: map<string, Model>, policyId: string, a: string, b: string)
    requires OnlyAnswer(models, policyId, a) && a != b
    ensures !OnlyAnswer(models, policyId, b)
  {
  }

  lemma SamePolicyIdentity(a: map<string, Model>, b: map<string, Model>, policyId: string, id: Identity)
    requires SameNames(a, b)
    ensures IsPolicyIdentity(a, policyId, id) <==> IsPolicyIdentity(b, policyId, id)
  {
    hide OnlyAnswer, ModelId;
    forall k
      ensures OnlyAnswer(a, policyId, k) <==> OnlyAnswer(b, policyId, k)
    {
      SameAnswer(a, b, policyId, k);
    }
    OnlyAnswerIsIn(a, policyId, ModelId(id));
    OnlyAnswerIsIn(b, policyId, ModelId(id));
  }

  lemma OnlyAnswerIsIn(models: map<string, Model>, policyId: string, k: string)
    ensures OnlyAnswer(models, policyId, k) ==> k in models
  {
  }

  lemma AcceptedTransfers(a: map<string, Model>, b: map<string, Model>, policy: Policy)
    requires SameNames(a, b) && Accepted(a, policy)
    ensures Accepted(b, policy)
  {
    hide OnlyAnswer, ModelId, IsPolicyIdentity, PolicyIdTier;
    forall id, k
      ensures OnlyAnswer(a, id, k) <==> OnlyAnswer(b, id, k)
    {
      SameAnswer(a, b, id, k);
    }
    forall left, right | left in policy.models && right in policy.models
      ensures !Conflict(b, policy, left, right)
    {
      forall id: Identity
        ensures IsEntryIdentity(a, policy, left, id) <==> IsEntryIdentity(b, policy, left, id)
        ensures IsEntryIdentity(a, policy, right, id) <==> IsEntryIdentity(b, policy, right, id)
      {
        SamePolicyIdentity(a, b, left, id);
        SamePolicyIdentity(a, b, right, id);
      }
      assert !Conflict(a, policy, left, right);
    }
  }

  lemma PatchKeepsNames(original: map<string, Model>, before: map<string, Model>, policyId: string, entry: PolicyEntry,
                        after: map<string, Model>)
    requires SameNames(original, before) && entry.kind == Patch
    requires exists k ::
      OnlyAnswer(before, policyId, k) && after == before[k := Catalog.Patched(before[k], policyId, entry)]
    ensures SameNames(original, after) && exists k :: OnlyAnswer(original, policyId, k)
  {
    hide Answers;
    var k :| OnlyAnswer(before, policyId, k) && after == before[k := Catalog.Patched(before[k], policyId, entry)];
    SameAnswer(original, before, policyId, k);
  }

  lemma FoundMeansOnly(models: map<string, Model>, policyId: string, id: Identity)
    requires WellFormed(models) && IsPolicyIdentity(models, policyId, id)
    ensures ModelId(id) in models ==> OnlyAnswer(models, policyId, ModelId(id))
  {
    hide Answers, ModelId;
    if id == NO_IDENTITY {
      EmptyIdIsFree(models);
    }
  }

  lemma CollectedIdMatches(models: map<string, Model>, q: Query, providers: seq<string>, aliases: seq<string>,
                           policyId: string)
    requires forall p :: p in providers <==> IsQueryProvider(models, q, p)
    requires forall a :: a in aliases <==> IsQueryAlias(models, q, a)
    ensures (exists prefix | prefix in providers :: PolicyIdMatches(prefix, aliases, q.tier, policyId)) <==>
      IdMatches(models, q, policyId)
  {
    hide IsQueryProvider, IsQueryAlias, Split, Base;
    if IdMatches(models, q, policyId) {
      var provider, some :| IsQueryProvider(models, q, provider) && (forall a | a in some :: IsQueryAlias(models, q, a))
        && PolicyIdMatches(provider, some, q.tier, policyId);
      assert PolicyIdMatches(provider, aliases, q.tier, policyId);
    }
  }

  lemma EntryMatchesMeans(models: map<string, Model>, policy: Policy, q: Query, policyId: string)
    requires policyId in policy.models
    ensures EntryMatches(models, policy, q, policyId) <==>
      IdentityMatches(policy.models[policyId], q) || IdMatches(models, q, policyId)
  {
  }

  lemma FallbackMeans(models: map<string, Model>, policy: Policy, q: Query, providers: seq<string>,
                      aliases: seq<string>)
    requires forall p :: p in providers <==> IsQueryProvider(models, q, p)
    requires forall a :: a in aliases <==> IsQueryAlias(models, q, a)
    ensures Fallback(models, policy, q) <==>
            || ListsModel(policy.enabled, providers, aliases, q.tier)
            || (exists id | id in policy.models :: CustomListed(policy, q, id))
            || ((forall k | k in models :: !Names(models[k], q))
                && ListsModel(policy.enabled, [q.provider], [q.modelName], q.tier))
            || policy.defaultEnabled
  {
    hide IsQueryProvider, IsQueryAlias, Split, Base, CustomListed, Names;
    if ListedUnder(models, policy, q) {
      var ps, as_ :|
        (forall p | p in ps :: IsQueryProvider(models, q, p)) && (forall a | a in as_ :: IsQueryAlias(models, q, a))
        && ListsModel(policy.enabled, ps, as_, q.tier);
      assert forall p | p in ps :: p in providers;
      assert forall a | a in as_ :: a in aliases;
    }
  }
}
