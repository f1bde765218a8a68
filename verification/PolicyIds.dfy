/**
 The strings by which policies and queries name models: `provider:name` and `provider:name:tier`
 (modelcatalog/catalog.go).  The code splits them at colons; what it accepts is stated here by
 concatenation.  Case folding is that of ASCII.
 */
module PolicyIds {

  function IndexOfColon(s: string): (i: nat)
    ensures i <= |s| && (i < |s| ==> s[i] == ':')
  {
    if s == [] || s[0] == ':' then 0 else 1 + IndexOfColon(s[1..])
  }

  function Split(s: string): (parts: seq<string>)
    ensures |parts| >= 1
    decreases |s|
  {
    var i := IndexOfColon(s);
    if i == |s| then [s] else [s[..i]] + Split(s[i + 1..])
  }

  /** An alias up to its first colon. */
  function Base(alias: string): string {
    alias[..IndexOfColon(alias)]
  }

  function FoldChar(c: char): char {
    if 'A' <= c <= 'Z' then (c as int + 32) as char else c
  }

  function Lower(s: string): string {
    seq(|s|, i requires 0 <= i < |s| => FoldChar(s[i]))
  }

  predicate EqualFold(a: string, b: string) {
    Lower(a) == Lower(b)
  }

  /** policyIDMatches */
  predicate PolicyIdMatches(provider: string, aliases: seq<string>, tier: string, policyId: string) {
    var parts := Split(policyId);
    && |parts| >= 2
    && EqualFold(parts[0], provider)
    && (|parts| == 3 ==> EqualFold(parts[2], tier))
    && exists alias | alias in aliases :: parts[1] == Base(alias)
  }

  /** enabledModelID */
  predicate ListsModel(enabled: seq<string>, providers: seq<string>, aliases: seq<string>, tier: string) {
    exists policyId | policyId in enabled ::
      var parts := Split(policyId);
      && 2 <= |parts| <= 3 && (|parts| == 3 ==> EqualFold(parts[2], tier))
      && (exists provider | provider in providers :: EqualFold(parts[0], provider))
      && (exists alias | alias in aliases :: parts[1] == Base(alias))
  }

  /** policyIDTier */
  function PolicyIdTier(policyId: string): string {
    var parts := Split(policyId);
    if |parts| == 3 && parts[2] in {"low", "med", "high"} then parts[2] else ""
  }

  // ----- Splitting and joining

  predicate NoColon(s: string) {
    forall i | 0 <= i < |s| :: s[i] != ':'
  }

  lemma {:induction false} IndexOfColonIsFirst(s: string)
    ensures NoColon(s[..IndexOfColon(s)])
  {
    if s != [] && s[0] != ':' {
      IndexOfColonIsFirst(s[1..]);
      assert s[..IndexOfColon(s)] == [s[0]] + s[1..][..IndexOfColon(s[1..])];
    }
  }

  lemma IndexOfJoined(p: string, rest: string)
    requires NoColon(p)
    ensures IndexOfColon(p) == |p| && IndexOfColon(p + ":" + rest) == |p|
  {
    IndexOfColonIsFirst(p);
    IndexOfColonIsFirst(p + ":" + rest);
    var joined := p + ":" + rest;
    assert joined[|p|] == ':' && forall k | 0 <= k < |p| :: joined[k] == p[k];
    IndexAtMost(joined, |p|);
  }

  lemma {:induction false} IndexAtMost(s: string, k: nat)
    requires k < |s| && s[k] == ':'
    ensures IndexOfColon(s) <= k
  {
    if k > 0 && s[0] != ':' {
      IndexAtMost(s[1..], k - 1);
    }
  }

  /** Splitting undoes joining. */
  lemma SplitJoined(p: string, rest: string)
    requires NoColon(p)
    ensures Split(p) == [p] && Split(p + ":" + rest) == [p] + Split(rest)
  {
    IndexOfJoined(p, rest);
    var joined := p + ":" + rest;
    assert joined[..|p|] == p && joined[|p| + 1..] == rest;
  }

  /** Joining undoes splitting. */
  lemma JoinSplit(s: string)
    ensures NoColon(Split(s)[0])
    ensures |Split(s)| == 1 ==> s == Split(s)[0]
    ensures |Split(s)| > 1 ==>
      exists rest :: s == Split(s)[0] + ":" + rest && Split(rest) == Split(s)[1..]
  {
    IndexOfColonIsFirst(s);
    var i := IndexOfColon(s);
    if i < |s| {
      assert s == s[..i] + ":" + s[i + 1..];
      assert Split(s)[1..] == Split(s[i + 1..]);
    } else {
      assert s[..i] == s;
    }
  }

  /** The same text up to the case of letters. */
  predicate SameButCase(a: string, b: string) {
    |a| == |b| &&
    forall i | 0 <= i < |a| ::
      || a[i] == b[i]
      || ('a' <= a[i] <= 'z' && b[i] as int == a[i] as int - 'a' as int + 'A' as int)
      || ('a' <= b[i] <= 'z' && a[i] as int == b[i] as int - 'a' as int + 'A' as int)
  }

  lemma EqualFoldMeans(a: string, b: string)
    ensures EqualFold(a, b) <==> SameButCase(a, b)
  {
    if EqualFold(a, b) {
      assert |Lower(a)| == |a| && |Lower(b)| == |b|;
      forall i | 0 <= i < |a|
        ensures FoldChar(a[i]) == FoldChar(b[i])
      {
        assert Lower(a)[i] == Lower(b)[i];
      }
    }
  }

  lemma LowerTwice(s: string)
    ensures Lower(Lower(s)) == Lower(s)
  {
  }

  /** The part of a name before its first colon. */
  ghost predicate IsBase(name: string, base: string) {
    NoColon(base) && (name == base || exists rest :: name == base + ":" + rest)
  }

  lemma BaseMeans(name: string, base: string)
    ensures base == Base(name) <==> IsBase(name, base)
  {
    IndexOfColonIsFirst(name);
    var i := IndexOfColon(name);
    if i < |name| {
      assert name == Base(name) + ":" + name[i + 1..];
    } else {
      assert name == Base(name);
    }
    if IsBase(name, base) {
      if name == base {
        IndexOfJoined(base, "");
      } else {
        var rest :| name == base + ":" + rest;
        IndexOfJoined(base, rest);
      }
    }
  }

  // ----- What the ids say

  /** `id` is `provider:name`, or that with the tier; case counts in the name only. */
  ghost predicate Lists(id: string, provider: string, name: string, tier: string) {
    exists p, b :: ListsAs(id, provider, name, tier, p, b)
  }

  ghost predicate ListsAs(id: string, provider: string, name: string, tier: string, p: string, b: string) {
    && NoColon(p) && SameButCase(p, provider) && IsBase(name, b)
    && (id == p + ":" + b || WithTier(id, p, b, tier))
  }

  ghost predicate WithTier(id: string, p: string, b: string, tier: string) {
    exists t :: NoColon(t) && SameButCase(t, tier) && id == p + ":" + b + ":" + t
  }

  /** `id` goes on after a third colon; then no tier is looked at. */
  ghost predicate HasFourParts(id: string, provider: string, name: string) {
    exists p, b, t, rest ::
      && NoColon(p) && SameButCase(p, provider) && IsBase(name, b) && NoColon(t)
      && id == p + ":" + b + ":" + t + ":" + rest
  }

  lemma TwoParts(p: string, b: string)
    requires NoColon(p) && NoColon(b)
    ensures Split(p + ":" + b) == [p, b]
  {
    SplitJoined(p, b);
    SplitJoined(b, "");
  }

  lemma ThreeParts(p: string, b: string, t: string)
    requires NoColon(p) && NoColon(b) && NoColon(t)
    ensures Split(p + ":" + b + ":" + t) == [p, b, t]
  {
    hide Split, NoColon;
    Associates(p, b, t);
    SplitJoined(p, b + ":" + t);
    TwoParts(b, t);
  }

  lemma FourParts(p: string, b: string, t: string, rest: string)
    requires NoColon(p) && NoColon(b) && NoColon(t)
    ensures Split(p + ":" + b + ":" + t + ":" + rest) == [p, b, t] + Split(rest)
  {
    hide Split, NoColon;
    Associates(p, b, t + ":" + rest);
    Associates(p + ":" + b, t, rest);
    SplitJoined(p, b + ":" + (t + ":" + rest));
    SplitJoined(b, t + ":" + rest);
    SplitJoined(t, rest);
  }

  lemma Associates(a: string, b: string, c: string)
    ensures a + ":" + (b + ":" + c) == a + ":" + b + ":" + c
  {
  }

  /** What an id was joined from. */
  lemma PartsJoined(id: string)
    ensures var parts := Split(id); forall i | 0 <= i < |parts| && i < 3 :: NoColon(parts[i])
    ensures var parts := Split(id);
            && (|parts| == 2 ==> id == parts[0] + ":" + parts[1])
            && (|parts| == 3 ==> id == parts[0] + ":" + parts[1] + ":" + parts[2])
            && (|parts| > 3 ==> exists rest :: id == parts[0] + ":" + parts[1] + ":" + parts[2] + ":" + rest)
  {
    hide Split, NoColon;
    var parts := Split(id);
    JoinSplit(id);
    if |parts| > 1 {
      var rest :| id == parts[0] + ":" + rest && Split(rest) == parts[1..];
      JoinSplit(rest);
      if |parts| > 2 {
        var rest2 :| rest == parts[1] + ":" + rest2 && Split(rest2) == parts[1..][1..];
        JoinSplit(rest2);
        Associates(parts[0], parts[1], rest2);
        if |parts| > 3 {
          var rest3 :| rest2 == parts[2] + ":" + rest3;
          Associates(parts[0] + ":" + parts[1], parts[2], rest3);
        }
      }
    }
  }

  lemma ListsMeans(id: string, provider: string, name: string, tier: string)
    ensures var parts := Split(id);
            Lists(id, provider, name, tier) <==>
              && 2 <= |parts| <= 3 && EqualFold(parts[0], provider) && parts[1] == Base(name)
              && (|parts| == 3 ==> EqualFold(parts[2], tier))
  {
    hide SameButCase, EqualFold, IsBase, Split, Base, NoColon;
    var parts := Split(id);
    if Lists(id, provider, name, tier) {
      var p, b :| ListsAs(id, provider, name, tier, p, b);
      BaseMeans(name, b);
      EqualFoldMeans(p, provider);
      BaseHasNoColon(name, b);
      if id == p + ":" + b {
        TwoParts(p, b);
      } else {
        var t :| NoColon(t) && SameButCase(t, tier) && id == p + ":" + b + ":" + t;
        EqualFoldMeans(t, tier);
        ThreeParts(p, b, t);
      }
    }
    if 2 <= |parts| <= 3 && EqualFold(parts[0], provider) && parts[1] == Base(name)
      && (|parts| == 3 ==> EqualFold(parts[2], tier)) {
      PartsJoined(id);
      EqualFoldMeans(parts[0], provider);
      BaseMeans(name, parts[1]);
      if |parts| == 3 {
        EqualFoldMeans(parts[2], tier);
        assert WithTier(id, parts[0], parts[1], tier);
      }
      assert ListsAs(id, provider, name, tier, parts[0], parts[1]);
    }
  }

  lemma BaseHasNoColon(name: string, base: string)
    requires IsBase(name, base)
    ensures NoColon(base)
  {
  }

  /** The enabled list enables exactly what it lists. */
  lemma ListsModelMeans(enabled: seq<string>, providers: seq<string>, aliases: seq<string>, tier: string)
    ensures ListsModel(enabled, providers, aliases, tier) <==>
      exists id, provider, alias | id in enabled && provider in providers && alias in aliases ::
        Lists(id, provider, alias, tier)
  {
    forall id, provider, alias
      ensures Lists(id, provider, alias, tier) <==>
        var parts := Split(id);
        && 2 <= |parts| <= 3 && EqualFold(parts[0], provider) && parts[1] == Base(alias)
        && (|parts| == 3 ==> EqualFold(parts[2], tier))
    {
      ListsMeans(id, provider, alias, tier);
    }
    hide Lists, Split, EqualFold, Base;
    if ListsModel(enabled, providers, aliases, tier) {
      var id :| id in enabled && 2 <= |Split(id)| <= 3 && (|Split(id)| == 3 ==> EqualFold(Split(id)[2], tier))
        && (exists provider | provider in providers :: EqualFold(Split(id)[0], provider))
        && (exists alias | alias in aliases :: Split(id)[1] == Base(alias));
      var provider :| provider in providers && EqualFold(Split(id)[0], provider);
      var alias :| alias in aliases && Split(id)[1] == Base(alias);
      assert Lists(id, provider, alias, tier);
    }
  }

  /** A policy id matches a query like an id on the list; only an id of four or more parts matches every tier. */
  lemma PolicyIdMatchesMeans(provider: string, aliases: seq<string>, tier: string, policyId: string)
    ensures PolicyIdMatches(provider, aliases, tier, policyId) <==>
      exists alias | alias in aliases ::
        Lists(policyId, provider, alias, tier) || HasFourParts(policyId, provider, alias)
  {
    forall alias
      ensures Lists(policyId, provider, alias, tier) <==>
        var parts := Split(policyId);
        && 2 <= |parts| <= 3 && EqualFold(parts[0], provider) && parts[1] == Base(alias)
        && (|parts| == 3 ==> EqualFold(parts[2], tier))
      ensures HasFourParts(policyId, provider, alias) <==>
        var parts := Split(policyId);
        |parts| > 3 && EqualFold(parts[0], provider) && parts[1] == Base(alias)
    {
      ListsMeans(policyId, provider, alias, tier);
      FourPartsMeans(policyId, provider, alias);
    }
    hide Lists, HasFourParts, Split, EqualFold, Base;
  }

  lemma FourPartsMeans(id: string, provider: string, name: string)
    ensures var parts := Split(id);
            HasFourParts(id, provider, name) <==>
              |parts| > 3 && EqualFold(parts[0], provider) && parts[1] == Base(name)
  {
    hide SameButCase, EqualFold, Split, Base, NoColon, IsBase;
    var parts := Split(id);
    if HasFourParts(id, provider, name) {
      var p, b, t, rest :|
        NoColon(p) && SameButCase(p, provider) && IsBase(name, b) && NoColon(t)
        && id == p + ":" + b + ":" + t + ":" + rest;
      BaseHasNoColon(name, b);
      BaseMeans(name, b);
      EqualFoldMeans(p, provider);
      FourParts(p, b, t, rest);
    }
    if |parts| > 3 && EqualFold(parts[0], provider) && parts[1] == Base(name) {
      PartsJoined(id);
      EqualFoldMeans(parts[0], provider);
      BaseMeans(name, parts[1]);
    }
  }

  /** An id that is listed with another tier lists nothing. */
  lemma OtherTierListsNothing(provider: string, name: string, tier: string, p: string, b: string, t: string)
    requires NoColon(p) && NoColon(b) && NoColon(t) && !SameButCase(t, tier)
    ensures !Lists(p + ":" + b + ":" + t, provider, name, tier)
  {
    ListsMeans(p + ":" + b + ":" + t, provider, name, tier);
    ThreeParts(p, b, t);
    EqualFoldMeans(t, tier);
  }

  /** The tier of an id is its third and last part, if that is one of the three tiers. */
  lemma PolicyIdTierMeans(policyId: string, tier: string)
    requires tier != ""
    ensures PolicyIdTier(policyId) == tier <==>
      tier in {"low", "med", "high"} && exists p, b :: NoColon(p) && NoColon(b) && policyId == p + ":" + b + ":" + tier
  {
    if tier in {"low", "med", "high"} {
      if p, b :| NoColon(p) && NoColon(b) && policyId == p + ":" + b + ":" + tier {
        ThreeParts(p, b, tier);
      }
      if PolicyIdTier(policyId) == tier {
        PartsJoined(policyId);
      }
    }
  }
}
