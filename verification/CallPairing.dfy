/**
 Pairing of hook rows with exec rows in `stats --calls`
 (assembleStatsCalls in cmd/harnez/stats_calls.go).

 A time is its count of nanoseconds; a difference of two times is a Go `time.Duration`, which
 saturates at the limits of int64.
 */
module CallPairing {

  datatype Option<+T> = None | Some(value: T)

  type Time = int

  const MAX_DURATION := 0x7fff_ffff_ffff_ffff
  const MIN_DURATION := -0x8000_0000_0000_0000

  /** `a.Sub(b)`. */
  function Sub(a: Time, b: Time): int {
    if a - b > MAX_DURATION then MAX_DURATION else if a - b < MIN_DURATION then MIN_DURATION else a - b
  }

  datatype ToolCall = ToolCall(createdAt: Time, toolName: string, callType: string, note: string,
                               actualTokens: Option<int>)

  predicate Contains(s: string, part: string) {
    exists i | 0 <= i <= |s| :: part <= s[i..]
  }

  predicate IsExecHook(call: ToolCall) {
    call.callType == "hook:prep" && Contains(call.note, "agy-route=exec")
  }

  predicate IsExecTelemetry(call: ToolCall) {
    call.callType == "shell" || call.callType == "shell-timeout" || call.callType == "shell-expected"
  }

  ghost predicate TimeSorted(tools: seq<ToolCall>) {
    forall i, j | 0 <= i < j < |tools| :: tools[i].createdAt <= tools[j].createdAt
  }

  /** The hook at `i` may be paired with the exec row at `j`. */
  predicate Compatible(tools: seq<ToolCall>, i: nat, j: nat) {
    && i < |tools| && j < |tools|
    && IsExecHook(tools[i]) && IsExecTelemetry(tools[j])
    && tools[i].createdAt <= tools[j].createdAt
    && Sub(tools[j].createdAt, tools[i].createdAt) < MAX_DURATION
  }

  /** A hook row routed to exec, and a shell row that is not earlier and follows it by less than the largest
      Duration. */
  lemma CompatibleMeans(tools: seq<ToolCall>, i: nat, j: nat)
    ensures Compatible(tools, i, j) <==>
      && i < |tools| && j < |tools|
      && tools[i].callType == "hook:prep" && (exists a, b :: tools[i].note == a + "agy-route=exec" + b)
      && tools[j].callType in {"shell", "shell-timeout", "shell-expected"}
      && 0 <= tools[j].createdAt - tools[i].createdAt < 0x7fff_ffff_ffff_ffff
  {
    if i < |tools| {
      ContainsMeans(tools[i].note, "agy-route=exec");
    }
    hide Contains;
  }

  lemma ContainsMeans(s: string, part: string)
    ensures Contains(s, part) <==> exists a, b :: s == a + part + b
  {
    if Contains(s, part) {
      var i :| 0 <= i <= |s| && part <= s[i..];
      assert s == s[..i] + part + s[i + |part|..];
    }
    if a, b :| s == a + part + b {
      assert s[|a|..] == part + b;
    }
  }

  /** Any pairing of hooks with exec rows that uses no row twice. */
  ghost predicate IsMatching(tools: seq<ToolCall>, m: map<nat, nat>) {
    && (forall i | i in m :: Compatible(tools, i, m[i]))
    && (forall i, k | i in m && k in m && i != k :: m[i] != m[k])
  }

  ghost predicate AgreeBelow(m: map<nat, nat>, paired: map<nat, nat>, i: nat) {
    forall k | 0 <= k < i :: (k in m <==> k in paired) && (k in m ==> m[k] == paired[k])
  }

  /** The row the inner loop picks: of the free compatible rows the nearest, and the first among
      the nearest.  The rows are sorted by time, so that is the first free compatible row. */
  ghost predicate IsFirstFree(tools: seq<ToolCall>, used: set<nat>, i: nat, best: nat) {
    && Compatible(tools, i, best) && best !in used
    && (forall j: nat | Compatible(tools, i, j) && j !in used :: best <= j)
  }

  // ----- The greedy choice loses nothing

  lemma MoveKeepsMatching(tools: seq<ToolCall>, m: map<nat, nat>, i: nat, j: nat)
    requires IsMatching(tools, m) && Compatible(tools, i, j)
    requires forall k | k in m && k != i :: m[k] != j
    ensures IsMatching(tools, m[i := j])
  {
    hide Compatible;
  }

  lemma DropKeepsMatching(tools: seq<ToolCall>, m: map<nat, nat>, k: nat)
    requires IsMatching(tools, m) && k in m
    ensures IsMatching(tools, m - {k}) && |m - {k}| == |m| - 1
  {
    hide Compatible;
    assert (m - {k}).Keys == m.Keys - {k};
  }

  /** A later hook can take over a later row of an earlier hook. */
  lemma TakeOver(tools: seq<ToolCall>, i: nat, k: nat, best: nat, row: nat)
    requires TimeSorted(tools) && i < k && Compatible(tools, i, row) && Compatible(tools, k, best)
    requires best <= row
    ensures Compatible(tools, k, row)
  {
    hide IsExecHook, IsExecTelemetry;
  }

  lemma AddKeepsMatching(tools: seq<ToolCall>, m: map<nat, nat>, i: nat, j: nat)
    requires IsMatching(tools, m) && Compatible(tools, i, j) && i !in m
    requires forall k | k in m :: m[k] != j
    ensures IsMatching(tools, m[i := j]) && |m[i := j]| == |m| + 1
  {
    hide Compatible;
    MoveKeepsMatching(tools, m, i, j);
    assert m[i := j].Keys == m.Keys + {i};
    assert |m[i := j].Keys| == |m.Keys| + 1;
  }

  /** Hooks `i` and `k` trade rows. */
  lemma SwapKeepsMatching(tools: seq<ToolCall>, m: map<nat, nat>, i: nat, k: nat)
    requires IsMatching(tools, m) && i in m && k in m && i != k
    requires Compatible(tools, i, m[k]) && Compatible(tools, k, m[i])
    ensures IsMatching(tools, m[i := m[k]][k := m[i]]) && |m[i := m[k]][k := m[i]]| == |m|
  {
    hide Compatible;
    var traded := m[i := m[k]][k := m[i]];
    assert traded.Keys == m.Keys;
    assert |traded.Keys| == |m.Keys|;
  }

  /** A pairing that agrees so far gives hook `i` no row that is already taken. */
  lemma RowOfAgreeing(tools: seq<ToolCall>, n: map<nat, nat>, paired: map<nat, nat>, i: nat)
    requires IsMatching(tools, n) && AgreeBelow(n, paired, i) && (forall k | k in paired :: k < i) && i in n
    ensures n[i] !in paired.Values && Compatible(tools, i, n[i])
  {
    hide Compatible;
  }

  /** Hook `i` takes the row of hook `k`, which then has none. */
  lemma Replaced(tools: seq<ToolCall>, m: map<nat, nat>, k: nat, i: nat, row: nat) returns (better: map<nat, nat>)
    requires IsMatching(tools, m) && k in m && m[k] == row && i !in m && Compatible(tools, i, row)
    ensures IsMatching(tools, better) && |better| == |m| && better == (m - {k})[i := row]
  {
    DropKeepsMatching(tools, m, k);
    assert forall other | other in m - {k} :: m[other] != row;
    hide Compatible;
    AddKeepsMatching(tools, m - {k}, i, row);
    better := (m - {k})[i := row];
  }

  /** The row a hook takes greedily may be exchanged into any pairing that agrees so far. */
  lemma Exchange(tools: seq<ToolCall>, paired: map<nat, nat>, i: nat, best: nat, m: map<nat, nat>)
    returns (better: map<nat, nat>)
    requires TimeSorted(tools) && IsMatching(tools, m)
    requires i < |tools| && AgreeBelow(m, paired, i) && (forall k | k in paired :: k < i)
    requires IsFirstFree(tools, paired.Values, i, best)
    ensures IsMatching(tools, better) && |better| >= |m|
    ensures forall k | 0 <= k < i :: (k in better <==> k in m) && (k in m ==> better[k] == m[k])
    ensures i in better && better[i] == best
  {
    hide Compatible;
    if k :| k in m && m[k] == best {
      if k == i {
        better := m;
      } else if i in m {
        RowOfAgreeing(tools, m, paired, i);
        assert Compatible(tools, i, m[i]);
        TakeOver(tools, i, k, best, m[i]);
        SwapKeepsMatching(tools, m, i, k);
        better := m[i := best][k := m[i]];
      } else {
        better := Replaced(tools, m, k, i, best);
      }
    } else if i in m {
      MoveKeepsMatching(tools, m, i, best);
      better := m[i := best];
      assert better.Keys == m.Keys;
      assert |better.Keys| == |m.Keys|;
    } else {
      AddKeepsMatching(tools, m, i, best);
      better := m[i := best];
    }
  }

  /** `m` can be turned, without loss, into a pairing that agrees with `paired` below `i`. */
  ghost predicate CanAgree(tools: seq<ToolCall>, m: map<nat, nat>, paired: map<nat, nat>, i: nat) {
    exists n :: IsMatching(tools, n) && |n| >= |m| && AgreeBelow(n, paired, i)
  }

  ghost predicate Extendable(tools: seq<ToolCall>, paired: map<nat, nat>, i: nat) {
    forall m {:trigger CanAgree(tools, m, paired, i)} | IsMatching(tools, m) :: CanAgree(tools, m, paired, i)
  }

  lemma ExtendPaired(tools: seq<ToolCall>, paired: map<nat, nat>, i: nat, best: nat)
    requires TimeSorted(tools) && Extendable(tools, paired, i)
    requires i < |tools| && (forall k | k in paired :: k < i) && IsFirstFree(tools, paired.Values, i, best)
    ensures Extendable(tools, paired[i := best], i + 1)
  {
    hide Compatible, IsFirstFree, IsMatching;
    forall m | IsMatching(tools, m)
      ensures CanAgree(tools, m, paired[i := best], i + 1)
    {
      assert CanAgree(tools, m, paired, i);
      var n :| IsMatching(tools, n) && |n| >= |m| && AgreeBelow(n, paired, i);
      var better := Exchange(tools, paired, i, best, n);
      assert AgreeBelow(better, paired[i := best], i + 1);
    }
  }

  lemma ExtendUnpaired(tools: seq<ToolCall>, paired: map<nat, nat>, i: nat)
    requires Extendable(tools, paired, i) && (forall k | k in paired :: k < i)
    requires forall j: nat | Compatible(tools, i, j) :: j in paired.Values
    ensures Extendable(tools, paired, i + 1)
  {
    hide Compatible;
    forall m | IsMatching(tools, m)
      ensures CanAgree(tools, m, paired, i + 1)
    {
      assert CanAgree(tools, m, paired, i);
      var n :| IsMatching(tools, n) && |n| >= |m| && AgreeBelow(n, paired, i);
      if i in n {
        RowOfAgreeing(tools, n, paired, i);
      }
      assert AgreeBelow(n, paired, i + 1);
    }
  }

  /** A pairing below the end of the rows that every pairing can be turned into is the largest. */
  lemma ExtendableIsMaximum(tools: seq<ToolCall>, paired: map<nat, nat>)
    requires Extendable(tools, paired, |tools|) && IsMatching(tools, paired)
    ensures forall m | IsMatching(tools, m) :: |m| <= |paired|
  {
    hide Compatible;
    forall m | IsMatching(tools, m)
      ensures |m| <= |paired|
    {
      assert CanAgree(tools, m, paired, |tools|);
      var n :| IsMatching(tools, n) && |n| >= |m| && AgreeBelow(n, paired, |tools|);
      AgreeEverywhere(tools, n, paired);
    }
  }

  lemma AgreeEverywhere(tools: seq<ToolCall>, n: map<nat, nat>, paired: map<nat, nat>)
    requires IsMatching(tools, n) && IsMatching(tools, paired) && AgreeBelow(n, paired, |tools|)
    ensures n == paired
  {
    hide IsExecHook, IsExecTelemetry;
    forall k: nat
      ensures (k in n <==> k in paired) && (k in n ==> n[k] == paired[k])
    {
      if k in n {
        assert Compatible(tools, k, n[k]);
      }
      if k in paired {
        assert Compatible(tools, k, paired[k]);
      }
    }
  }

  /** Hooks and the rows they are paired with come in the same order. */
  ghost predicate OrderPreserving(m: map<nat, nat>) {
    forall i, k | i in m && k in m && i < k :: m[i] < m[k]
  }

  /** No hook has left an earlier row free than the one it took. */
  ghost predicate TookFirst(tools: seq<ToolCall>, paired: map<nat, nat>) {
    forall k, j: nat | k in paired && Compatible(tools, k, j) && j !in paired.Values :: paired[k] < j
  }

  lemma PairedInOrder(tools: seq<ToolCall>, paired: map<nat, nat>, i: nat, best: nat)
    requires TimeSorted(tools) && IsMatching(tools, paired) && OrderPreserving(paired) && TookFirst(tools, paired)
    requires (forall k | k in paired :: k < i) && IsFirstFree(tools, paired.Values, i, best)
    ensures IsMatching(tools, paired[i := best])
      && OrderPreserving(paired[i := best]) && TookFirst(tools, paired[i := best])
    ensures paired[i := best].Values == paired.Values + {best}
  {
    hide Compatible;
    var next := paired[i := best];
    ValuesOfExtension(paired, i, best);
    assert forall k | k in paired :: paired[k] in paired.Values;
    MoveKeepsMatching(tools, paired, i, best);
    forall k | k in paired
      ensures paired[k] < best
    {
      LaterFreeRow(tools, paired, k, i, best);
    }
  }

  lemma LaterFreeRow(tools: seq<ToolCall>, paired: map<nat, nat>, k: nat, i: nat, best: nat)
    requires TimeSorted(tools) && IsMatching(tools, paired) && TookFirst(tools, paired)
    requires k in paired && k < i && Compatible(tools, i, best) && best !in paired.Values
    ensures paired[k] < best
  {
    hide IsExecHook, IsExecTelemetry;
    assert Compatible(tools, k, paired[k]);
    if !Compatible(tools, k, best) {
      // out of the reach of hook k, so later than its row
      assert tools[k].createdAt <= tools[i].createdAt;
      assert Sub(tools[best].createdAt, tools[k].createdAt) == MAX_DURATION;
      assert tools[paired[k]].createdAt < tools[best].createdAt;
    }
  }

  lemma ValuesOfExtension(m: map<nat, nat>, i: nat, j: nat)
    requires i !in m
    ensures m[i := j].Values == m.Values + {j}
  {
    var next := m[i := j];
    forall v | v in m.Values + {j}
      ensures v in next.Values
    {
      if v in m.Values {
        var k :| k in m && m[k] == v;
        assert next[k] == v;
      } else {
        assert next[i] == v;
      }
    }
  }

  method FindNearest(tools: seq<ToolCall>, used: set<nat>, i: nat) returns (best: int)
    requires i < |tools| && IsExecHook(tools[i]) && TimeSorted(tools)
    ensures best >= 0 ==> IsFirstFree(tools, used, i, best)
    ensures best < 0 ==> forall j: nat | Compatible(tools, i, j) :: j in used
  {
    hide IsExecHook, IsExecTelemetry;
    var hook := tools[i];
    var distance := MAX_DURATION;
    best := -1;
    for j := 0 to |tools|
      invariant best < j
      invariant best < 0 ==> distance == MAX_DURATION && forall k: nat | k < j && Compatible(tools, i, k) :: k in used
      invariant best >= 0 ==>
        && Compatible(tools, i, best) && best !in used && distance == Sub(tools[best].createdAt, hook.createdAt)
        && forall k: nat | k < j && Compatible(tools, i, k) && k !in used :: best <= k
    {
      var execRow := tools[j];
      if j in used || !IsExecTelemetry(execRow) || execRow.createdAt < hook.createdAt {
        continue;
      }
      var d := Sub(execRow.createdAt, hook.createdAt);
      if d < distance {
        best, distance := j, d;
      }
    }
  }

  /** The greedy pairing: hooks in time order, each with the nearest free exec row. */
  method PairHooks(tools: seq<ToolCall>) returns (paired: map<nat, nat>)
    requires TimeSorted(tools)
    ensures IsMatching(tools, paired)
    ensures forall m | IsMatching(tools, m) :: |m| <= |paired|
    ensures OrderPreserving(paired)
  {
    hide IsMatching, Extendable, OrderPreserving, TookFirst, IsExecHook, IsExecTelemetry;
    paired := map[];
    var usedExec: set<nat> := {};
    NothingPairedYet(tools);
    for i := 0 to |tools|
      invariant usedExec == paired.Values
      invariant forall k | k in paired :: k < i
      invariant IsMatching(tools, paired) && Extendable(tools, paired, i)
      invariant OrderPreserving(paired) && TookFirst(tools, paired)
    {
      if !IsExecHook(tools[i]) {
        ExtendUnpaired(tools, paired, i);
        continue;
      }
      var best := FindNearest(tools, usedExec, i);
      if best >= 0 {
        ExtendPaired(tools, paired, i, best);
        PairedInOrder(tools, paired, i, best);
        paired := paired[i := best];
        usedExec := usedExec + {best};
      } else {
        ExtendUnpaired(tools, paired, i);
      }
    }
    ExtendableIsMaximum(tools, paired);
  }

  lemma NothingPairedYet(tools: seq<ToolCall>)
    ensures IsMatching(tools, map[]) && Extendable(tools, map[], 0)
    ensures OrderPreserving(map[]) && TookFirst(tools, map[])
  {
    forall m | IsMatching(tools, m)
      ensures CanAgree(tools, m, map[], 0)
    {
      assert AgreeBelow(m, map[], 0);
    }
  }
}
