/** A stable sort by a `less` function, as `sort.SliceStable` promises it. */
module StableSort {

  ghost predicate StrictWeakOrder<T(!new)>(before: (T, T) -> bool) {
    && (forall a, b :: before(a, b) ==> !before(b, a))
    && (forall a, b, c :: before(a, c) ==> before(a, b) || before(b, c))
  }

  ghost predicate Sorted<T>(xs: seq<T>, before: (T, T) -> bool) {
    forall i, j | 0 <= i < j < |xs| :: !before(xs[j], xs[i])
  }

  function Insert<T>(xs: seq<T>, x: T, before: (T, T) -> bool): seq<T> {
    if xs != [] && before(x, xs[|xs| - 1]) then Insert(xs[..|xs| - 1], x, before) + [xs[|xs| - 1]] else xs + [x]
  }

  function Sort<T>(xs: seq<T>, before: (T, T) -> bool): seq<T> {
    if xs == [] then [] else Insert(Sort(xs[..|xs| - 1], before), xs[|xs| - 1], before)
  }

  lemma {:induction false} InsertPermutes<T>(xs: seq<T>, x: T, before: (T, T) -> bool)
    ensures multiset(Insert(xs, x, before)) == multiset(xs) + multiset{x}
    ensures |Insert(xs, x, before)| == |xs| + 1
  {
    if xs != [] && before(x, xs[|xs| - 1]) {
      var init, last := xs[..|xs| - 1], xs[|xs| - 1];
      assert xs == init + [last];
      InsertPermutes(init, x, before);
    }
  }

  lemma {:induction false} InsertSorted<T(!new)>(xs: seq<T>, x: T, before: (T, T) -> bool)
    requires StrictWeakOrder(before) && Sorted(xs, before)
    ensures Sorted(Insert(xs, x, before), before)
  {
    if xs != [] && before(x, xs[|xs| - 1]) {
      var init, last := xs[..|xs| - 1], xs[|xs| - 1];
      InsertSorted(init, x, before);
      InsertPermutes(init, x, before);
      NothingAfter(init, x, last, Insert(init, x, before), before);
    } else {
      forall i | 0 <= i < |xs|
        ensures !before(x, xs[i])
      {
        var last := xs[|xs| - 1];
        assert i < |xs| - 1 ==> !before(last, xs[i]);
      }
    }
  }

  lemma NothingAfter<T>(init: seq<T>, x: T, last: T, ys: seq<T>, before: (T, T) -> bool)
    requires multiset(ys) == multiset(init) + multiset{x}
    requires !before(last, x) && forall i | 0 <= i < |init| :: !before(last, init[i])
    ensures forall i | 0 <= i < |ys| :: !before(last, ys[i])
  {
    forall i | 0 <= i < |ys|
      ensures !before(last, ys[i])
    {
      assert ys[i] in multiset(ys);
      assert ys[i] in init || ys[i] == x;
    }
  }

  lemma {:induction false} SortSorts<T(!new)>(xs: seq<T>, before: (T, T) -> bool)
    requires StrictWeakOrder(before)
    ensures Sorted(Sort(xs, before), before)
    ensures multiset(Sort(xs, before)) == multiset(xs) && |Sort(xs, before)| == |xs|
  {
    if xs != [] {
      SortSorts(xs[..|xs| - 1], before);
      InsertSorted(Sort(xs[..|xs| - 1], before), xs[|xs| - 1], before);
      InsertPermutes(Sort(xs[..|xs| - 1], before), xs[|xs| - 1], before);
      assert xs == xs[..|xs| - 1] + [xs[|xs| - 1]];
    }
  }

  /** The elements that `before` does not tell apart from `x`, in order. */
  function Tied<T>(xs: seq<T>, x: T, before: (T, T) -> bool): seq<T> {
    if xs == [] then []
    else
      var last := xs[|xs| - 1];
      Tied(xs[..|xs| - 1], x, before) + if before(x, last) || before(last, x) then [] else [last]
  }

  lemma {:induction false} InsertStable<T(!new)>(xs: seq<T>, y: T, x: T, before: (T, T) -> bool)
    requires StrictWeakOrder(before)
    ensures Tied(Insert(xs, y, before), x, before) == Tied(xs + [y], x, before)
  {
    assert (xs + [y])[..|xs|] == xs;
    if xs != [] && before(y, xs[|xs| - 1]) {
      var init, last := xs[..|xs| - 1], xs[|xs| - 1];
      InsertStable(init, y, x, before);
      var ys := Insert(init, y, before);
      assert (ys + [last])[..|ys|] == ys;
      assert (init + [y])[..|init|] == init;
      assert before(y, last) ==> before(y, x) || before(x, last);
    }
  }

  /** Elements that compare equal keep their order. */
  lemma {:induction false} SortStable<T(!new)>(xs: seq<T>, x: T, before: (T, T) -> bool)
    requires StrictWeakOrder(before)
    ensures Tied(Sort(xs, before), x, before) == Tied(xs, x, before)
  {
    if xs != [] {
      var init, last := xs[..|xs| - 1], xs[|xs| - 1];
      SortStable(init, x, before);
      InsertStable(Sort(init, before), last, x, before);
      var sorted := Sort(init, before) + [last];
      assert sorted[..|sorted| - 1] == Sort(init, before);
    }
  }
}

/**
 The report of `harnez stats --calls`: one row per model request and tool call, and the totals
 of every prompt (assembleStatsCalls and nearestPrompt in cmd/harnez/stats_calls.go).
 Token counts are mathematical integers.
 */
module CallReport {
  import opened CallPairing
  import opened StableSort

  datatype Usage = Usage(time: Time, promptId: string, model: string, prompt: int, cached: int, candidates: int,
                         thoughts: int, total: int)

  datatype Row = Row(
    time: Time, kind: string, promptId: string, model: string,
    promptTokens: int, cachedTokens: int, candidateTokens: int, thoughtTokens: int, totalTokens: int,
    tool: string, callType: string, toolTokens: Option<int>, sources: string)

  /** "Prompt n" and the local time of its first request. */
  datatype Label = NoLabel | Label(n: nat, at: Time)

  datatype PromptTotal = PromptTotal(
    promptId: string, title: Label, requests: int,
    promptTokens: int, cachedTokens: int, candidateTokens: int, thoughtTokens: int, totalTokens: int, toolCalls: int)

  datatype Report = Report(session: string, rows: seq<Row>, prompts: seq<PromptTotal>)

  function ModelRow(u: Usage): Row {
    Row(u.time, "model", u.promptId, u.model, u.prompt, u.cached, u.candidates, u.thoughts, u.total, "", "", None, "")
  }

  function ToolRow(call: ToolCall, hooked: bool, promptId: string): Row {
    Row(call.createdAt, "tool", promptId, "", 0, 0, 0, 0, 0, call.toolName, call.callType, call.actualTokens,
        if hooked then "hook+exec" else "telemetry")
  }

  // ----- The nearest prompt

  /** `d` made positive the way the code does it: the smallest int64 has no positive twin. */
  function Magnitude(d: int): int {
    if d < 0 && d != MIN_DURATION then -d else d
  }

  function Distance(at: Time, u: Usage): int {
    Magnitude(Sub(at, u.time))
  }

  /** The prompt of the nearest request so far and its distance. */
  function Nearest(at: Time, usages: seq<Usage>): (string, int) {
    if usages == [] then ("", MAX_DURATION)
    else
      var (best, delta) := Nearest(at, usages[..|usages| - 1]);
      var u := usages[|usages| - 1];
      if Distance(at, u) < delta then (u.promptId, Distance(at, u)) else (best, delta)
  }

  method NearestPrompt(at: Time, usages: seq<Usage>) returns (best: string)
    ensures best == Nearest(at, usages).0
  {
    best := "";
    var delta := MAX_DURATION;
    for i := 0 to |usages|
      invariant (best, delta) == Nearest(at, usages[..i])
    {
      assert usages[..i + 1][..i] == usages[..i];
      var d := Sub(at, usages[i].time);
      if d < 0 && d != MIN_DURATION {
        d := -d;
      }
      if d < delta {
        delta, best := d, usages[i].promptId;
      }
    }
    assert usages[..|usages|] == usages;
  }

  function Gap(at: Time, u: Usage): nat {
    if at < u.time then u.time - at else at - u.time
  }

  /** Request `k` is nearest to `at`, and the first of the nearest. */
  ghost predicate FirstNearest(at: Time, usages: seq<Usage>, k: nat) {
    && k < |usages|
    && (forall j | 0 <= j < |usages| :: Gap(at, usages[k]) <= Gap(at, usages[j]))
    && (forall j | 0 <= j < k :: Gap(at, usages[k]) < Gap(at, usages[j]))
  }

  /** The request the scan ends with, if any. */
  function Scanned(at: Time, usages: seq<Usage>): (r: Option<nat>)
    ensures r.Some? ==> r.value < |usages|
  {
    if usages == [] then None
    else
      var init := usages[..|usages| - 1];
      if Distance(at, usages[|usages| - 1]) < Nearest(at, init).1 then Some(|usages| - 1) else Scanned(at, init)
  }

  /** A request so far after `at` that the difference saturates and stays negative when it is negated. */
  predicate Wraps(at: Time, u: Usage) {
    at - u.time <= MIN_DURATION
  }

  /** Of the distances as computed, the scan keeps the smallest below the largest Duration, and the first
      of those. */
  lemma {:induction false} ScannedIsFirst(at: Time, usages: seq<Usage>)
    ensures var (best, delta) := Nearest(at, usages);
            match Scanned(at, usages)
            case None => best == "" && delta == MAX_DURATION && forall j | 0 <= j < |usages| ::
              Distance(at, usages[j]) >= MAX_DURATION
            case Some(k) =>
              && best == usages[k].promptId && delta == Distance(at, usages[k]) < MAX_DURATION
              && (forall j | 0 <= j < |usages| :: delta <= Distance(at, usages[j]))
              && (forall j | 0 <= j < k :: delta < Distance(at, usages[j]))
  {
    if usages != [] {
      ScannedIsFirst(at, usages[..|usages| - 1]);
    }
  }

  predicate SomeInRange(at: Time, usages: seq<Usage>) {
    exists u | u in usages :: Gap(at, u) < MAX_DURATION
  }

  /** The nearest request lies after `at`, out of the range of a Duration, and no request before it does. */
  ghost predicate FirstWrappedIsNearest(at: Time, usages: seq<Usage>) {
    exists k: nat ::
      FirstNearest(at, usages, k) && Wraps(at, usages[k]) && forall j | 0 <= j < k :: !Wraps(at, usages[j])
  }

  /** The scan ends with the first of the nearest requests exactly when, some request being in range, none
      wraps; with no request in range, exactly when the first that wraps happens to be that one. */
  lemma NearestIsNearest(at: Time, usages: seq<Usage>)
    ensures Scanned(at, usages).Some? ==> Nearest(at, usages).0 == usages[Scanned(at, usages).value].promptId
    ensures (Scanned(at, usages).Some? && FirstNearest(at, usages, Scanned(at, usages).value))
       <==> if SomeInRange(at, usages) then forall u | u in usages :: !Wraps(at, u)
            else FirstWrappedIsNearest(at, usages)
  {
    ScannedIsFirst(at, usages);
    hide Nearest, Scanned, FirstNearest, Wraps, FirstWrappedIsNearest;
    if SomeInRange(at, usages) {
      InRange(at, usages);
    } else {
      hide SomeInRange;
      OutOfRange(at, usages);
    }
  }

  /** The distance as computed: exact in range, else one of the two ends of the range. */
  lemma DistanceByRange(at: Time, u: Usage)
    ensures Distance(at, u) == if Wraps(at, u) then MIN_DURATION
      else if Gap(at, u) < MAX_DURATION then Gap(at, u) else MAX_DURATION
    ensures Wraps(at, u) ==> Gap(at, u) > MAX_DURATION
  {
  }

  lemma InRange(at: Time, usages: seq<Usage>)
    requires SomeInRange(at, usages)
    ensures (Scanned(at, usages).Some? && FirstNearest(at, usages, Scanned(at, usages).value))
       <==> forall u | u in usages :: !Wraps(at, u)
  {
    ScannedIsFirst(at, usages);
    hide Nearest, Scanned;
    var u :| u in usages && Gap(at, u) < MAX_DURATION;
    var i :| 0 <= i < |usages| && usages[i] == u;
    DistanceByRange(at, u);
    var k := Scanned(at, usages).value;
    DistanceByRange(at, usages[k]);
    if v :| v in usages && Wraps(at, v) {
      var j :| 0 <= j < |usages| && usages[j] == v;
      DistanceByRange(at, v);
      assert Wraps(at, usages[k]) && !FirstNearest(at, usages, k);
    } else {
      forall j | 0 <= j < |usages|
        ensures Distance(at, usages[j]) <= Gap(at, usages[j])
      {
        DistanceByRange(at, usages[j]);
        assert usages[j] in usages;
      }
      hide Distance, Gap, Wraps;
      assert FirstNearest(at, usages, k);
    }
  }

  lemma OutOfRange(at: Time, usages: seq<Usage>)
    requires !SomeInRange(at, usages)
    ensures (Scanned(at, usages).Some? && FirstNearest(at, usages, Scanned(at, usages).value))
       <==> FirstWrappedIsNearest(at, usages)
  {
    ScannedIsFirst(at, usages);
    hide Nearest, Scanned;
    forall j | 0 <= j < |usages|
      ensures Distance(at, usages[j]) == if Wraps(at, usages[j]) then MIN_DURATION else MAX_DURATION
    {
      hide FirstWrappedIsNearest, FirstNearest;
      DistanceByRange(at, usages[j]);
      assert usages[j] in usages;
    }
    hide Distance, Gap, Wraps, SomeInRange;
    if FirstWrappedIsNearest(at, usages) {
      var k: nat :| FirstNearest(at, usages, k) && Wraps(at, usages[k]) && forall j | 0 <= j < k ::
        !Wraps(at, usages[j]);
      assert Scanned(at, usages) == Some(k);
    }
  }

  /** A request further back than a Duration can express wraps to the smallest distance of all. */
  lemma NearestWraps(at: Time)
    ensures var far := Usage(at + 0x1_0000_0000_0000_0000, "far", "", 0, 0, 0, 0, 0);
            Nearest(at, [Usage(at, "now", "", 0, 0, 0, 0, 0), far]).0 == "far"
  {
    var now := Usage(at, "now", "", 0, 0, 0, 0, 0);
    var far := Usage(at + 0x1_0000_0000_0000_0000, "far", "", 0, 0, 0, 0, 0);
    assert [now, far][..1] == [now];
    assert [now][..0] == [];
    assert Nearest(at, []) == ("", MAX_DURATION);
    assert Nearest(at, [now]) == ("now", 0);
  }

  lemma {:induction false} NearestIsKnown(at: Time, usages: seq<Usage>)
    ensures Nearest(at, usages).0 == "" || exists u | u in usages :: u.promptId == Nearest(at, usages).0
  {
    if usages != [] {
      NearestIsKnown(at, usages[..|usages| - 1]);
    }
  }

  // ----- What the report is made of

  function ModelRows(usages: seq<Usage>): seq<Row> {
    seq(|usages|, i requires 0 <= i < |usages| => ModelRow(usages[i]))
  }

  /** One row for every tool call up to `n` but the paired hooks. */
  function ToolRows(order: seq<ToolCall>, paired: map<nat, nat>, usages: seq<Usage>, n: nat): seq<Row>
    requires n <= |order|
  {
    if n == 0 then []
    else
      var init := ToolRows(order, paired, usages, n - 1);
      var call := order[n - 1];
      if n - 1 in paired then init
      else init + [ToolRow(call, n - 1 in paired.Values, Nearest(call.createdAt, usages).0)]
  }

  lemma {:induction false} CountToolRows(order: seq<ToolCall>, paired: map<nat, nat>, usages: seq<Usage>, n: nat)
    requires n <= |order|
    ensures |ToolRows(order, paired, usages, n)| == n - |(set k | k in paired && k < n)|
  {
    var earlier := set k | k in paired && k < n;
    if n == 0 {
      assert earlier == {};
    } else {
      CountToolRows(order, paired, usages, n - 1);
      var before := set k | k in paired && k < n - 1;
      if n - 1 in paired {
        assert earlier == before + {n - 1};
      } else {
        assert earlier == before;
      }
    }
  }

  /** The totals of one prompt over its meter rows; tool calls are counted separately. */
  function TotalOf(usages: seq<Usage>, id: string): PromptTotal {
    if usages == [] then NoTotal(id)
    else
      var t := TotalOf(usages[..|usages| - 1], id);
      var u := usages[|usages| - 1];
      if u.promptId == id then AddUsage(t, u) else t
  }

  function NoTotal(id: string): PromptTotal {
    PromptTotal(id, NoLabel, 0, 0, 0, 0, 0, 0, 0)
  }

  function AddUsage(t: PromptTotal, u: Usage): PromptTotal {
    t.(requests := t.requests + 1, promptTokens := t.promptTokens + u.prompt, cachedTokens := t.cachedTokens + u.cached,
       candidateTokens := t.candidateTokens + u.candidates, thoughtTokens := t.thoughtTokens + u.thoughts,
       totalTokens := t.totalTokens + u.total)
  }

  // ----- Sums of single columns

  /** The sum of one column over the meter rows of a prompt. */
  ghost function SumOver(usages: seq<Usage>, id: string, column: Usage -> int): int {
    if usages == [] then 0
    else
      var last := usages[|usages| - 1];
      SumOver(usages[..|usages| - 1], id, column) + if last.promptId == id then column(last) else 0
  }

  /** The same over the model rows of a report. */
  ghost function SumOfRows(rows: seq<Row>, id: string, column: Row -> int): int {
    if rows == [] then 0
    else SumOfRows(rows[..|rows| - 1], id, column) + RowPart(rows[|rows| - 1], id, column)
  }

  ghost function RowPart(row: Row, id: string, column: Row -> int): int {
    if row.kind == "model" && row.promptId == id then column(row) else 0
  }

  /** Every column of a prompt's totals is the sum of that column of the meter. */
  ghost predicate SumsOfMeter(p: PromptTotal, usages: seq<Usage>) {
    && p.requests == SumOver(usages, p.promptId, (u: Usage) => 1)
    && p.promptTokens == SumOver(usages, p.promptId, (u: Usage) => u.prompt)
    && p.cachedTokens == SumOver(usages, p.promptId, (u: Usage) => u.cached)
    && p.candidateTokens == SumOver(usages, p.promptId, (u: Usage) => u.candidates)
    && p.thoughtTokens == SumOver(usages, p.promptId, (u: Usage) => u.thoughts)
    && p.totalTokens == SumOver(usages, p.promptId, (u: Usage) => u.total)
  }

  /** And the sum of that column of the report's own rows. */
  ghost predicate SumsOfRows(p: PromptTotal, rows: seq<Row>) {
    && p.requests == SumOfRows(rows, p.promptId, (r: Row) => 1)
    && p.promptTokens == SumOfRows(rows, p.promptId, (r: Row) => r.promptTokens)
    && p.cachedTokens == SumOfRows(rows, p.promptId, (r: Row) => r.cachedTokens)
    && p.candidateTokens == SumOfRows(rows, p.promptId, (r: Row) => r.candidateTokens)
    && p.thoughtTokens == SumOfRows(rows, p.promptId, (r: Row) => r.thoughtTokens)
    && p.totalTokens == SumOfRows(rows, p.promptId, (r: Row) => r.totalTokens)
  }

  lemma {:induction false} TotalsAreSums(usages: seq<Usage>, id: string)
    ensures TotalOf(usages, id).promptId == id && SumsOfMeter(TotalOf(usages, id), usages)
  {
    if usages != [] {
      TotalsAreSums(usages[..|usages| - 1], id);
    }
  }

  lemma {:induction false} AppendedRows(a: seq<Row>, b: seq<Row>, id: string, column: Row -> int)
    ensures SumOfRows(a + b, id, column) == SumOfRows(a, id, column) + SumOfRows(b, id, column)
  {
    if b == [] {
      assert a + b == a;
    } else {
      var init := b[..|b| - 1];
      assert (a + b)[..|a + b| - 1] == a + init;
      AppendedRows(a, init, id, column);
    }
  }

  lemma {:induction false} InsertedRow(rows: seq<Row>, row: Row, id: string, column: Row -> int)
    ensures SumOfRows(Insert(rows, row, Earlier), id, column) ==
            SumOfRows(rows, id, column) + RowPart(row, id, column)
  {
    hide RowPart, Earlier;
    if rows != [] && Earlier(row, rows[|rows| - 1]) {
      var init, last := rows[..|rows| - 1], rows[|rows| - 1];
      InsertedRow(init, row, id, column);
      var inserted := Insert(init, row, Earlier);
      assert (inserted + [last])[..|inserted|] == inserted;
    } else {
      assert (rows + [row])[..|rows|] == rows;
    }
  }

  lemma {:induction false} SortedRows(rows: seq<Row>, id: string, column: Row -> int)
    ensures SumOfRows(Sort(rows, Earlier), id, column) == SumOfRows(rows, id, column)
  {
    if rows != [] {
      SortedRows(rows[..|rows| - 1], id, column);
      InsertedRow(Sort(rows[..|rows| - 1], Earlier), rows[|rows| - 1], id, column);
    }
  }

  lemma {:induction false} ToolRowsAddNothing(order: seq<ToolCall>, paired: map<nat, nat>, usages: seq<Usage>, n: nat,
                                              id: string, column: Row -> int)
    requires n <= |order|
    ensures SumOfRows(ToolRows(order, paired, usages, n), id, column) == 0
  {
    if n > 0 {
      ToolRowsAddNothing(order, paired, usages, n - 1, id, column);
      var init := ToolRows(order, paired, usages, n - 1);
      if n - 1 !in paired {
        var rows := ToolRows(order, paired, usages, n);
        assert rows[..|rows| - 1] == init && rows[|rows| - 1].kind == "tool";
      }
    }
  }

  /** A column of the model rows sums up to a column of the meter. */
  lemma {:induction false} ModelRowsSum(usages: seq<Usage>, id: string, column: Row -> int, meter: Usage -> int)
    requires forall u | u in usages :: column(ModelRow(u)) == meter(u)
    ensures SumOfRows(ModelRows(usages), id, column) == SumOver(usages, id, meter)
  {
    if usages != [] {
      var init, last := usages[..|usages| - 1], usages[|usages| - 1];
      ModelRowsSum(init, id, column, meter);
      assert ModelRows(usages)[..|usages| - 1] == ModelRows(init);
      assert last in usages;
    }
  }

  lemma ReportRowsSum(order: seq<ToolCall>, paired: map<nat, nat>, usages: seq<Usage>, id: string,
                      column: Row -> int, meter: Usage -> int)
    requires forall u | u in usages :: column(ModelRow(u)) == meter(u)
    ensures var rows := Sort(ModelRows(usages) + ToolRows(order, paired, usages, |order|), Earlier);
            SumOfRows(rows, id, column) == SumOver(usages, id, meter)
  {
    hide SumOfRows, SumOver, ToolRows, Sort, ModelRows;
    var toolRows := ToolRows(order, paired, usages, |order|);
    SortedRows(ModelRows(usages) + toolRows, id, column);
    AppendedRows(ModelRows(usages), toolRows, id, column);
    ToolRowsAddNothing(order, paired, usages, |order|, id, column);
    ModelRowsSum(usages, id, column, meter);
  }

  /** The rows of the report carry the sums of the meter, column by column. */
  lemma RowsCarrySums(order: seq<ToolCall>, paired: map<nat, nat>, usages: seq<Usage>, p: PromptTotal)
    requires SumsOfMeter(p, usages)
    ensures SumsOfRows(p, Sort(ModelRows(usages) + ToolRows(order, paired, usages, |order|), Earlier))
  {
    hide SumOfRows, SumOver, ToolRows, Sort, ModelRows;
    ReportRowsSum(order, paired, usages, p.promptId, (r: Row) => 1, (u: Usage) => 1);
    ReportRowsSum(order, paired, usages, p.promptId, (r: Row) => r.promptTokens, (u: Usage) => u.prompt);
    ReportRowsSum(order, paired, usages, p.promptId, (r: Row) => r.cachedTokens, (u: Usage) => u.cached);
    ReportRowsSum(order, paired, usages, p.promptId, (r: Row) => r.candidateTokens, (u: Usage) => u.candidates);
    ReportRowsSum(order, paired, usages, p.promptId, (r: Row) => r.thoughtTokens, (u: Usage) => u.thoughts);
    ReportRowsSum(order, paired, usages, p.promptId, (r: Row) => r.totalTokens, (u: Usage) => u.total);
  }

  function PromptIds(usages: seq<Usage>): set<string> {
    set u | u in usages && u.promptId != "" :: u.promptId
  }

  predicate IsEarliest(usages: seq<Usage>, id: string, t: Time) {
    && (exists u | u in usages :: u.promptId == id && u.time == t)
    && (forall u | u in usages && u.promptId == id :: t <= u.time)
  }

  function CountRows(rows: seq<Row>, id: string): nat {
    if rows == [] then 0
    else CountRows(rows[..|rows| - 1], id) + if rows[|rows| - 1].promptId == id then 1 else 0
  }

  function CountWithPrompt(rows: seq<Row>): nat {
    if rows == [] then 0
    else CountWithPrompt(rows[..|rows| - 1]) + if rows[|rows| - 1].promptId != "" then 1 else 0
  }

  function SumToolCalls(prompts: seq<PromptTotal>): int {
    if prompts == [] then 0 else SumToolCalls(prompts[..|prompts| - 1]) + prompts[|prompts| - 1].toolCalls
  }

  predicate DistinctIds(prompts: seq<PromptTotal>) {
    forall i, j | 0 <= i < j < |prompts| :: prompts[i].promptId != prompts[j].promptId
  }

  /** Counting the rows prompt by prompt is counting them all. */
  function SumCounts(prompts: seq<PromptTotal>, rows: seq<Row>): nat {
    if prompts == [] then 0
    else SumCounts(prompts[..|prompts| - 1], rows) + CountRows(rows, prompts[|prompts| - 1].promptId)
  }

  lemma {:induction false} SumCountsAdd(prompts: seq<PromptTotal>, rows: seq<Row>, row: Row)
    requires DistinctIds(prompts)
    ensures SumCounts(prompts, rows + [row]) ==
            SumCounts(prompts, rows) + if exists p | p in prompts :: p.promptId == row.promptId then 1 else 0
  {
    if prompts != [] {
      var init, last := prompts[..|prompts| - 1], prompts[|prompts| - 1];
      assert forall p | p in prompts :: p in init || p == last;
      assert forall p | p in init :: p.promptId != last.promptId;
      assert (rows + [row])[..|rows|] == rows;
      SumCountsAdd(init, rows, row);
    }
  }

  lemma {:induction false} SumCountsIsAll(prompts: seq<PromptTotal>, rows: seq<Row>)
    requires DistinctIds(prompts) && (forall p | p in prompts :: p.promptId != "")
    requires forall r | r in rows && r.promptId != "" :: exists p | p in prompts :: p.promptId == r.promptId
    ensures SumCounts(prompts, rows) == CountWithPrompt(rows)
  {
    if rows == [] {
      SumCountsOfNone(prompts);
    } else {
      var init, last := rows[..|rows| - 1], rows[|rows| - 1];
      assert rows == init + [last];
      SumCountsIsAll(prompts, init);
      SumCountsAdd(prompts, init, last);
    }
  }

  lemma {:induction false} SumCountsOfNone(prompts: seq<PromptTotal>)
    ensures SumCounts(prompts, []) == 0
  {
    if prompts != [] {
      SumCountsOfNone(prompts[..|prompts| - 1]);
    }
  }

  lemma {:induction false} SumToolCallsIsSumCounts(prompts: seq<PromptTotal>, rows: seq<Row>)
    requires forall p | p in prompts :: p.toolCalls == CountRows(rows, p.promptId)
    ensures SumToolCalls(prompts) == SumCounts(prompts, rows)
  {
    if prompts != [] {
      SumToolCallsIsSumCounts(prompts[..|prompts| - 1], rows);
    }
  }

  // ----- Orders

  predicate Earlier(a: Row, b: Row) {
    a.time < b.time
  }

  predicate CreatedEarlier(a: ToolCall, b: ToolCall) {
    a.createdAt < b.createdAt
  }

  /** Go's `<` on strings; on UTF-8 it is the order of code points. */
  predicate LexLess(a: string, b: string) {
    b != [] && (a == [] || a[0] < b[0] || (a[0] == b[0] && LexLess(a[1..], b[1..])))
  }

  lemma {:induction false} LexLessOrders(a: string, b: string, c: string)
    ensures LexLess(a, b) ==> !LexLess(b, a)
    ensures LexLess(a, c) ==> LexLess(a, b) || LexLess(b, c)
    ensures !LexLess(a, b) && !LexLess(b, a) ==> a == b
  {
    if a != [] && b != [] {
      if c != [] {
        LexLessOrders(a[1..], b[1..], c[1..]);
      } else {
        LexLessOrders(a[1..], b[1..], []);
      }
      assert a == [a[0]] + a[1..] && b == [b[0]] + b[1..];
    }
  }

  /** Prompts by their first request, then by id. */
  predicate PromptLess(firstSeen: map<string, Time>, a: PromptTotal, b: PromptTotal) {
    var left := if a.promptId in firstSeen then firstSeen[a.promptId] else 0;
    var right := if b.promptId in firstSeen then firstSeen[b.promptId] else 0;
    if left == right then LexLess(a.promptId, b.promptId) else left < right
  }

  lemma OrdersAreStrictWeak(firstSeen: map<string, Time>)
    ensures StrictWeakOrder(Earlier) && StrictWeakOrder(CreatedEarlier)
    ensures StrictWeakOrder((a, b) => PromptLess(firstSeen, a, b))
  {
    forall a: PromptTotal, b: PromptTotal, c: PromptTotal
      ensures PromptLess(firstSeen, a, b) ==> !PromptLess(firstSeen, b, a)
      ensures PromptLess(firstSeen, a, c) ==> PromptLess(firstSeen, a, b) || PromptLess(firstSeen, b, c)
    {
      LexLessOrders(a.promptId, b.promptId, c.promptId);
    }
  }

  /** `sort.Slice` on the tool calls: some order by time, ties in any order. */
  method SortTools(tools: seq<ToolCall>) returns (order: seq<ToolCall>)
    ensures TimeSorted(order) && multiset(order) == multiset(tools) && |order| == |tools|
  {
    OrdersAreStrictWeak(map[]);
    SortSorts(tools, CreatedEarlier);
    order := Sort(tools, CreatedEarlier);
    assert forall i, j | 0 <= i < j < |order| :: !CreatedEarlier(order[j], order[i]);
  }

  // ----- Assembling the report

  /** The totals after all meter rows: one group per prompt, seen first at its earliest request. */
  ghost predicate Grouped(usages: seq<Usage>, groups: map<string, PromptTotal>, firstSeen: map<string, Time>) {
    && groups.Keys == firstSeen.Keys == PromptIds(usages)
    && (forall id | id in groups :: groups[id] == TotalOf(usages, id))
    && (forall id | id in firstSeen :: IsEarliest(usages, id, firstSeen[id]))
  }

  lemma {:induction false} TotalOfStranger(usages: seq<Usage>, id: string)
    requires forall u | u in usages :: u.promptId != id
    ensures TotalOf(usages, id) == NoTotal(id)
  {
    if usages != [] {
      TotalOfStranger(usages[..|usages| - 1], id);
    }
  }

  lemma GroupedExtends(
    usages: seq<Usage>, u: Usage,
    groups: map<string, PromptTotal>, firstSeen: map<string, Time>,
    newGroups: map<string, PromptTotal>, newFirstSeen: map<string, Time>)
    requires Grouped(usages, groups, firstSeen)
    requires u.promptId == "" ==> newGroups == groups && newFirstSeen == firstSeen
    requires u.promptId != "" ==>
      && newGroups ==
         groups[u.promptId := AddUsage(if u.promptId in groups then groups[u.promptId] else NoTotal(u.promptId), u)]
      && newFirstSeen == firstSeen[u.promptId :=
           if u.promptId in firstSeen && firstSeen[u.promptId] <= u.time then firstSeen[u.promptId] else u.time]
    ensures Grouped(usages + [u], newGroups, newFirstSeen)
  {
    hide IsEarliest, TotalOf;
    var next := usages + [u];
    PromptIdsExtend(usages, u);
    forall id | id in newGroups
      ensures newGroups[id] == TotalOf(next, id)
    {
      TotalOfExtends(usages, u, id);
    }
    forall id | id in newFirstSeen
      ensures IsEarliest(next, id, newFirstSeen[id])
    {
      if id in firstSeen {
        EarliestExtends(usages, u, id, firstSeen[id]);
      } else {
        EarliestOfNew(usages, u);
      }
    }
  }

  lemma PromptIdsExtend(usages: seq<Usage>, u: Usage)
    ensures PromptIds(usages + [u]) == PromptIds(usages) + if u.promptId == "" then {} else {u.promptId}
  {
    assert forall v | v in usages + [u] :: v in usages || v == u;
    assert u in usages + [u] && forall v | v in usages :: v in usages + [u];
  }

  lemma TotalOfExtends(usages: seq<Usage>, u: Usage, id: string)
    ensures TotalOf(usages + [u], id) == if u.promptId == id then AddUsage(TotalOf(usages, id), u)
      else TotalOf(usages, id)
    ensures id != "" && id !in PromptIds(usages) ==> TotalOf(usages, id) == NoTotal(id)
  {
    assert (usages + [u])[..|usages|] == usages;
    if id != "" && id !in PromptIds(usages) {
      TotalOfStranger(usages, id);
    }
  }

  lemma EarliestExtends(usages: seq<Usage>, u: Usage, id: string, t: Time)
    requires IsEarliest(usages, id, t)
    ensures IsEarliest(usages + [u], id, if u.promptId == id && u.time < t then u.time else t)
  {
    var first :| first in usages && first.promptId == id && first.time == t;
    assert first in usages + [u] && u in usages + [u];
  }

  lemma EarliestOfNew(usages: seq<Usage>, u: Usage)
    requires u.promptId != "" && u.promptId !in PromptIds(usages)
    ensures IsEarliest(usages + [u], u.promptId, u.time)
  {
    assert u in usages + [u];
  }

  method GroupUsages(usages: seq<Usage>)
    returns (rows: seq<Row>, groups: map<string, PromptTotal>, firstSeen: map<string, Time>)
    ensures rows == ModelRows(usages)
    ensures Grouped(usages, groups, firstSeen)
    ensures forall id | id in groups :: groups[id].promptId == id && SumsOfMeter(groups[id], usages)
  {
    hide Grouped, SumsOfMeter;
    rows, groups, firstSeen := [], map[], map[];
    NothingGrouped();
    for i := 0 to |usages|
      invariant rows == ModelRows(usages[..i])
      invariant Grouped(usages[..i], groups, firstSeen)
    {
      var u := usages[i];
      ghost var oldGroups, oldFirstSeen := groups, firstSeen;
      rows := rows + [Row(u.time, "model", u.promptId, u.model, u.prompt, u.cached, u.candidates, u.thoughts, u.total,
                          "", "", None, "")];
      if u.promptId != "" {
        var g;
        if u.promptId !in groups {
          g := NoTotal(u.promptId);
          firstSeen := firstSeen[u.promptId := u.time];
        } else {
          g := groups[u.promptId];
          SameKeys(usages[..i], groups, firstSeen);
          if u.time < firstSeen[u.promptId] {
            firstSeen := firstSeen[u.promptId := u.time];
          }
        }
        g := g.(requests := g.requests + 1, promptTokens := g.promptTokens + u.prompt,
          cachedTokens := g.cachedTokens + u.cached, candidateTokens := g.candidateTokens + u.candidates,
          thoughtTokens := g.thoughtTokens + u.thoughts, totalTokens := g.totalTokens + u.total);
        groups := groups[u.promptId := g];
      }
      SameKeys(usages[..i], oldGroups, oldFirstSeen);
      GroupedExtends(usages[..i], u, oldGroups, oldFirstSeen, groups, firstSeen);
      assert usages[..i + 1] == usages[..i] + [u];
    }
    assert usages[..|usages|] == usages;
    GroupedFacts(usages, groups, firstSeen);
    forall id | id in groups
      ensures groups[id].promptId == id && SumsOfMeter(groups[id], usages)
    {
      TotalsAreSums(usages, id);
    }
  }

  lemma NothingGrouped()
    ensures Grouped([], map[], map[])
  {
  }

  lemma SameKeys(usages: seq<Usage>, groups: map<string, PromptTotal>, firstSeen: map<string, Time>)
    requires Grouped(usages, groups, firstSeen)
    ensures groups.Keys == firstSeen.Keys == PromptIds(usages)
  {
  }

  lemma GroupedFacts(usages: seq<Usage>, groups: map<string, PromptTotal>, firstSeen: map<string, Time>)
    requires Grouped(usages, groups, firstSeen)
    ensures groups.Keys == firstSeen.Keys == PromptIds(usages)
    ensures forall id | id in groups :: groups[id] == TotalOf(usages, id)
    ensures forall id | id in firstSeen :: IsEarliest(usages, id, firstSeen[id])
  {
  }

  lemma CountedFacts(usages: seq<Usage>, rows: seq<Row>, groups: map<string, PromptTotal>)
    requires Counted(usages, rows, groups)
    ensures groups.Keys == PromptIds(usages) && forall id | id in groups :: groups[id].promptId == id
  {
    forall id | id in groups
      ensures groups[id].promptId == id
    {
      NoToolCallsYet(usages, id);
    }
  }

  /** The groups once the tool rows are counted. */
  ghost predicate Counted(usages: seq<Usage>, rows: seq<Row>, groups: map<string, PromptTotal>) {
    && groups.Keys == PromptIds(usages)
    && (forall id | id in groups :: groups[id] == TotalOf(usages, id).(toolCalls := CountRows(rows, id)))
  }

  lemma {:induction false} NoToolCallsYet(usages: seq<Usage>, id: string)
    ensures TotalOf(usages, id).toolCalls == 0 && TotalOf(usages, id).promptId == id
      && TotalOf(usages, id).title == NoLabel
  {
    if usages != [] {
      NoToolCallsYet(usages[..|usages| - 1], id);
    }
  }

  lemma NothingCounted(usages: seq<Usage>, totals: map<string, PromptTotal>)
    requires totals.Keys == PromptIds(usages) && forall id | id in totals :: totals[id] == TotalOf(usages, id)
    ensures Counted(usages, [], totals)
  {
    forall id | id in totals
      ensures totals[id].toolCalls == 0
    {
      NoToolCallsYet(usages, id);
    }
  }

  lemma CountedExtends(usages: seq<Usage>, rows: seq<Row>, row: Row, groups: map<string, PromptTotal>,
                       newGroups: map<string, PromptTotal>)
    requires Counted(usages, rows, groups)
    requires newGroups == if row.promptId in groups
      then groups[row.promptId := groups[row.promptId].(toolCalls := groups[row.promptId].toolCalls + 1)] else groups
    ensures Counted(usages, rows + [row], newGroups)
  {
    assert (rows + [row])[..|rows|] == rows;
  }

  method CountToolCalls(order: seq<ToolCall>, paired: map<nat, nat>, usages: seq<Usage>,
                        totals: map<string, PromptTotal>)
    returns (rows: seq<Row>, groups: map<string, PromptTotal>)
    requires totals.Keys == PromptIds(usages) && forall id | id in totals :: totals[id] == TotalOf(usages, id)
    ensures rows == ToolRows(order, paired, usages, |order|)
    ensures Counted(usages, rows, groups)
  {
    hide Counted, TotalOf, Nearest, PromptIds;
    rows, groups := [], totals;
    NothingCounted(usages, totals);
    for i := 0 to |order|
      invariant rows == ToolRows(order, paired, usages, i)
      invariant Counted(usages, rows, groups)
    {
      if i in paired {
        continue;
      }
      var call := order[i];
      var nearest := NearestPrompt(call.createdAt, usages);
      var row := Row(call.createdAt, "tool", nearest, "", 0, 0, 0, 0, 0,
                     call.toolName, call.callType, call.actualTokens,
                     if i in paired.Values then "hook+exec" else "telemetry");
      ghost var oldGroups := groups;
      if nearest in groups {
        groups := groups[nearest := groups[nearest].(toolCalls := groups[nearest].toolCalls + 1)];
      }
      CountedExtends(usages, rows, row, oldGroups, groups);
      rows := rows + [row];
    }
  }

  lemma {:induction false} ToolRowsNameKnownPrompts(order: seq<ToolCall>, paired: map<nat, nat>,
                                                    usages: seq<Usage>, n: nat)
    requires n <= |order|
    ensures forall r | r in ToolRows(order, paired, usages, n) :: r.promptId == "" || r.promptId in PromptIds(usages)
  {
    if n > 0 {
      ToolRowsNameKnownPrompts(order, paired, usages, n - 1);
      NearestIsKnown(order[n - 1].createdAt, usages);
    }
  }

  /** The groups in any order, as iterating a Go map gives them. */
  method ListGroups(groups: map<string, PromptTotal>) returns (prompts: seq<PromptTotal>)
    requires forall id | id in groups :: groups[id].promptId == id
    ensures DistinctIds(prompts) && |prompts| == |groups|
    ensures forall p | p in prompts :: p.promptId in groups && groups[p.promptId] == p
    ensures forall id | id in groups :: groups[id] in prompts
  {
    prompts := [];
    var rest := groups.Keys;
    while rest != {}
      invariant rest <= groups.Keys && |prompts| + |rest| == |groups.Keys|
      invariant DistinctIds(prompts)
      invariant forall p | p in prompts :: p.promptId in groups && groups[p.promptId] == p && p.promptId !in rest
      invariant forall id | id in groups && id !in rest :: groups[id] in prompts
      decreases rest
    {
      var id :| id in rest;
      prompts := prompts + [groups[id]];
      rest := rest - {id};
    }
    assert |groups.Keys| == |groups|;
  }

  /** Prompts in order of their earliest request, ids breaking ties, and numbered. */
  ghost predicate Ranked(prompts: seq<PromptTotal>, firstSeen: map<string, Time>) {
    && (forall p | p in prompts :: p.promptId in firstSeen)
    && (forall i, j | 0 <= i < j < |prompts| ::
          var a, b := prompts[i].promptId, prompts[j].promptId;
          firstSeen[a] < firstSeen[b] || (firstSeen[a] == firstSeen[b] && LexLess(a, b)))
    && (forall i | 0 <= i < |prompts| :: prompts[i].title == Label(i + 1, firstSeen[prompts[i].promptId]))
  }

  method RankPrompts(unordered: seq<PromptTotal>, firstSeen: map<string, Time>)
    returns (prompts: seq<PromptTotal>, ghost sorted: seq<PromptTotal>)
    requires DistinctIds(unordered) && forall p | p in unordered :: p.promptId in firstSeen
    ensures Ranked(prompts, firstSeen) && DistinctIds(prompts)
    ensures forall p :: p in sorted <==> p in unordered
    ensures |prompts| == |sorted| == |unordered|
    ensures forall i | 0 <= i < |prompts| :: prompts[i] == sorted[i].(title := prompts[i].title)
  {
    hide LexLess, Sort, PromptLess, Ranked, DistinctIds;
    var byFirstSeen := Sort(unordered, (a, b) => PromptLess(firstSeen, a, b));
    sorted := byFirstSeen;
    SortedPrompts(unordered, firstSeen, sorted);
    SortedIdsDistinct(unordered, sorted);
    prompts := seq(|byFirstSeen|, i requires 0 <= i < |byFirstSeen| => Titled(byFirstSeen[i], i + 1, firstSeen));
    TitledRanked(sorted, firstSeen, prompts);
  }

  lemma TitledRanked(sorted: seq<PromptTotal>, firstSeen: map<string, Time>, prompts: seq<PromptTotal>)
    requires DistinctIds(sorted)
    requires forall i, j | 0 <= i < j < |sorted| ::
      var a, b := sorted[i].promptId, sorted[j].promptId;
      a in firstSeen && b in firstSeen
        && (firstSeen[a] < firstSeen[b] || (firstSeen[a] == firstSeen[b] && LexLess(a, b)))
    requires forall i | 0 <= i < |sorted| :: sorted[i].promptId in firstSeen
    requires |prompts| == |sorted| && forall i | 0 <= i < |sorted| :: prompts[i] == Titled(sorted[i], i + 1, firstSeen)
    ensures Ranked(prompts, firstSeen) && DistinctIds(prompts)
    ensures forall i | 0 <= i < |prompts| :: prompts[i] == sorted[i].(title := prompts[i].title)
  {
    hide LexLess;
  }

  function Titled(p: PromptTotal, n: nat, firstSeen: map<string, Time>): PromptTotal {
    p.(title := Label(n, if p.promptId in firstSeen then firstSeen[p.promptId] else 0))
  }

  lemma SameMembers(a: seq<PromptTotal>, b: seq<PromptTotal>)
    requires multiset(a) == multiset(b)
    ensures forall p :: p in a <==> p in b
  {
    assert forall p :: p in multiset(a) <==> p in a;
    assert forall p :: p in multiset(b) <==> p in b;
  }

  lemma SortedPrompts(unordered: seq<PromptTotal>, firstSeen: map<string, Time>, sorted: seq<PromptTotal>)
    requires DistinctIds(unordered) && forall p | p in unordered :: p.promptId in firstSeen
    requires sorted == Sort(unordered, (a, b) => PromptLess(firstSeen, a, b))
    ensures multiset(sorted) == multiset(unordered) && |sorted| == |unordered|
    ensures forall p :: p in sorted <==> p in unordered
    ensures forall i, j | 0 <= i < j < |sorted| ::
      var a, b := sorted[i].promptId, sorted[j].promptId;
      a in firstSeen && b in firstSeen
        && (firstSeen[a] < firstSeen[b] || (firstSeen[a] == firstSeen[b] && LexLess(a, b)))
  {
    hide LexLess, Sort, StrictWeakOrder;
    var less := (a, b) => PromptLess(firstSeen, a, b);
    OrdersAreStrictWeak(firstSeen);
    SortSorts(unordered, less);
    SameMembers(unordered, sorted);
    SortedIdsDistinct(unordered, sorted);
    forall i, j | 0 <= i < j < |sorted|
      ensures var a, b := sorted[i].promptId, sorted[j].promptId;
              a in firstSeen && b in firstSeen
                && (firstSeen[a] < firstSeen[b] || (firstSeen[a] == firstSeen[b] && LexLess(a, b)))
    {
      assert sorted[i] in sorted && sorted[j] in sorted;
      assert !less(sorted[j], sorted[i]);
      LexLessOrders(sorted[i].promptId, sorted[j].promptId, "");
    }
  }

  lemma SortedIdsDistinct(unordered: seq<PromptTotal>, sorted: seq<PromptTotal>)
    requires DistinctIds(unordered) && multiset(unordered) == multiset(sorted)
    ensures DistinctIds(sorted)
  {
    forall i, j | 0 <= i < j < |sorted|
      ensures sorted[i].promptId != sorted[j].promptId
    {
      var a, b := sorted[i], sorted[j];
      assert sorted == sorted[..i] + [a] + sorted[i + 1..j] + [b] + sorted[j + 1..];
      assert multiset{a, b} <= multiset(sorted);
      assert a in multiset(unordered) && b in multiset(unordered);
      assert a in unordered && b in unordered;
      if a == b {
        assert multiset(unordered)[a] >= 2;
        OccursOnce(unordered, a);
      }
    }
  }

  lemma {:induction false} OccursOnce(prompts: seq<PromptTotal>, p: PromptTotal)
    requires DistinctIds(prompts)
    ensures multiset(prompts)[p] <= 1
  {
    if prompts != [] {
      var init, last := prompts[..|prompts| - 1], prompts[|prompts| - 1];
      assert prompts == init + [last];
      OccursOnce(init, p);
      if p == last {
        assert p !in init;
      }
    }
  }

  /** The whole report.  `order` and `paired` are the time order of the tool calls and the pairing
      the report was built with. */
  method AssembleStatsCalls(session: string, usages: seq<Usage>, tools: seq<ToolCall>)
    returns (report: Report, ghost order: seq<ToolCall>, ghost paired: map<nat, nat>,
      ghost firstSeen: map<string, Time>)
    ensures report.session == session
    // the pairing
    ensures TimeSorted(order) && multiset(order) == multiset(tools)
    ensures IsMatching(order, paired) && OrderPreserving(paired) && forall m | IsMatching(order, m) :: |m| <= |paired|
    // one row per model request and per tool call, but for the paired hooks, sorted by time
    ensures report.rows == Sort(ModelRows(usages) + ToolRows(order, paired, usages, |order|), Earlier)
    ensures Sorted(report.rows, Earlier)
    ensures |report.rows| == |usages| + |tools| - |paired|
    // one total per prompt, the sums of its meter rows and its tool rows
    ensures DistinctIds(report.prompts) && Ranked(report.prompts, firstSeen)
    ensures forall id | id in firstSeen :: IsEarliest(usages, id, firstSeen[id])
    ensures forall p | p in report.prompts ::
      && p.promptId in PromptIds(usages)
      && p == TotalOf(usages, p.promptId).(
           title := p.title, toolCalls := CountRows(ToolRows(order, paired, usages, |order|), p.promptId))
    ensures forall id | id in PromptIds(usages) :: exists p | p in report.prompts :: p.promptId == id
    ensures SumToolCalls(report.prompts) == CountWithPrompt(ToolRows(order, paired, usages, |order|))
    // column by column, of the meter and of the report's own rows
    ensures forall p | p in report.prompts :: SumsOfMeter(p, usages) && SumsOfRows(p, report.rows)
    // every row shows what was recorded
    ensures forall u | u in usages ::
      Row(u.time, "model", u.promptId, u.model, u.prompt, u.cached, u.candidates, u.thoughts, u.total, "", "", None, "")
        in report.rows
    ensures forall i | 0 <= i < |order| && i !in paired ::
      Row(order[i].createdAt, "tool", Nearest(order[i].createdAt, usages).0, "", 0, 0, 0, 0, 0,
          order[i].toolName, order[i].callType, order[i].actualTokens,
          if i in paired.Values then "hook+exec" else "telemetry") in report.rows
  {
    hide IsMatching, OrderPreserving, TimeSorted, TotalOf, IsEarliest, Sorted, Sort, StrictWeakOrder, ToolRows,
      CountRows, CountWithPrompt, SumToolCalls, SumCounts, Nearest, Ranked, Grouped, Counted, SumsOfMeter, SumsOfRows;

    var rows, totals, seen := GroupUsages(usages);
    GroupedFacts(usages, totals, seen);
    firstSeen := seen;
    var sorted := SortTools(tools);
    order := sorted;
    var pairs := PairHooks(sorted);
    paired := pairs;
    var toolRows, groups := CountToolCalls(sorted, pairs, usages, totals);
    OrdersAreStrictWeak(firstSeen);
    SortSorts(rows + toolRows, Earlier);
    CountToolRows(order, paired, usages, |order|);
    AllPairedHooks(order, paired);
    CountedFacts(usages, toolRows, groups);
    var unordered := ListGroups(groups);
    var prompts, ranked := RankPrompts(unordered, seen);
    PromptsOfGroups(usages, toolRows, groups, unordered, ranked, prompts);
    report := Report(session, Sort(rows + toolRows, Earlier), prompts);
    ToolRowsNameKnownPrompts(order, paired, usages, |order|);
    SumCountsIsAll(prompts, toolRows);
    SumToolCallsIsSumCounts(prompts, toolRows);
    PromptsCarrySums(order, paired, usages, prompts);
    RowsShow(order, paired, usages, report.rows);
  }

  lemma PromptsCarrySums(order: seq<ToolCall>, paired: map<nat, nat>, usages: seq<Usage>, prompts: seq<PromptTotal>)
    requires forall p | p in prompts ::
      p.promptId in PromptIds(usages)
        && p == TotalOf(usages, p.promptId).(
             title := p.title, toolCalls := CountRows(ToolRows(order, paired, usages, |order|), p.promptId))
    ensures forall p | p in prompts ::
      SumsOfMeter(p, usages)
        && SumsOfRows(p, Sort(ModelRows(usages) + ToolRows(order, paired, usages, |order|), Earlier))
  {
    hide TotalOf, CountRows, ToolRows, Sort, ModelRows, SumsOfRows, SumOver;
    forall p | p in prompts
      ensures SumsOfMeter(p, usages)
      ensures SumsOfRows(p, Sort(ModelRows(usages) + ToolRows(order, paired, usages, |order|), Earlier))
    {
      TotalsAreSums(usages, p.promptId);
      RowsCarrySums(order, paired, usages, p);
    }
  }

  lemma {:induction false} ToolRowPresent(order: seq<ToolCall>, paired: map<nat, nat>, usages: seq<Usage>,
                                          n: nat, i: nat)
    requires i < n <= |order| && i !in paired
    ensures ToolRow(order[i], i in paired.Values, Nearest(order[i].createdAt, usages).0)
         in ToolRows(order, paired, usages, n)
  {
    if i < n - 1 {
      ToolRowPresent(order, paired, usages, n - 1, i);
    }
  }

  lemma RowsShow(order: seq<ToolCall>, paired: map<nat, nat>, usages: seq<Usage>, rows: seq<Row>)
    requires multiset(rows) == multiset(ModelRows(usages) + ToolRows(order, paired, usages, |order|))
    ensures forall u | u in usages :: ModelRow(u) in rows
    ensures forall i | 0 <= i < |order| && i !in paired ::
      ToolRow(order[i], i in paired.Values, Nearest(order[i].createdAt, usages).0) in rows
  {
    hide ToolRows, ModelRow, ToolRow, Nearest;
    var all := ModelRows(usages) + ToolRows(order, paired, usages, |order|);
    assert forall r :: r in rows <==> r in multiset(rows);
    assert forall r :: r in all <==> r in multiset(all);
    forall u | u in usages
      ensures ModelRow(u) in rows
    {
      var k :| 0 <= k < |usages| && usages[k] == u;
      assert all[k] == ModelRow(u);
    }
    forall i | 0 <= i < |order| && i !in paired
      ensures ToolRow(order[i], i in paired.Values, Nearest(order[i].createdAt, usages).0) in rows
    {
      ToolRowPresent(order, paired, usages, |order|, i);
    }
  }

  /** Ranking changes nothing of a prompt's totals but the title. */
  lemma PromptsOfGroups(
    usages: seq<Usage>, rows: seq<Row>, groups: map<string, PromptTotal>,
    unordered: seq<PromptTotal>, ranked: seq<PromptTotal>, prompts: seq<PromptTotal>)
    requires Counted(usages, rows, groups)
    requires forall p | p in unordered :: p.promptId in groups && groups[p.promptId] == p
    requires forall id | id in groups :: groups[id].promptId == id && groups[id] in unordered
    requires forall p :: p in ranked <==> p in unordered
    requires |prompts| == |ranked| && forall i | 0 <= i < |prompts| ::
      prompts[i] == ranked[i].(title := prompts[i].title)
    ensures forall p | p in prompts ::
      p.promptId in PromptIds(usages)
        && p == TotalOf(usages, p.promptId).(title := p.title, toolCalls := CountRows(rows, p.promptId))
    ensures forall id | id in PromptIds(usages) :: exists p | p in prompts :: p.promptId == id
  {
    hide TotalOf, CountRows;
    forall i | 0 <= i < |prompts|
      ensures var p := prompts[i];
              p.promptId in PromptIds(usages)
                && p == TotalOf(usages, p.promptId).(title := p.title, toolCalls := CountRows(rows, p.promptId))
    {
      assert ranked[i] in ranked;
    }
    forall id | id in PromptIds(usages)
      ensures exists p | p in prompts :: p.promptId == id
    {
      var i :| 0 <= i < |ranked| && ranked[i] == groups[id];
      assert prompts[i] in prompts;
    }
  }

  lemma AllPairedHooks(order: seq<ToolCall>, paired: map<nat, nat>)
    requires IsMatching(order, paired)
    ensures |(set k | k in paired && k < |order|)| == |paired|
  {
    forall k | k in paired
      ensures k < |order|
    {
      assert Compatible(order, k, paired[k]);
    }
    assert (set k | k in paired && k < |order|) == paired.Keys;
    assert |paired.Keys| == |paired|;
  }
}
