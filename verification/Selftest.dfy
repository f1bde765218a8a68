/**
 The background self-test (cmd/harnez/agent_selftest.go): separate processes that each load a
 shared state file, put a time stamp into their copy and rename it over the file.  Loads and
 saves interleave freely, so updates can be lost.
 */
module Selftest {

  datatype Option<+T> = None | Some(value: T)

  type Time = int

  datatype Kind = Hello | Background(hto: string) | Confirm | ConfirmRunning | Verify

  /** The state file.  The session id and the free-text duration play no part. */
  datatype TestState = TestState(
    helloAt: Option<Time>,
    backgroundStartedAt: Option<Time>, backgroundFinishedAt: Option<Time>, backgroundHto: string,
    confirmAt: Option<Time>, confirmRunningAt: Option<Time>, verifyAt: Option<Time>,
    steps: seq<string>)

  datatype Issue =
    | NoHello | NotStarted | NoHto | NoConfirm | NoConfirmRunning | NotFinished
    | ConfirmBeforeStart | ConfirmAfterFinish | RunningBeforeConfirm

  predicate Before(a: Option<Time>, b: Option<Time>) {
    a.Some? && b.Some? && a.value < b.value
  }

  /** What `--step verify` complains about, in its order. */
  function Issues(st: TestState): seq<Issue> {
    (if st.helloAt.None? then [NoHello] else [])
    + (if st.backgroundStartedAt.None? then [NotStarted] else [])
    + (if st.backgroundHto == "" then [NoHto] else [])
    + (if st.confirmAt.None? then [NoConfirm] else [])
    + (if st.confirmRunningAt.None? then [NoConfirmRunning] else [])
    + (if st.backgroundFinishedAt.None? then [NotFinished] else [])
    + (if Before(st.confirmAt, st.backgroundStartedAt) then [ConfirmBeforeStart] else [])
    + (if Before(st.backgroundFinishedAt, st.confirmAt) then [ConfirmAfterFinish] else [])
    + (if Before(st.confirmRunningAt, st.confirmAt) then [RunningBeforeConfirm] else [])
  }

  datatype Pc =
    | Idle
    | Loaded(st: TestState)
    | Stamped(st: TestState)
    | Sleeping(st: TestState)    // the background task between its two updates
    | Woken(st: TestState)
    | Finished(st: TestState)    // the background task with its second stamp
    | Ended

  datatype Event =
    | Stamp(kind: Kind, process: nat, at: Time)
    | FinishStamp(process: nat, at: Time)
    | Pass(process: nat, st: TestState)

  datatype World = World(file: Option<TestState>, clock: Time, kinds: map<nat, Kind>, pcs: map<nat, Pc>,
                         log: seq<Event>)

  datatype Step =
    | Tick(elapsed: nat)
    | Load(p: nat, ok: bool)
    | TakeStamp(p: nat)
    | Save(p: nat, ok: bool)
    | Wake(p: nat, ok: bool)

  /** Whether a process goes on after it has loaded the file. */
  predicate MayGoOn(kind: Kind, st: TestState) {
    match kind
    case Hello => true
    case Background(_) => st.helloAt.Some?
    case Confirm => st.helloAt.Some? && st.backgroundStartedAt.Some? && st.backgroundFinishedAt.None?
    case ConfirmRunning => st.confirmAt.Some?
    case Verify => Issues(st) == []
  }

  /** The update a process makes to its copy. */
  function Updated(kind: Kind, st: TestState, now: Time): TestState {
    match kind
    case Hello => TestState(Some(now), None, None, "", None, None, None, ["hello"])
    case Background(hto) =>
      st.(backgroundStartedAt := Some(now), backgroundHto := hto, steps := st.steps + ["background_started"])
    case Confirm => st.(confirmAt := Some(now), steps := st.steps + ["confirm"])
    case ConfirmRunning => st.(confirmRunningAt := Some(now), steps := st.steps + ["confirm-running"])
    case Verify => st.(verifyAt := Some(now), steps := st.steps + ["verify"])
  }

  const BLANK := TestState(None, None, None, "", None, None, None, [])

  function SetPc(w: World, p: nat, pc: Pc): World {
    w.(pcs := w.pcs[p := pc])
  }

  function PcOf(w: World, p: nat): Pc {
    if p in w.pcs then w.pcs[p] else Idle
  }

  function Next(w: World, step: Step): Option<World> {
    if step.Tick? then Some(w.(clock := w.clock + step.elapsed))
    else if step.p !in w.kinds then None
    else
      var p, kind := step.p, w.kinds[step.p];
      match (step, PcOf(w, p))
      case (Load(_, ok), Idle) =>
        if kind.Hello? then Some(SetPc(w, p, Loaded(BLANK)))
        else if !ok || w.file.None? || !MayGoOn(kind, w.file.value) then Some(SetPc(w, p, Ended))
        else
          var st := w.file.value;
          Some(SetPc(if kind.Verify? then w.(log := w.log + [Pass(p, st)]) else w, p, Loaded(st)))
      case (TakeStamp(_), Loaded(st)) =>
        Some(SetPc(w.(log := w.log + [Stamp(kind, p, w.clock)]), p, Stamped(Updated(kind, st, w.clock))))
      case (Save(_, ok), Stamped(st)) =>
        var next := if ok then w.(file := Some(st)) else w;
        Some(SetPc(next, p, if ok && kind.Background? then Sleeping(st) else Ended))
      case (Wake(_, ok), Sleeping(st)) =>
        Some(SetPc(w, p, Woken(if ok && w.file.Some? then w.file.value else st)))
      case (TakeStamp(_), Woken(st)) =>
        var done := st.(backgroundFinishedAt := Some(w.clock), steps := st.steps + ["background_finished"]);
        Some(SetPc(w.(log := w.log + [FinishStamp(p, w.clock)]), p, Finished(done)))
      case (Save(_, ok), Finished(st)) =>
        Some(SetPc(if ok then w.(file := Some(st)) else w, p, Ended))
      case _ => None
  }

  function Run(w: World, steps: seq<Step>): Option<World>
    decreases |steps|
  {
    if steps == [] then Some(w)
    else
      match Next(w, steps[0])
      case None => None
      case Some(next) => Run(next, steps[1..])
  }

  /** A fresh session with one hello and one background task. */
  predicate Initial(w: World) {
    && w.file.None? && w.pcs == map[] && w.log == []
    && (forall p, q | p in w.kinds && q in w.kinds && w.kinds[p].Hello? && w.kinds[q].Hello? :: p == q)
    && OneBackground(w.kinds)
  }

  // ----- Every stamp in every copy is genuine

  /** `log[i]` is the start of the background task at time `t`. */
  predicate StartsAt(log: seq<Event>, i: nat, hto: string, t: Time) {
    i < |log| && log[i].Stamp? && log[i].kind == Background(hto) && log[i].at == t
  }

  predicate FinishesAt(log: seq<Event>, i: nat, t: Time) {
    i < |log| && log[i].FinishStamp? && log[i].at == t
  }

  predicate ConfirmsAt(log: seq<Event>, i: nat, t: Time) {
    i < |log| && log[i].Stamp? && log[i].kind.Confirm? && log[i].at == t
  }

  predicate ConfirmsRunningAt(log: seq<Event>, i: nat, t: Time) {
    i < |log| && log[i].Stamp? && log[i].kind.ConfirmRunning? && log[i].at == t
  }

  ghost predicate StartedBefore(log: seq<Event>, n: nat) {
    exists i: nat, hto, t :: i < n && StartsAt(log, i, hto, t)
  }

  ghost predicate ConfirmedBefore(log: seq<Event>, n: nat) {
    exists i: nat, t :: i < n && ConfirmsAt(log, i, t)
  }

  /** Every stamp of a copy was taken by a process of its kind, in the causal order. */
  ghost predicate Genuine(log: seq<Event>, st: TestState) {
    && (st.backgroundStartedAt.Some? ==> exists i: nat ::
        StartsAt(log, i, st.backgroundHto, st.backgroundStartedAt.value))
    && (st.backgroundFinishedAt.Some? ==> exists i: nat :: FinishesAt(log, i, st.backgroundFinishedAt.value))
    && (st.confirmAt.Some? ==> exists i: nat :: ConfirmsAt(log, i, st.confirmAt.value) && StartedBefore(log, i))
    && (st.confirmRunningAt.Some? ==> exists i: nat ::
        ConfirmsRunningAt(log, i, st.confirmRunningAt.value) && ConfirmedBefore(log, i))
  }

  predicate ClockOrder(log: seq<Event>) {
    forall i, j | 0 <= i < j < |log| && !log[i].Pass? && !log[j].Pass? :: log[i].at <= log[j].at
  }

  ghost predicate GenuinePc(log: seq<Event>, pc: Pc) {
    pc.Idle? || pc.Ended? || Genuine(log, pc.st)
  }

  /** A loaded copy still satisfies what the process checked; only the background task sleeps. */
  predicate Checked(kind: Kind, pc: Pc) {
    && (pc.Loaded? ==> MayGoOn(kind, pc.st))
    && (pc.Sleeping? || pc.Woken? || pc.Finished? ==> kind.Background?)
  }

  /** Every stamp was taken by a process of its kind. */
  predicate Labelled(kinds: map<nat, Kind>, log: seq<Event>) {
    forall e | e in log && !e.Pass? :: e.process in kinds && LabelOf(e, kinds[e.process])
  }

  predicate LabelOf(e: Event, kind: Kind)
    requires !e.Pass?
  {
    if e.Stamp? then kind == e.kind else kind.Background?
  }

  ghost predicate Inv(w: World) {
    && (w.file.Some? ==> Genuine(w.log, w.file.value))
    && (forall p | p in w.pcs :: p in w.kinds && GenuinePc(w.log, w.pcs[p]) && Checked(w.kinds[p], w.pcs[p]))
    && Labelled(w.kinds, w.log)
    && ClockOrder(w.log) && (forall e | e in w.log && !e.Pass? :: e.at <= w.clock)
    && (forall e | e in w.log && e.Pass? :: Genuine(w.log, e.st) && Issues(e.st) == [])
  }

  lemma GenuineLater(log: seq<Event>, e: Event, st: TestState)
    requires Genuine(log, st)
    ensures Genuine(log + [e], st)
  {
    var longer := log + [e];
    if st.backgroundStartedAt.Some? {
      var i: nat :| StartsAt(log, i, st.backgroundHto, st.backgroundStartedAt.value);
      assert StartsAt(longer, i, st.backgroundHto, st.backgroundStartedAt.value);
    }
    if st.backgroundFinishedAt.Some? {
      var i: nat :| FinishesAt(log, i, st.backgroundFinishedAt.value);
      assert FinishesAt(longer, i, st.backgroundFinishedAt.value);
    }
    if st.confirmAt.Some? {
      var i: nat :| ConfirmsAt(log, i, st.confirmAt.value) && StartedBefore(log, i);
      var k: nat, hto, t :| k < i && StartsAt(log, k, hto, t);
      assert StartsAt(longer, k, hto, t) && ConfirmsAt(longer, i, st.confirmAt.value);
    }
    if st.confirmRunningAt.Some? {
      var i: nat :| ConfirmsRunningAt(log, i, st.confirmRunningAt.value) && ConfirmedBefore(log, i);
      var k: nat, t :| k < i && ConfirmsAt(log, k, t);
      assert ConfirmsAt(longer, k, t) && ConfirmsRunningAt(longer, i, st.confirmRunningAt.value);
    }
  }

  /** The copy a process has just stamped is genuine again. */
  lemma UpdatedIsGenuine(log: seq<Event>, kind: Kind, p: nat, st: TestState, now: Time)
    requires Genuine(log, st) && MayGoOn(kind, st)
    ensures Genuine(log + [Stamp(kind, p, now)], Updated(kind, st, now))
  {
    var e := Stamp(kind, p, now);
    var longer := log + [e];
    GenuineLater(log, e, st);
    match kind
    case Hello =>
    case Background(hto) => assert StartsAt(longer, |log|, hto, now);
    case Confirm =>
      var i: nat :| StartsAt(log, i, st.backgroundHto, st.backgroundStartedAt.value);
      assert StartsAt(longer, i, st.backgroundHto, st.backgroundStartedAt.value) && ConfirmsAt(longer, |log|, now);
    case ConfirmRunning =>
      var i: nat :| ConfirmsAt(log, i, st.confirmAt.value);
      assert ConfirmsAt(longer, i, st.confirmAt.value) && ConfirmsRunningAt(longer, |log|, now);
    case Verify =>
  }

  lemma FinishedIsGenuine(log: seq<Event>, p: nat, st: TestState, now: Time)
    requires Genuine(log, st)
    ensures Genuine(log + [FinishStamp(p, now)],
      st.(backgroundFinishedAt := Some(now), steps := st.steps + ["background_finished"]))
  {
    GenuineLater(log, FinishStamp(p, now), st);
    assert FinishesAt(log + [FinishStamp(p, now)], |log|, now);
  }

  /** One more event, and all copies but one unchanged. */
  lemma LogKeepsInv(w: World, e: Event, p: nat, pc: Pc)
    requires Inv(w) && p in w.kinds
    requires !e.Pass? ==> e.at == w.clock && e.process == p && LabelOf(e, w.kinds[p])
    requires e.Pass? ==> Genuine(w.log, e.st) && Issues(e.st) == []
    requires GenuinePc(w.log + [e], pc) && Checked(w.kinds[p], pc)
    ensures Inv(SetPc(w.(log := w.log + [e]), p, pc))
  {
    hide Genuine, Issues, MayGoOn;
    var next := SetPc(w.(log := w.log + [e]), p, pc);
    if w.file.Some? {
      GenuineLater(w.log, e, w.file.value);
    }
    forall q | q in next.pcs
      ensures q in next.kinds && GenuinePc(next.log, next.pcs[q]) && Checked(next.kinds[q], next.pcs[q])
    {
      if q != p && !w.pcs[q].Idle? && !w.pcs[q].Ended? {
        GenuineLater(w.log, e, w.pcs[q].st);
      }
    }
    forall x | x in next.log && x.Pass?
      ensures Genuine(next.log, x.st) && Issues(x.st) == []
    {
      assert x in w.log || x == e;
      GenuineLater(w.log, e, x.st);
    }
    assert forall i | 0 <= i < |w.log| :: w.log[i] in w.log;
  }

  lemma NextKeepsInv(w: World, step: Step)
    requires Inv(w) && Next(w, step).Some?
    ensures Inv(Next(w, step).value)
  {
    hide Genuine, Issues, MayGoOn, Updated;
    if !step.Tick? {
      var p, kind := step.p, w.kinds[step.p];
      var pc := PcOf(w, p);
      BlankIsGenuine(w.log);
      if step.TakeStamp? && pc.Loaded? {
        UpdatedIsGenuine(w.log, kind, p, pc.st, w.clock);
        LogKeepsInv(w, Stamp(kind, p, w.clock), p, Stamped(Updated(kind, pc.st, w.clock)));
      } else if step.TakeStamp? {
        FinishedIsGenuine(w.log, p, pc.st, w.clock);
        LogKeepsInv(w, FinishStamp(p, w.clock), p, Next(w, step).value.pcs[p]);
      } else if step.Load? && kind.Verify? && w.file.Some? {
        VerifyChecks(w.file.value);
        if MayGoOn(kind, w.file.value) {
          GenuineLater(w.log, Pass(p, w.file.value), w.file.value);
          LogKeepsInv(w, Pass(p, w.file.value), p, Loaded(w.file.value));
        }
      }
    }
  }

  lemma BlankIsGenuine(log: seq<Event>)
    ensures Genuine(log, BLANK) && MayGoOn(Hello, BLANK)
  {
  }

  lemma VerifyChecks(st: TestState)
    ensures MayGoOn(Verify, st) <==> Issues(st) == []
  {
  }

  lemma {:induction false} RunKeepsInv(w: World, steps: seq<Step>)
    requires Inv(w) && Run(w, steps).Some?
    ensures Inv(Run(w, steps).value) && Run(w, steps).value.kinds == w.kinds
    decreases |steps|
  {
    hide Inv;
    if steps != [] {
      NextKeepsInv(w, steps[0]);
      RunKeepsInv(Next(w, steps[0]).value, steps[1..]);
    }
  }

  // ----- What PASS means

  /** These four events are the stamps of `st`: the confirmation between start and finish, the
      report of it no earlier, by the clock and in the order of the run wherever the clock tells
      two stamps apart. */
  ghost predicate ConcurrentAt(log: seq<Event>, st: TestState, start: nat, confirm: nat, finish: nat, running: nat)
    requires st.backgroundStartedAt.Some? && st.backgroundFinishedAt.Some?
      && st.confirmAt.Some? && st.confirmRunningAt.Some?
  {
    var t1, t2, t3, t4 := st.backgroundStartedAt.value, st.confirmAt.value, st.backgroundFinishedAt.value,
      st.confirmRunningAt.value;
    && StartsAt(log, start, st.backgroundHto, t1) && ConfirmsAt(log, confirm, t2) && FinishesAt(log, finish, t3)
    && ConfirmsRunningAt(log, running, t4)
    && t1 <= t2 <= t3 && t2 <= t4
    && (t1 < t2 ==> start < confirm) && (t2 < t3 ==> confirm < finish) && (t2 < t4 ==> confirm < running)
    && StartedBefore(log, confirm) && ConfirmedBefore(log, running)
    && log[start].process == log[finish].process
  }

  /** However loads and saves interleave, verify passes only on a genuine concurrent run. */
  lemma PassIsGenuine(w: World, steps: seq<Step>, p: nat, st: TestState)
    requires Initial(w) && Run(w, steps).Some? && Pass(p, st) in Run(w, steps).value.log
    ensures st.backgroundStartedAt.Some? && st.backgroundFinishedAt.Some?
      && st.confirmAt.Some? && st.confirmRunningAt.Some?
    ensures st.backgroundHto != ""
    ensures exists start, confirm, finish, running: nat ::
      ConcurrentAt(Run(w, steps).value.log, st, start, confirm, finish, running)
  {
    RunKeepsInv(w, steps);
    var log := Run(w, steps).value.log;
    hide Run;
    assert Genuine(log, st);
    PassHasStamps(st);
    GenuineIsConcurrent(w.kinds, log, st);
  }

  predicate OneBackground(kinds: map<nat, Kind>) {
    forall p, q | p in kinds && q in kinds && kinds[p].Background? && kinds[q].Background? :: p == q
  }

  lemma EarlierByClock(log: seq<Event>, i: nat, j: nat)
    requires ClockOrder(log) && i < |log| && j < |log| && !log[i].Pass? && !log[j].Pass?
    ensures log[i].at < log[j].at ==> i < j
  {
  }

  lemma SameBackground(kinds: map<nat, Kind>, log: seq<Event>, start: nat, finish: nat)
    requires Labelled(kinds, log) && OneBackground(kinds)
    requires start < |log| && log[start].Stamp? && log[start].kind.Background?
    requires finish < |log| && log[finish].FinishStamp?
    ensures log[start].process == log[finish].process
  {
    assert log[start] in log && log[finish] in log;
  }

  lemma GenuineIsConcurrent(kinds: map<nat, Kind>, log: seq<Event>, st: TestState)
    requires Genuine(log, st) && ClockOrder(log) && Issues(st) == []
    requires Labelled(kinds, log) && OneBackground(kinds)
    ensures st.backgroundStartedAt.Some? && st.backgroundFinishedAt.Some?
      && st.confirmAt.Some? && st.confirmRunningAt.Some?
    ensures exists start, confirm, finish, running: nat :: ConcurrentAt(log, st, start, confirm, finish, running)
  {
    PassHasStamps(st);
    hide Issues, StartedBefore, ConfirmedBefore, ClockOrder, Labelled, OneBackground;
    var start: nat :| StartsAt(log, start, st.backgroundHto, st.backgroundStartedAt.value);
    var finish: nat :| FinishesAt(log, finish, st.backgroundFinishedAt.value);
    var confirm: nat :| ConfirmsAt(log, confirm, st.confirmAt.value) && StartedBefore(log, confirm);
    var running: nat :| ConfirmsRunningAt(log, running, st.confirmRunningAt.value) && ConfirmedBefore(log, running);
    EarlierByClock(log, start, confirm);
    EarlierByClock(log, confirm, finish);
    EarlierByClock(log, confirm, running);
    SameBackground(kinds, log, start, finish);
    assert ConcurrentAt(log, st, start, confirm, finish, running);
  }

  lemma PassHasStamps(st: TestState)
    requires Issues(st) == []
    ensures st.backgroundStartedAt.Some? && st.backgroundFinishedAt.Some?
      && st.confirmAt.Some? && st.confirmRunningAt.Some?
    ensures st.backgroundStartedAt.value <= st.confirmAt.value <= st.backgroundFinishedAt.value
    ensures st.confirmAt.value <= st.confirmRunningAt.value && st.backgroundHto != ""
  {
  }

  // ----- The documented order passes

  /** One process from load to save, `before`, `within` and `after` seconds passing in between. */
  function Turn(p: nat, before: nat, within: nat, after: nat): seq<Step> {
    [Tick(before), Load(p, true), Tick(within), TakeStamp(p), Tick(after), Save(p, true)]
  }

  /** The background task from its wake-up to its second save. */
  function Finish(p: nat, before: nat, within: nat, after: nat): seq<Step> {
    [Tick(before), Wake(p, true), Tick(within), TakeStamp(p), Tick(after), Save(p, true)]
  }

  lemma {:induction false} RunInTwo(w: World, first: seq<Step>, second: seq<Step>)
    requires Run(w, first).Some?
    ensures Run(w, first + second) == Run(Run(w, first).value, second)
    decreases |first|
  {
    if first == [] {
      assert first + second == second;
    } else {
      assert (first + second)[1..] == first[1..] + second;
      RunInTwo(Next(w, first[0]).value, first[1..], second);
    }
  }

  lemma TickNext(w: World, elapsed: nat)
    ensures Next(w, Tick(elapsed)) == Some(w.(clock := w.clock + elapsed))
  {
  }

  lemma LoadNext(w: World, p: nat, base: TestState)
    requires p in w.kinds && !w.kinds[p].Verify? && PcOf(w, p).Idle?
    requires if w.kinds[p].Hello? then base == BLANK else w.file == Some(base) && MayGoOn(w.kinds[p], base)
    ensures Next(w, Load(p, true)) == Some(SetPc(w, p, Loaded(base)))
  {
    hide MayGoOn;
  }

  lemma StampNext(w: World, p: nat, base: TestState)
    requires p in w.kinds && PcOf(w, p) == Loaded(base)
    ensures Next(w, TakeStamp(p))
         == Some(SetPc(w.(log := w.log + [Stamp(w.kinds[p], p, w.clock)]), p,
           Stamped(Updated(w.kinds[p], base, w.clock))))
  {
    hide Updated;
  }

  lemma SaveNext(w: World, p: nat, st: TestState)
    requires p in w.kinds && PcOf(w, p) == Stamped(st)
    ensures Next(w, Save(p, true))
         == Some(SetPc(w.(file := Some(st)), p, if w.kinds[p].Background? then Sleeping(st) else Ended))
  {
  }

  /** A process that nobody interrupts puts its stamp into the shared file. */
  lemma TurnUpdatesFile(w: World, p: nat, before: nat, within: nat, after: nat)
    requires p in w.kinds && !w.kinds[p].Verify? && PcOf(w, p).Idle?
    requires !w.kinds[p].Hello? ==> w.file.Some? && MayGoOn(w.kinds[p], w.file.value)
    ensures Run(w, Turn(p, before, within, after)).Some?
    ensures var kind, at := w.kinds[p], w.clock + before + within;
            var st := Updated(kind, if kind.Hello? then BLANK else w.file.value, at);
            Run(w, Turn(p, before, within, after)).value
              == World(Some(st), at + after, w.kinds, w.pcs[p := if kind.Background? then Sleeping(st) else Ended],
                       w.log + [Stamp(kind, p, at)])
  {
    hide MayGoOn, Updated, Run, Next;
    var kind, at := w.kinds[p], w.clock + before + within;
    var base := if kind.Hello? then BLANK else w.file.value;
    var w1 := w.(clock := w.clock + before);
    TickNext(w, before);
    LoadNext(w1, p, base);
    var w2 := SetPc(w1, p, Loaded(base));
    TickNext(w2, within);
    var w3 := w2.(clock := at);
    StampNext(w3, p, base);
    var w4 := SetPc(w3.(log := w.log + [Stamp(kind, p, at)]), p, Stamped(Updated(kind, base, at)));
    var w5 := w4.(clock := at + after);
    TickNext(w4, after);
    var st := Updated(kind, base, at);
    SaveNext(w5, p, st);
    var pc := if kind.Background? then Sleeping(st) else Ended;
    assert w5.pcs[p := pc] == w.pcs[p := pc];
    var last := World(Some(st), at + after, w.kinds, w.pcs[p := pc], w.log + [Stamp(kind, p, at)]);
    RunOfSix(w, w1, w2, w3, w4, w5, last, Turn(p, before, within, after));
  }

  lemma FinishUpdatesFile(w: World, p: nat, before: nat, within: nat, after: nat)
    requires p in w.kinds && PcOf(w, p).Sleeping? && w.file.Some?
    ensures Run(w, Finish(p, before, within, after)).Some?
    ensures var at := w.clock + before + within;
            var st := w.file.value.(backgroundFinishedAt := Some(at),
                                          steps := w.file.value.steps + ["background_finished"]);
            Run(w, Finish(p, before, within, after)).value
              == World(Some(st), at + after, w.kinds, w.pcs[p := Ended], w.log + [FinishStamp(p, at)])
  {
    hide MayGoOn, Updated, Run;
    var at := w.clock + before + within;
    var w1 := w.(clock := w.clock + before);
    var w2 := SetPc(w1, p, Woken(w.file.value));
    var w3 := w2.(clock := at);
    var w4 := Next(w3, TakeStamp(p)).value;
    var w5 := w4.(clock := at + after);
    var last := Next(w5, Save(p, true)).value;
    RunOfSix(w, w1, w2, w3, w4, w5, last, Finish(p, before, within, after));
    assert last.pcs == w.pcs[p := Ended];
  }

  lemma RunOfSix(w: World, w1: World, w2: World, w3: World, w4: World, w5: World, last: World, steps: seq<Step>)
    requires |steps| == 6
    requires Next(w, steps[0]) == Some(w1) && Next(w1, steps[1]) == Some(w2) && Next(w2, steps[2]) == Some(w3)
    requires Next(w3, steps[3]) == Some(w4) && Next(w4, steps[4]) == Some(w5) && Next(w5, steps[5]) == Some(last)
    ensures Run(w, steps) == Some(last)
  {
    hide Next;
    assert Run(last, steps[6..]) == Some(last);
    assert steps[5..][1..] == steps[6..] && Run(w5, steps[5..]) == Some(last);
    assert steps[4..][1..] == steps[5..] && Run(w4, steps[4..]) == Some(last);
    assert steps[3..][1..] == steps[4..] && Run(w3, steps[3..]) == Some(last);
    assert steps[2..][1..] == steps[3..] && Run(w2, steps[2..]) == Some(last);
    assert steps[1..][1..] == steps[2..] && Run(w1, steps[1..]) == Some(last);
  }

  datatype Pause = Pause(before: nat, within: nat, after: nat)

  function TurnOf(p: nat, pause: Pause): seq<Step> {
    Turn(p, pause.before, pause.within, pause.after)
  }

  function FinishOf(p: nat, pause: Pause): seq<Step> {
    Finish(p, pause.before, pause.within, pause.after)
  }

  /** The documented order; the report of the running task may come before or after its end. */
  function Documented(h: nat, b: nat, c: nat, r: nat, pauses: seq<Pause>, late: bool): seq<Step>
    requires |pauses| == 5
  {
    TurnOf(h, pauses[0]) + (TurnOf(b, pauses[1]) + (TurnOf(c, pauses[2]) +
      (if late then FinishOf(b, pauses[4]) + TurnOf(r, pauses[3]) else TurnOf(r, pauses[3]) + FinishOf(b, pauses[4]))))
  }

  /** When the steps follow the documented order without overlap and HTO is set, verify passes. */
  lemma DocumentedOrderPasses(w: World, h: nat, b: nat, c: nat, r: nat, v: nat, pauses: seq<Pause>,
                              late: bool, rest: nat)
    requires Initial(w) && |pauses| == 5
    requires {h, b, c, r, v} <= w.kinds.Keys
    requires w.kinds[h].Hello? && w.kinds[b].Background? && w.kinds[b].hto != ""
    requires w.kinds[c].Confirm? && w.kinds[r].ConfirmRunning? && w.kinds[v].Verify?
    ensures var run := Run(w, Documented(h, b, c, r, pauses, late) + [Tick(rest), Load(v, true)]);
            run.Some? && exists st :: Pass(v, st) in run.value.log
  {
    hide Run, Documented;
    var ready := TurnsInOrder(w, h, b, c, r, v, pauses, late);
    var st := ready.file.value;
    RunInTwo(w, Documented(h, b, c, r, pauses, late), [Tick(rest), Load(v, true)]);
    var w1 := ready.(clock := ready.clock + rest);
    var w2 := SetPc(w1.(log := w1.log + [Pass(v, st)]), v, Loaded(st));
    VerifyChecks(st);
    RunOfTwo(ready, w1, w2, [Tick(rest), Load(v, true)]);
    assert w2.log[|w1.log|] == Pass(v, st);
  }

  lemma RunOfTwo(w: World, w1: World, w2: World, steps: seq<Step>)
    requires |steps| == 2 && Next(w, steps[0]) == Some(w1) && Next(w1, steps[1]) == Some(w2)
    ensures Run(w, steps) == Some(w2)
  {
    hide Next;
    assert steps[1..][1..] == [] && Run(w2, []) == Some(w2);
    assert Run(w1, steps[1..]) == Some(w2);
  }

  /** The run up to the verification leaves a file without issues. */
  lemma TurnsInOrder(w: World, h: nat, b: nat, c: nat, r: nat, v: nat, pauses: seq<Pause>, late: bool)
    returns (ready: World)
    requires Initial(w) && |pauses| == 5
    requires {h, b, c, r, v} <= w.kinds.Keys
    requires w.kinds[h].Hello? && w.kinds[b].Background? && w.kinds[b].hto != ""
    requires w.kinds[c].Confirm? && w.kinds[r].ConfirmRunning? && w.kinds[v].Verify?
    ensures Run(w, Documented(h, b, c, r, pauses, late)) == Some(ready)
    ensures ready.kinds == w.kinds && PcOf(ready, v).Idle? && ready.file.Some? && Issues(ready.file.value) == []
  {
    hide Run, Next, Turn, Finish;
    var w1 := AfterTurn(w, h, pauses[0]);
    var w2 := AfterTurn(w1, b, pauses[1]);
    var w3 := AfterTurn(w2, c, pauses[2]);
    var w4, end;
    if late {
      w4 := AfterFinish(w3, b, pauses[4]);
      ready := AfterTurn(w4, r, pauses[3]);
      end := FinishOf(b, pauses[4]) + TurnOf(r, pauses[3]);
      RunInTwo(w3, FinishOf(b, pauses[4]), TurnOf(r, pauses[3]));
    } else {
      w4 := AfterTurn(w3, r, pauses[3]);
      ready := AfterFinish(w4, b, pauses[4]);
      end := TurnOf(r, pauses[3]) + FinishOf(b, pauses[4]);
      RunInTwo(w3, TurnOf(r, pauses[3]), FinishOf(b, pauses[4]));
    }
    RunInTwo(w2, TurnOf(c, pauses[2]), end);
    RunInTwo(w1, TurnOf(b, pauses[1]), TurnOf(c, pauses[2]) + end);
    RunInTwo(w, TurnOf(h, pauses[0]), TurnOf(b, pauses[1]) + (TurnOf(c, pauses[2]) + end));
  }

  lemma AfterTurn(w: World, p: nat, pause: Pause) returns (next: World)
    requires p in w.kinds && !w.kinds[p].Verify? && PcOf(w, p).Idle?
    requires !w.kinds[p].Hello? ==> w.file.Some? && MayGoOn(w.kinds[p], w.file.value)
    ensures Run(w, TurnOf(p, pause)) == Some(next) && next.kinds == w.kinds
    ensures w.clock <= w.clock + pause.before + pause.within <= next.clock
    ensures next.file ==
      Some(Updated(w.kinds[p], if w.kinds[p].Hello? then BLANK else w.file.value,
                   w.clock + pause.before + pause.within))
    ensures next.pcs == w.pcs[p := if w.kinds[p].Background? then Sleeping(next.file.value) else Ended]
  {
    hide Run, Next, Updated, MayGoOn, Turn;
    TurnUpdatesFile(w, p, pause.before, pause.within, pause.after);
    next := Run(w, TurnOf(p, pause)).value;
  }

  lemma AfterFinish(w: World, p: nat, pause: Pause) returns (next: World)
    requires p in w.kinds && PcOf(w, p).Sleeping? && w.file.Some?
    ensures Run(w, FinishOf(p, pause)) == Some(next) && next.kinds == w.kinds
    ensures w.clock <= w.clock + pause.before + pause.within <= next.clock
    ensures next.file == Some(w.file.value.(backgroundFinishedAt := Some(w.clock + pause.before + pause.within),
                                           steps := w.file.value.steps + ["background_finished"]))
    ensures next.pcs == w.pcs[p := Ended]
  {
    hide Run, Next, Finish;
    FinishUpdatesFile(w, p, pause.before, pause.within, pause.after);
    next := Run(w, FinishOf(p, pause)).value;
  }
}
