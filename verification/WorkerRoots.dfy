/**
 Whoever takes a session for idle has seen every process that its record names gone
 (cmd/harnez/agent_stop.go, agent_async.go): the worker, the provider and the wrapper.  A process id is
 never used again, so they stay gone.
 */
module WorkerRoots {
  import opened WorkerProtocol
  import opened WorkerGuarantees

  predicate Gone(s: State, pid: Pid) {
    pid == 0 || (pid in s.used && pid !in s.alive)
  }

  /** The worker, its provider and its wrapper are gone. */
  predicate AllGone(s: State, r: Record) {
    Gone(s, r.processPid) && Gone(s, r.providerPid) && Gone(s, r.workerPid)
  }

  /** While a running record names no worker yet, the process that wrote it counts. */
  predicate CallerGone(s: State, r: Record) {
    r.status == Running && r.processPid == 0 ==> Gone(s, r.callerPid)
  }

  /** Every process the record names has existed. */
  predicate Known(s: State, r: Record) {
    && (r.processPid == 0 || r.processPid in s.used) && (r.providerPid == 0 || r.providerPid in s.used)
    && (r.workerPid == 0 || r.workerPid in s.used) && (r.callerPid == 0 || r.callerPid in s.used)
  }

  predicate WorkerKnows(s: State) {
    match s.workerPc
    case Ready(local) => Known(s, local)
    case InTurn(local) => Known(s, local)
    case CopyingProvider(local, copy) => Known(s, local) && Known(s, copy)
    case CopyingSession(local, copy) => Known(s, local) && Known(s, copy)
    case Collecting(out) => Known(s, out)
    case Publishing(out, _) => Known(s, out)
    case FinishSaving(copy) => Known(s, copy)
    case _ => true
  }

  predicate WaiterSees(s: State, pc: WaiterPc) {
    match pc
    case Scanning(sess) => Known(s, sess)
    case Probing(sess, busy) => Known(s, sess) && (!busy ==> AllGone(s, sess))
    case Rereading(sess) => Known(s, sess) && AllGone(s, sess)
    case Deciding(sess, idle) => Known(s, sess) && (idle ==> AllGone(s, sess))
    case Giving(sess) => Known(s, sess) && AllGone(s, sess)
    case _ => true
  }

  predicate ResumerSees(s: State) {
    match s.resumer
    case Found(sess) => Known(s, sess)
    case Overwriting(sess) => Known(s, sess) && AllGone(s, sess) && CallerGone(s, sess)
    case _ => true
  }

  predicate Records(s: State) {
    && s.alive <= s.used && 0 !in s.used
    && (s.worker == 0 || s.worker in s.used) && s.launcher in s.used
    && Known(s, s.previous) && (!s.launcherPc.Preparing? && !s.launcherPc.LauncherDone? ==> Known(s, s.sess))
    && (s.stored.Some? ==> Known(s, s.stored.value))
  }

  ghost predicate Sightings(s: State) {
    && Records(s) && WorkerKnows(s) && ResumerSees(s)
    && (forall w | w in s.waiters :: WaiterSees(s, s.waiters[w]))
    && (forall w, r | WaiterReturned(w, r) in s.log :: AllGone(s, r))
  }

  /** The records that are left from earlier turns name processes that have existed. */
  predicate KnownAtStart(s: State) {
    && Known(s, s.previous)
    && forall w | w in s.waiters ::
         match s.waiters[w]
         case Scanning(sess) => Known(s, sess)
         case Probing(sess, _) => Known(s, sess)
         case Rereading(sess) => Known(s, sess)
         case Deciding(sess, _) => Known(s, sess)
         case Giving(sess) => Known(s, sess)
         case _ => true
  }

  /** No root alive means that every process the record names is gone. */
  lemma NoRootMeansGone(s: State, r: Record)
    requires NoRootAlive(s, r) && Known(s, r)
    ensures AllGone(s, r) && CallerGone(s, r)
  {
    var roots := SessionRoots(r);
    assert roots[0] in roots;
    assert r.providerPid > 0 ==> roots[1] == r.providerPid && roots[1] in roots;
    if r.workerPid > 0 && r.workerPid != r.processPid {
      assert roots[|roots| - 1] == r.workerPid && roots[|roots| - 1] in roots;
    }
  }

  lemma InitialSightings(s: State)
    requires Initial(s) && KnownAtStart(s)
    ensures Sightings(s)
  {
    forall w | w in s.waiters
      ensures WaiterSees(s, s.waiters[w])
    {
      match s.waiters[w]
      case Probing(sess, busy) => if !busy { NoRootMeansGone(s, sess); }
      case Rereading(sess) => NoRootMeansGone(s, sess);
      case Deciding(sess, idle) => if idle { NoRootMeansGone(s, sess); }
      case Giving(sess) => NoRootMeansGone(s, sess);
      case _ =>
    }
  }

  /** Processes that are gone stay gone, and known ones known. */
  ghost predicate Later(before: State, after: State) {
    before.used <= after.used && forall pid | pid in before.used && pid !in before.alive :: pid !in after.alive
  }

  lemma StillGone(before: State, after: State)
    requires Later(before, after)
    ensures forall r :: (Known(before, r) ==> Known(after, r)) && (AllGone(before, r) ==> AllGone(after, r))
    ensures forall r :: CallerGone(before, r) ==> CallerGone(after, r)
    ensures forall pc :: WaiterSees(before, pc) ==> WaiterSees(after, pc)
  {
  }

  lemma NextIsLater(s: State, step: Step)
    requires Records(s) && Next(s, step).Some?
    ensures Later(s, Next(s, step).value)
  {
  }

  lemma StillKnown(before: State, after: State)
    requires before.used <= after.used
    ensures forall r :: Known(before, r) ==> Known(after, r)
  {
  }

  /** The waiters and the resumer have seen what they have seen. */
  lemma OthersHaveSeen(before: State, after: State)
    requires Sightings(before) && Later(before, after) && Records(after) && WorkerKnows(after)
    requires after.waiters == before.waiters && after.resumer == before.resumer
    requires forall w, r :: WaiterReturned(w, r) in after.log ==> WaiterReturned(w, r) in before.log
    ensures Sightings(after)
  {
    StillGone(before, after);
    hide Records, WorkerKnows, WaiterSees, AllGone;
  }

  lemma LauncherKeepsRecords(s: State, step: LauncherStep)
    requires Records(s) && WorkerKnows(s) && LauncherNext(s, step).Some?
    ensures Records(LauncherNext(s, step).value) && WorkerKnows(LauncherNext(s, step).value)
  {
    StillKnown(s, LauncherNext(s, step).value);
    if !step.StoreRunning? && !step.GiveUp? {
      hide WorkerKnows;
    } else {
      hide RunningRecord;
    }
  }

  lemma LauncherKeepsSightings(s: State, step: LauncherStep)
    requires Sightings(s) && LauncherNext(s, step).Some?
    ensures Sightings(LauncherNext(s, step).value)
  {
    LauncherKeepsRecords(s, step);
    NextIsLater(s, Launcher(step));
    hide Records, WorkerKnows, Known, WaiterSees, ResumerSees, AllGone, Later, RunningRecord;
    OthersHaveSeen(s, LauncherNext(s, step).value);
  }

  lemma WorkerKeepsRecords(s: State, step: WorkerStep)
    requires Records(s) && WorkerKnows(s) && WorkerNext(s, step).Some?
    ensures Records(WorkerNext(s, step).value) && WorkerKnows(WorkerNext(s, step).value)
  {
    StillKnown(s, WorkerNext(s, step).value);
  }

  lemma WorkerLeaves(s: State, step: WorkerStep)
    requires WorkerNext(s, step).Some?
    ensures var next := WorkerNext(s, step).value;
            && next.waiters == s.waiters && next.resumer == s.resumer
            && forall w, r :: WaiterReturned(w, r) in next.log ==> WaiterReturned(w, r) in s.log
  {
    hide EndTurn, Concluded;
  }

  lemma WorkerKeepsSightings(s: State, step: WorkerStep)
    requires Sightings(s) && WorkerNext(s, step).Some?
    ensures Sightings(WorkerNext(s, step).value)
  {
    WorkerLeaves(s, step);
    WorkerKeepsRecords(s, step);
    NextIsLater(s, Worker(step));
    hide WorkerNext, Records, WorkerKnows, Known, WaiterSees, ResumerSees, AllGone, Later;
    OthersHaveSeen(s, WorkerNext(s, step).value);
  }

  lemma WaiterSeesNext(s: State, w: nat, step: WaiterStep)
    requires Records(s) && WaiterSees(s, WaiterPcOf(s, w)) && WaiterNext(s, w, step).Some?
    ensures WaiterSees(s, WaiterNext(s, w, step).value.waiters[w])
    ensures step.Decide? && WaiterPcOf(s, w).idle ==> AllGone(s, WaiterPcOf(s, w).sess)
  {
    if step.Scan? && !step.busy {
      NoRootMeansGone(s, WaiterPcOf(s, w).sess);
    }
    hide AllGone, CallerGone, NoRootAlive, Known;
    if step.SaveFailed? {
      hide WaiterSees, Records;
    }
  }

  lemma WaiterKeepsRecords(s: State, w: nat, step: WaiterStep)
    requires Records(s) && WaiterSees(s, WaiterPcOf(s, w)) && WaiterNext(s, w, step).Some?
    ensures Records(WaiterNext(s, w, step).value)
  {
    hide AllGone, CallerGone, NoRootAlive, WaiterSees;
    if step.SaveFailed? && step.ok {
      var sess := WaiterPcOf(s, w).sess;
      GivingKnown(s, sess);
      StillKnown(s, WaiterNext(s, w, step).value);
    } else {
      hide Known;
      assert WaiterNext(s, w, step).value.stored == s.stored;
    }
  }

  lemma GivingKnown(s: State, sess: Record)
    requires WaiterSees(s, Giving(sess))
    ensures Known(s, sess) && Known(s, GivenUp(sess))
  {
  }

  lemma WaiterKeepsSightings(s: State, w: nat, step: WaiterStep)
    requires Sightings(s) && WaiterNext(s, w, step).Some?
    ensures Sightings(WaiterNext(s, w, step).value)
  {
    var next := WaiterNext(s, w, step).value;
    WaiterSeesNext(s, w, step);
    WaiterKeepsRecords(s, w, step);
    NextIsLater(s, Waiter(w, step));
    StillGone(s, next);
    assert next == s.(waiters := next.waiters, stored := next.stored, log := next.log);
    assert next.waiters == s.waiters[w := next.waiters[w]];
    assert WaiterSees(next, next.waiters[w]);
    assert WorkerKnows(next) && ResumerSees(next);
    hide WaiterSees, AllGone, Known, CallerGone, NoRootAlive, WorkerKnows, ResumerSees, Records, SessionRoots;
    assert forall v, r | WaiterReturned(v, r) in next.log ::
      WaiterReturned(v, r) in s.log || (step.Decide? && WaiterPcOf(s, w).idle && r == WaiterPcOf(s, w).sess);
  }

  lemma ResumerKeepsSightings(s: State, step: ResumerStep)
    requires Sightings(s) && ResumerNext(s, step).Some?
    ensures Sightings(ResumerNext(s, step).value)
  {
    var next := ResumerNext(s, step).value;
    StillGone(s, next);
    if step.ScanWriters? && !step.busy {
      NoRootMeansGone(s, s.resumer.sess);
    }
    hide AllGone, NoRootAlive, WaiterSees, WorkerKnows;
    assert next.waiters == s.waiters && next.workerPc == s.workerPc;
    SameWorkerKnows(s, next);
  }

  lemma SameWorkerKnows(before: State, after: State)
    requires WorkerKnows(before) && before.used <= after.used && after.workerPc == before.workerPc
    ensures WorkerKnows(after)
  {
    StillKnown(before, after);
  }

  lemma DeathKeepsSightings(s: State, pid: Pid)
    requires Sightings(s) && pid in s.alive
    ensures Sightings(Next(s, Die(pid)).value)
  {
    var next := Next(s, Die(pid)).value;
    StillKnown(s, next);
    SameWorkerKnows(s, next);
    hide WorkerKnows, WaiterSees, AllGone;
    OthersHaveSeen(s, next);
  }

  lemma NextKeepsSightings(s: State, step: Step)
    requires Sightings(s) && Next(s, step).Some?
    ensures Sightings(Next(s, step).value)
  {
    hide Sightings, LauncherNext, WorkerNext, WaiterNext, ResumerNext;
    match step
    case Launcher(l) => LauncherKeepsSightings(s, l);
    case Worker(w) => WorkerKeepsSightings(s, w);
    case Waiter(id, w) => WaiterKeepsSightings(s, id, w);
    case Resumer(r) => ResumerKeepsSightings(s, r);
    case Die(pid) => DeathKeepsSightings(s, pid);
  }

  lemma {:induction false} RunKeepsSightings(s: State, steps: seq<Step>)
    requires Sightings(s) && Run(s, steps).Some?
    ensures Sightings(Run(s, steps).value)
    decreases |steps|
  {
    if steps != [] {
      hide Sightings, Next;
      NextKeepsSightings(s, steps[0]);
      RunKeepsSightings(Next(s, steps[0]).value, steps[1..]);
    }
  }

  /** In every run, resumers included: when a waiter has returned a record, or is about to fail one, every process
      that the record names is gone, the provider too; and a resumer that overwrites a record has seen the same,
      and that the writer of a record without a worker is gone. */
  lemma IdleMeansGone(s: State, steps: seq<Step>)
    requires Initial(s) && KnownAtStart(s) && Run(s, steps).Some?
    ensures var end := Run(s, steps).value;
            && (forall w, r | WaiterReturned(w, r) in end.log ::
                  r.processPid !in end.alive && r.providerPid !in end.alive && r.workerPid !in end.alive)
            && (forall w | w in end.waiters && end.waiters[w].Giving? ::
                  var r := end.waiters[w].sess;
                  r.processPid !in end.alive && r.providerPid !in end.alive && r.workerPid !in end.alive)
            && (end.resumer.Overwriting? ==>
                  var r := end.resumer.sess;
                  && r.processPid !in end.alive && r.providerPid !in end.alive && r.workerPid !in end.alive
                  && (r.status == Running && r.processPid == 0 ==> r.callerPid !in end.alive))
  {
    InitialSightings(s);
    RunKeepsSightings(s, steps);
    hide Run, Initial;
    var end := Run(s, steps).value;
    assert forall w | w in end.waiters :: WaiterSees(end, end.waiters[w]);
  }
}
