/**
 The identity a resumed worker leaves in its record.  `agent wait` is to return only after the
 worker process has exited (issues/795); on the resume path the record names the worker until
 the end, and it does.
 */
module WorkerExit {
  import opened WorkerProtocol
  import opened WorkerGuarantees

  /** A record of this session: while it names a process it names the registered worker. */
  predicate Marked(s: State, r: Record) {
    && (r.workerPid == 0 || r.workerPid in s.used)
    && (r.processPid > 0 ==> r.workerPid == s.worker)
  }

  /** Whoever found no process of the record alive has seen the worker dead. */
  predicate SeenDead(s: State, r: Record) {
    r.workerPid == s.worker && s.worker > 0 ==> s.worker !in s.alive
  }

  /** A waiter's copy: while it names the worker's process it names the worker, but it may be of an
      earlier turn. */
  predicate HeldMark(s: State, r: Record) {
    && (r.workerPid == 0 || r.workerPid in s.used)
    && (r.processPid > 0 && r.processPid == s.worker ==> r.workerPid == s.worker)
  }

  predicate WaiterMarks(s: State, pc: WaiterPc) {
    match pc
    case Finding => true
    case Scanning(sess) => HeldMark(s, sess)
    case Probing(sess, busy) => HeldMark(s, sess) && (!busy ==> SeenDead(s, sess))
    case Rereading(sess) => HeldMark(s, sess) && SeenDead(s, sess)
    case Deciding(sess, idle) => HeldMark(s, sess) && (idle ==> SeenDead(s, sess))
    case Giving(sess) => sess.workerPid == s.worker
    case Returned(_) => true
  }

  predicate WorkerMarks(s: State) {
    match s.workerPc
    case Ready(local) => local.workerPid == s.worker
    case InTurn(local) => local.workerPid == s.worker
    case CopyingProvider(local, copy) => local.workerPid == copy.workerPid == s.worker
    case CopyingSession(_, _) => false
    case Collecting(_) => false
    case Interrupting => false
    case Publishing(out, _) => out.workerPid == s.worker
    case FinishSaving(copy) => copy.workerPid == s.worker
    case _ => true
  }

  predicate EventMarks(s: State, e: Event) {
    && (e.WorkerPublished? ==> e.r.workerPid == s.worker && s.worker > 0)
    && (e.WaiterReturned? ==> (e.r.workerPid == 0 || e.r.workerPid in s.used) && SeenDead(s, e.r))
  }

  predicate LogMarks(s: State) {
    forall e | e in s.log :: EventMarks(s, e)
  }

  predicate LauncherMarks(s: State) {
    && (s.launcherPc.Preparing? ==> Marked(s, s.previous))
    && (s.launcherPc.Launching? || s.launcherPc.NotStarted? ==> Marked(s, s.sess) && Marked(s, s.previous))
    && (s.launcherPc.Registering? ==> s.sess.workerPid == s.worker)
  }

  predicate Marks(s: State) {
    && s.path == ForegroundResume
    && (s.stored.Some? ==> Marked(s, s.stored.value) && (IsRegistered(s) ==> s.stored.value.workerPid == s.worker))
    && LauncherMarks(s) && WorkerMarks(s) && LogMarks(s)
    && (forall w | w in s.waiters :: WaiterMarks(s, s.waiters[w]))
  }

  lemma InitialMarks(s: State)
    requires Initial(s) && SafeStart(s) && s.path == ForegroundResume
    ensures Marks(s)
  {
  }

  /** Adding an event that is no registration keeps the marks of everything else. */
  lemma LogKeepsMarks(s: State, e: Event)
    requires Marks(s) && EventMarks(s, e) && !e.Registers?
    ensures Marks(Log(s, e))
  {
    var next := Log(s, e);
    forall x | x in next.log
      ensures EventMarks(next, x)
    {
      assert x in s.log || x == e;
    }
  }

  lemma SpawnKeepsMarks(s: State, pid: Pid)
    requires Inv(s) && Marks(s) && LauncherNext(s, Spawn(pid, true)).Some?
    ensures Marks(LauncherNext(s, Spawn(pid, true)).value)
  {
    var next := LauncherNext(s, Spawn(pid, true)).value;
    GoodHistoryOfNewWorker(s.log, s.used, s.worker, pid);
    forall x | x in next.log
      ensures EventMarks(next, x)
    {
      assert x in s.log || x == Spawned(pid);
      assert x in s.log ==> EventMarks(s, x);
    }
    forall w | w in next.waiters
      ensures WaiterMarks(next, next.waiters[w])
    {
      assert WaiterInv(s, s.waiters[w]) && WaiterMarks(s, s.waiters[w]);
    }
  }

  lemma RegisterKeepsMarks(s: State)
    requires Inv(s) && Marks(s) && LauncherNext(s, Register(true)).Some?
    ensures Marks(LauncherNext(s, Register(true)).value)
  {
    var next := LauncherNext(s, Register(true)).value;
    forall x | x in next.log
      ensures EventMarks(next, x)
    {
      assert x in s.log || x == Registers(s.worker);
    }
  }

  lemma DeathKeepsMarks(s: State, pid: Pid)
    requires Marks(s) && pid in s.alive
    ensures Marks(Next(s, Die(pid)).value)
  {
    var thinned := s.(alive := s.alive - {pid});
    assert Marks(thinned) by {
      forall x | x in thinned.log
        ensures EventMarks(thinned, x)
      {
        assert EventMarks(s, x);
      }
    }
    LogKeepsMarks(thinned, Died(pid));
  }

  lemma LauncherKeepsMarks(s: State, step: LauncherStep)
    requires Inv(s) && Marks(s) && LauncherNext(s, step).Some?
    ensures Marks(LauncherNext(s, step).value)
  {
    hide GoodHistory, HasDied, PublishedIn;
    match step
    case Spawn(pid, true) => SpawnKeepsMarks(s, pid);
    case Register(true) => RegisterKeepsMarks(s);
    case Kill =>
      if s.worker in s.alive {
        DeathKeepsMarks(s, s.worker);
      } else {
        LogKeepsMarks(s, Died(s.worker));
      }
    case StoreRunning(true) => LogKeepsMarks(s, LauncherWrote(RunningRecord(s)));
    case GiveUp(true) => LogKeepsMarks(s, LauncherWrote(s.previous));
    case _ =>
  }

  lemma WorkerKeepsMarks(s: State, step: WorkerStep)
    requires Inv(s) && Marks(s) && WorkerNext(s, step).Some?
    ensures Marks(WorkerNext(s, step).value)
  {
    hide GoodHistory, HasDied, PublishedIn;
    var next := WorkerNext(s, step).value;
    forall x | x in next.log
      ensures EventMarks(next, x)
    {
      assert x in s.log ==> EventMarks(s, x);
    }
    forall w | w in next.waiters
      ensures WaiterMarks(next, next.waiters[w])
    {
      assert WaiterMarks(s, s.waiters[w]);
    }
  }

  lemma WaiterMoveKeepsMarks(s: State, w: nat, pc: WaiterPc)
    requires Marks(s) && WaiterMarks(s, pc)
    ensures Marks(SetWaiter(s, w, pc))
  {
    hide GoodHistory, HasDied, PublishedIn;
    var next := SetWaiter(s, w, pc);
    forall x | x in next.log
      ensures EventMarks(next, x)
    {
      assert EventMarks(s, x);
    }
    forall v | v in next.waiters
      ensures WaiterMarks(next, next.waiters[v])
    {
      assert v != w ==> WaiterMarks(s, s.waiters[v]);
    }
  }

  lemma StoredKeepsMarks(s: State, r: Record)
    requires Marks(s) && Marked(s, r) && r.workerPid == s.worker
    ensures Marks(s.(stored := Some(r)))
  {
    hide GoodHistory, HasDied, PublishedIn;
    var next := s.(stored := Some(r));
    forall x | x in next.log
      ensures EventMarks(next, x)
    {
      assert EventMarks(s, x);
    }
    forall v | v in next.waiters
      ensures WaiterMarks(next, next.waiters[v])
    {
      assert WaiterMarks(s, s.waiters[v]);
    }
  }

  lemma WaiterKeepsMarks(s: State, w: nat, step: WaiterStep)
    requires Inv(s) && Marks(s) && WaiterNext(s, w, step).Some?
    ensures Marks(WaiterNext(s, w, step).value)
  {
    hide GoodHistory, HasDied, PublishedIn, LogMarks;
    var pc := WaiterPcOf(s, w);
    var next := WaiterNext(s, w, step).value;
    assert WaiterMarks(s, pc) && WaiterInv(s, pc);
    if step.SaveFailed? && step.ok {
      var failed := s.(stored := Some(GivenUp(pc.sess)));
      StoredKeepsMarks(s, GivenUp(pc.sess));
      LogKeepsMarks(failed, WaiterFailed(w));
      WaiterMoveKeepsMarks(Log(failed, WaiterFailed(w)), w, next.waiters[w]);
    } else if step.Decide? && pc.sess.status != Running && pc.idle {
      LogKeepsMarks(s, WaiterReturned(w, pc.sess));
      WaiterMoveKeepsMarks(Log(s, WaiterReturned(w, pc.sess)), w, next.waiters[w]);
    } else {
      WaiterMoveKeepsMarks(s, w, next.waiters[w]);
    }
  }

  lemma NextKeepsMarks(s: State, step: Step)
    requires Inv(s) && Marks(s) && Next(s, step).Some? && !step.Resumer?
    ensures Marks(Next(s, step).value)
  {
    hide Inv, Marks;
    match step
    case Launcher(l) => LauncherKeepsMarks(s, l);
    case Worker(w) => WorkerKeepsMarks(s, w);
    case Waiter(id, w) => WaiterKeepsMarks(s, id, w);
    case Die(pid) => DeathKeepsMarks(s, pid);
  }

  lemma {:induction false} RunKeepsMarks(s: State, steps: seq<Step>)
    requires Inv(s) && Marks(s) && WithoutResumer(steps) && Run(s, steps).Some?
    ensures Marks(Run(s, steps).value)
    decreases |steps|
  {
    hide Inv, Marks;
    if steps != [] {
      assert steps[0] in steps;
      NextKeepsInv(s, steps[0]);
      NextKeepsMarks(s, steps[0]);
      RunKeepsMarks(Next(s, steps[0]).value, steps[1..]);
    }
  }

  /** `agent wait` kept its word: whoever returned what the worker published has outlived it. */
  ghost predicate WaitOutlives(end: State) {
    forall w, r | WorkerPublished(r) in end.log && WaiterReturned(w, r) in end.log :: end.worker !in end.alive
  }

  /** On the resume path, from a safe start, a waiter that has returned what the worker published proves
      that the worker process is gone. */
  lemma ResumeWaitOutlivesWorker(s: State, steps: seq<Step>)
    requires Initial(s) && SafeStart(s) && s.path == ForegroundResume
    requires WithoutResumer(steps) && Run(s, steps).Some?
    ensures WaitOutlives(Run(s, steps).value)
  {
    InitialInv(s);
    InitialMarks(s);
    RunKeepsInv(s, steps);
    RunKeepsMarks(s, steps);
    var end := Run(s, steps).value;
    forall w, r | WorkerPublished(r) in end.log && WaiterReturned(w, r) in end.log
      ensures end.worker !in end.alive
    {
      assert EventMarks(end, WorkerPublished(r)) && EventMarks(end, WaiterReturned(w, r));
    }
  }

  // ----- Where it does not

  /** The final record of a start turn names no worker, so a waiter can return it while the
      worker process is still alive. */
  lemma StartWaitReturnsEarly(s: State) returns (steps: seq<Step>, end: State)
    requires Initial(s) && s.path != ForegroundResume
    ensures WithoutResumer(steps) && Run(s, steps) == Some(end) && !WaitOutlives(end)
  {
    hide Run;
    var s1, s2, s3, r, pid, provider;
    var w := NewWaiter(s);
    steps, s1, pid, provider := LaunchedTurn(s);
    steps, s2, r := PublishedTurn(s, steps, s1);
    steps, s3 := WaiterThen(s, steps, s2, w, Find(true));
    steps, end := WaiterConcludes(s, steps, s3, w, r);
    assert WaiterReturned(w, r) in end.log;
  }

  /** From a resume that is not safe, a late waiter puts an earlier record in the place of the
      registered one; the worker goes on with that and publishes a record that does not name it. */
  lemma LateWaiterHidesWorker(s: State) returns (steps: seq<Step>, end: State)
    requires Initial(s) && !SafeStart(s)
    ensures WithoutResumer(steps) && Run(s, steps) == Some(end) && !WaitOutlives(end)
  {
    hide Run, Next;
    var s1, s2, s3, s4, w, sess;
    steps, s1, w, sess := LateWaiter(s);
    var pid := FreshPid(s.used + {sess.providerPid});
    steps, s2 := RegisteredWorker(s, steps, s1, pid);
    steps, s3 := WorkerThen(s, steps, s2, Poll(true));
    steps, s4 := WaiterThen(s, steps, s3, w, SaveFailed(true));
    EarlierRootsStayDead(s, s4, sess);
    steps, end := PublishedEarlierRecord(s, steps, s4, GivenUp(sess));
  }

  lemma EarlierRootsStayDead(before: State, after: State, sess: Record)
    requires NoRootAlive(before, sess) && sess.processPid > 0 && 0 !in before.used && before.alive <= before.used
    requires sess.workerPid > 0 ==> sess.workerPid in before.used
    requires exists pid ::
      pid !in before.used && pid > 0 && pid != sess.providerPid && after.alive == before.alive + {pid}
    ensures NoRootAlive(after, GivenUp(sess)) && (sess.providerPid > 0 ==> sess.providerPid !in after.alive)
  {
    var roots := SessionRoots(sess);
    assert roots[0] == sess.processPid && roots[0] in roots;
    if sess.providerPid > 0 {
      assert roots[1] == sess.providerPid && roots[1] in roots;
    }
    if sess.workerPid > 0 && sess.workerPid != sess.processPid {
      assert roots[|roots| - 1] == sess.workerPid && roots[|roots| - 1] in roots;
    }
  }

  lemma PublishedEarlierRecord(start: State, steps: seq<Step>, s: State, earlier: Record)
    returns (longer: seq<Step>, end: State)
    requires Run(start, steps) == Some(s) && s.path == ForegroundResume && s.workerPc.Registered? && s.worker in s.alive
    requires s.stored == Some(earlier) && earlier.status == Failed && earlier.processPid == 0
    requires s.alive <= s.used && 0 !in s.used && NoRootAlive(s, earlier)
    requires earlier.providerPid > 0 ==> earlier.providerPid !in s.alive
    ensures Run(start, longer) == Some(end) && (WithoutResumer(steps) ==> WithoutResumer(longer))
    ensures !WaitOutlives(end)
  {
    hide Run, Next;
    var s1, s2, s3, s4, r;
    longer, s1 := WorkerThen(start, steps, s, Load(true));
    var provider := FreshPid(s1.used + {earlier.providerPid, earlier.workerPid});
    longer, s2 := WorkerThen(start, longer, s1, BeginTurn(provider));
    longer, s3, r := PublishedResume(start, longer, s2, 1);
    var w := NewWaiter(s3);
    longer, s4 := WaiterThen(start, longer, s3, w, Find(true));
    assert NoRootAlive(s4, r);
    longer, end := WaiterConcludes(start, longer, s4, w, r);
    assert WorkerPublished(r) in end.log && WaiterReturned(w, r) in end.log;
  }

  /** `agent wait` outlives the worker in every run exactly on the resume path from a safe start. */
  lemma WaitOutlivesExactly(s: State)
    requires Initial(s)
    ensures (forall steps | WithoutResumer(steps) && Run(s, steps).Some? :: WaitOutlives(Run(s, steps).value))
       <==> s.path == ForegroundResume && SafeStart(s)
  {
    if s.path != ForegroundResume {
      var steps, end := StartWaitReturnsEarly(s);
    } else if !SafeStart(s) {
      var steps, end := LateWaiterHidesWorker(s);
    } else {
      forall steps | WithoutResumer(steps) && Run(s, steps).Some?
        ensures WaitOutlives(Run(s, steps).value)
      {
        ResumeWaitOutlivesWorker(s, steps);
      }
    }
  }
}
