/**
 The programs behind the protocol's steps (cmd/harnez/agent_async.go): the launcher's store, start
 and register sequence, the worker's poll for its registration and its closing write, and the
 polling loop of `agent wait`.  Between any two of its own accesses a program leaves the world to
 the other processes, which take arbitrary steps.
 */
module WorkerPrograms {
  import opened WorkerProtocol
  import opened WorkerGuarantees
  import opened WorkerOutcomes

  datatype Actor = TheLauncher | TheWorker | TheWaiter(id: nat)

  predicate By(step: Step, me: Actor) {
    match me
    case TheLauncher => step.Launcher?
    case TheWorker => step.Worker?
    case TheWaiter(id) => step.Waiter? && step.id == id
  }

  /** What nobody but `me` changes. */
  ghost predicate KeepsOwn(before: State, after: State, me: Actor) {
    match me
    case TheLauncher => KeepsLauncher(before, after)
    case TheWorker => KeepsWorker(before, after)
    case TheWaiter(id) => KeepsWaiter(before, after, id)
  }

  ghost predicate KeepsLauncher(before: State, after: State) {
    && after.launcherPc == before.launcherPc && after.sess == before.sess && after.worker == before.worker
    && forall pid :: Registers(pid) in after.log <==> Registers(pid) in before.log
  }

  ghost predicate KeepsWorker(before: State, after: State) {
    && before.worker > 0 && after.worker == before.worker
    && after.workerPc == before.workerPc && after.path == before.path && before.used <= after.used
    && forall e | IsWorkerEvent(e) :: e in after.log <==> e in before.log
  }

  ghost predicate KeepsWaiter(before: State, after: State, id: nat) {
    && WaiterPcOf(after, id) == WaiterPcOf(before, id)
    && (WaiterFailed(id) in after.log <==> WaiterFailed(id) in before.log)
  }

  lemma OthersKeepLauncher(s: State, step: Step)
    requires Next(s, step).Some? && !step.Launcher? && !step.Resumer?
    ensures KeepsLauncher(s, Next(s, step).value)
  {
  }

  lemma OthersKeepWorker(s: State, step: Step)
    requires Next(s, step).Some? && !step.Worker? && !step.Resumer? && s.worker > 0 && LauncherInv(s)
    ensures KeepsWorker(s, Next(s, step).value)
  {
  }

  lemma OthersKeepWaiter(s: State, step: Step, id: nat)
    requires Next(s, step).Some? && !(step.Waiter? && step.id == id) && !step.Resumer?
    ensures KeepsWaiter(s, Next(s, step).value, id)
  {
  }

  lemma OthersKeepOwn(s: State, step: Step, me: Actor)
    requires Next(s, step).Some? && !By(step, me)
      && !step.Resumer? && (me.TheWorker? ==> s.worker > 0 && LauncherInv(s))
    ensures KeepsOwn(s, Next(s, step).value, me)
  {
    hide Next, KeepsLauncher, KeepsWorker, KeepsWaiter, LauncherInv;
    match me
    case TheLauncher => OthersKeepLauncher(s, step);
    case TheWorker => OthersKeepWorker(s, step);
    case TheWaiter(id) => OthersKeepWaiter(s, step, id);
  }

  lemma KeepsOwnTrans(a: State, b: State, c: State, me: Actor)
    requires KeepsOwn(a, b, me) && KeepsOwn(b, c, me)
    ensures KeepsOwn(a, c, me)
  {
  }

  lemma KeepsOwnItself(s: State, me: Actor)
    requires me.TheWorker? ==> s.worker > 0
    ensures KeepsOwn(s, s, me) && (me.TheWorker? ==> s.worker > 0)
  {
  }

  lemma WorkerStays(before: State, after: State, me: Actor)
    requires KeepsOwn(before, after, me) && me.TheWorker?
    ensures after.worker > 0
  {
  }

  class World {
    var s: State
    const start: State
    ghost var steps: seq<Step>

    ghost predicate Valid()
      reads this
    {
      Initial(start) && SafeStart(start) && WithoutResumer(steps) && Run(start, steps) == Some(s)
    }

    constructor (start: State)
      requires Initial(start) && SafeStart(start)
      ensures Valid() && s == start && this.start == start
    {
      this.start, s, steps := start, start, [];
    }

    method Act(step: Step)
      requires Valid() && !step.Resumer? && Next(s, step).Some?
      modifies this
      ensures Valid() && s == Next(old(s), step).value && steps == old(steps) + [step]
    {
      hide Run, Next, Initial, SafeStart;
      RunExtends(start, steps, step);
      s := Next(s, step).value;
      steps := steps + [step];
    }

    /** Any steps of the other processes, deaths included. */
    method Others(me: Actor)
      requires Valid() && (me.TheWorker? ==> s.worker > 0)
      modifies this
      ensures Valid() && KeepsOwn(old(s), s, me)
    {
      hide Run, Next, Initial, SafeStart, KeepsOwn, WithoutResumer, By, Inv, LauncherInv;
      var n: int := *;
      KeepsOwnItself(s, me);
      while n > 0
        invariant Valid() && KeepsOwn(old(s), s, me)
      {
        n := n - 1;
        var step: Step := *;
        if !By(step, me) && !step.Resumer? && Next(s, step).Some? {
          Invariant();
          InvHasLauncher(s);
          if me.TheWorker? {
            WorkerStays(old(s), s, me);
          }
          OthersKeepOwn(s, step, me);
          ghost var before := s;
          Act(step);
          KeepsOwnTrans(old(s), before, s, me);
        }
      }
    }

    lemma Invariant()
      requires Valid()
      ensures Inv(s)
    {
      InitialInv(start);
      RunKeepsInv(start, steps);
    }

    lemma Guaranteed()
      requires Valid()
      ensures NothingLost(s.log, s.worker) && RegisteredFirst(s.log, s.worker)
      ensures PublishedIn(s.log) ==> s.stored.Some? && s.stored.value.status != Running
    {
      PublishedResultsAreSafe(start, steps);
    }
  }

  lemma InvHasLauncher(s: State)
    requires Inv(s)
    ensures LauncherInv(s)
  {
  }

  datatype WaitResult = WaitError | Ended(sess: Record) | Declared(sess: Record) | TimedOut(sess: Record)

  /** What one round of the loop has seen: an error, a record that changed during the scan, or a
      record and whether none of its processes was found. */
  datatype Look = LookError | Changed | Seen(sess: Record, idle: bool)

  method Scan(w: World, me: nat) returns (look: Look)
    requires w.Valid() && WaiterPcOf(w.s, me) == Finding && WaiterFailed(me) !in w.s.log
    modifies w
    ensures w.Valid() && WaiterFailed(me) !in w.s.log && !look.Changed?
    ensures look.Seen? ==> WaiterPcOf(w.s, me) == if look.idle then Rereading(look.sess) else Deciding(look.sess, false)
  {
    hide Run, Initial, SafeStart, WithoutResumer, LauncherNext, WorkerNext, ResumerNext, NoRootAlive;
    w.Others(TheWaiter(me));
    var found: bool := *;
    if !found || w.s.stored.None? {
      return LookError;
    }
    var sess := w.s.stored.value;
    w.Act(Waiter(me, Find(true)));
    w.Others(TheWaiter(me));
    var scanned: bool := *;
    if !scanned {
      return LookError;
    }
    var busy: bool := *;
    busy := busy || !NoRootAlive(w.s, sess);
    w.Act(Waiter(me, WaiterStep.Scan(busy)));
    w.Others(TheWaiter(me));
    var alive: bool := *;
    alive := alive || sess.processPid in w.s.alive;
    var wrapperExists := sess.processPid > 0 && alive;
    w.Act(Waiter(me, Probe(alive)));
    return Seen(sess, !busy && !wrapperExists);
  }

  /** Reads the record again if the scan found no process. */
  method LookAgain(w: World, me: nat) returns (look: Look)
    requires w.Valid() && WaiterPcOf(w.s, me) == Finding && WaiterFailed(me) !in w.s.log
    modifies w
    ensures w.Valid() && WaiterFailed(me) !in w.s.log
    ensures look.Changed? ==> WaiterPcOf(w.s, me) == Finding
    ensures look.Seen? ==> WaiterPcOf(w.s, me) == Deciding(look.sess, look.idle)
  {
    hide Run, Initial, SafeStart, WithoutResumer, LauncherNext, WorkerNext, ResumerNext, NoRootAlive;
    look := Scan(w, me);
    if !look.Seen? || !look.idle {
      return;
    }
    var sess := look.sess;
    w.Others(TheWaiter(me));
    var read: bool := *;
    if !read || w.s.stored.None? {
      return LookError;
    }
    var current := w.s.stored.value;
    w.Act(Waiter(me, Reread(true)));
    if current.status != sess.status || current.processPid != sess.processPid
      || current.providerPid != sess.providerPid {
      return Changed;
    }
  }

  /** waitForAgent, for at most `polls` rounds. */
  method WaitForAgent(w: World, me: nat, polls: nat) returns (result: WaitResult)
    requires w.Valid() && WaiterPcOf(w.s, me) == Finding && WaiterFailed(me) !in w.s.log
    modifies w
    ensures w.Valid()
    // the record is replaced exactly when the session is declared failed, and only after its worker died unpublished
    ensures WaiterFailed(me) in w.s.log <==> result.Declared?
    ensures result.Declared? ==>
      Registers(w.s.worker) in w.s.log && Died(w.s.worker) in w.s.log && !PublishedIn(w.s.log)
    ensures result.Declared? ==>
      w.s.stored == Some(result.sess) && result.sess.status == Failed && result.sess.processPid == 0
    ensures result.Ended? ==> result.sess.status != Running && WaiterReturned(me, result.sess) in w.s.log
  {
    hide Run, Initial, SafeStart, WithoutResumer, LauncherNext, WorkerNext, ResumerNext;
    for i := 0 to polls
      invariant w.Valid() && WaiterPcOf(w.s, me) == Finding && WaiterFailed(me) !in w.s.log
    {
      var look := LookAgain(w, me);
      if look.LookError? {
        return WaitError;
      }
      if look.Seen? {
        var sess, idle := look.sess, look.idle;
        if sess.status != Running && idle {
          w.Act(Waiter(me, Decide(false)));
          return Ended(sess);
        }
        if sess.status == Running && sess.processPid > 0 && idle {
          result := Declare(w, me, sess);
          return;
        }
        var timeout: bool := *;
        w.Act(Waiter(me, Decide(timeout)));
        if timeout {
          return TimedOut(sess);
        }
      }
    }
    return WaitError;
  }

  /** Stores the failed record. */
  method Declare(w: World, me: nat, sess: Record) returns (result: WaitResult)
    requires w.Valid() && WaiterPcOf(w.s, me) == Deciding(sess, true) && WaiterFailed(me) !in w.s.log
    requires sess.status == Running && sess.processPid > 0
    modifies w
    ensures w.Valid() && (result.Declared? || result == WaitError)
    ensures WaiterFailed(me) in w.s.log <==> result.Declared?
    ensures result.Declared? ==>
      Registers(w.s.worker) in w.s.log && Died(w.s.worker) in w.s.log && !PublishedIn(w.s.log)
    ensures result.Declared? ==>
      w.s.stored == Some(result.sess) && result.sess.status == Failed && result.sess.processPid == 0
  {
    hide Run, Initial, SafeStart, WithoutResumer, LauncherNext, WorkerNext, ResumerNext;
    w.Act(Waiter(me, Decide(false)));
    w.Others(TheWaiter(me));
    var saved: bool := *;
    if !saved {
      return WaitError;
    }
    w.Act(Waiter(me, SaveFailed(true)));
    DeclaredSafely(w, me);
    return Declared(sess.(status := Failed, processPid := 0, note := ExitedWithoutStatus));
  }

  lemma DeclaredSafely(w: World, me: nat)
    requires w.Valid() && WaiterFailed(me) in w.s.log
    ensures Registers(w.s.worker) in w.s.log && Died(w.s.worker) in w.s.log && !PublishedIn(w.s.log)
  {
    w.Guaranteed();
    var j :| 0 <= j < |w.s.log| && w.s.log[j] == WaiterFailed(me);
    assert w.s.log[j].WaiterFailed?;
  }

  datatype WorkerResult = NotRegistered | Killed | Unsaved | Concluded(r: Record)

  ghost predicate NothingWritten(log: seq<Event>) {
    forall e | e in log :: !IsWorkerEvent(e)
  }

  lemma StillNothing(before: State, after: State)
    requires KeepsOwn(before, after, TheWorker) && NothingWritten(before.log)
    ensures NothingWritten(after.log)
  {
  }

  /** The worker may act: it lives and the record exists. */
  predicate CanAct(s: State) {
    s.worker in s.alive && s.stored.Some?
  }

  /** The 100 polls for the worker's own PID. */
  method AwaitRegistration(w: World) returns (registered: bool)
    requires w.Valid() && w.s.worker > 0 && w.s.workerPc == Polling(0) && NothingWritten(w.s.log)
    modifies w
    ensures w.Valid() && w.s.worker > 0 && NothingWritten(w.s.log)
    ensures registered ==> w.s.workerPc.Registered?
    ensures !registered ==> w.s.workerPc.Exited? || !CanAct(w.s)
  {
    hide Run, Initial, SafeStart, WithoutResumer, LauncherNext, WaiterNext, ResumerNext, NothingWritten;
    for i := 0 to 100
      invariant w.Valid() && w.s.worker > 0 && NothingWritten(w.s.log)
      invariant w.s.workerPc == if i < 100 then Polling(i) else Exited
    {
      ghost var before := w.s;
      w.Others(TheWorker);
      StillNothing(before, w.s);
      if !CanAct(w.s) {
        return false;
      }
      var read: bool := *;
      var own := w.s.stored.value.processPid == w.s.worker;
      w.Act(Worker(Poll(read)));
      if !read || own {
        return read;
      }
    }
    return false;
  }

  /** The turn itself, as runStart and runResume run it, up to its outcome. */
  method RunTurn(w: World) returns (running: bool)
    requires w.Valid() && w.s.worker > 0 && w.s.workerPc.Registered?
    modifies w
    ensures w.Valid() && w.s.worker > 0
    ensures running ==> w.s.workerPc.Finishing?
  {
    hide Run, Initial, SafeStart, WithoutResumer, LauncherNext, WaiterNext, ResumerNext, EndTurn;
    w.Others(TheWorker);
    if !CanAct(w.s) {
      return false;
    }
    var loaded: bool := *;
    w.Act(Worker(Load(loaded)));
    if !loaded {
      return true;
    }
    w.Others(TheWorker);
    if !CanAct(w.s) {
      return false;
    }
    var refused: bool := *;
    if refused {
      var signalled: bool := *;
      w.Act(Worker(Refuse(if signalled then Signal else Error)));
      return true;
    }
    ghost var someone := FreshPid(w.s.used);
    assert someone !in w.s.used;
    var provider: Pid :| provider > 0 && provider !in w.s.used;
    w.Act(Worker(BeginTurn(provider)));
    running := NoteProgress(w, provider);
    if running {
      running := PublishOutcome(w);
    }
  }

  /** While the turn runs, the provider's PID and session are copied into the stored record. */
  method NoteProgress(w: World, provider: Pid) returns (running: bool)
    requires w.Valid() && w.s.worker > 0 && w.s.workerPc.InTurn? && provider in w.s.used
    modifies w
    ensures w.Valid() && w.s.worker > 0 && (running ==> w.s.workerPc.InTurn? && CanAct(w.s))
  {
    hide Run, Initial, SafeStart, WithoutResumer, LauncherNext, WaiterNext, ResumerNext;
    var n: int := *;
    while n > 0
      invariant w.Valid() && w.s.worker > 0 && w.s.workerPc.InTurn? && provider in w.s.used
    {
      n := n - 1;
      w.Others(TheWorker);
      if !CanAct(w.s) {
        return false;
      }
      var session: bool := *;
      session := session && !w.s.path.ForegroundResume?;
      w.Act(Worker(if session then ReadForSession else ReadForProvider));
      w.Others(TheWorker);
      if !CanAct(w.s) {
        return false;
      }
      var saved: bool := *;
      var id: int := *;
      w.Act(Worker(if session then SaveSession(saved, if id < 0 then 0 else id) else SaveProvider(saved, provider)));
    }
    w.Others(TheWorker);
    return CanAct(w.s);
  }

  /** The end of the turn, up to the record that will be stored. */
  method BuildOutcome(w: World) returns (running: bool)
    requires w.Valid() && w.s.worker > 0 && w.s.workerPc.InTurn? && CanAct(w.s)
    modifies w
    ensures w.Valid() && w.s.worker > 0
    ensures running ==> w.s.workerPc.Finishing? || w.s.workerPc.Publishing?
  {
    hide Run, Initial, SafeStart, WithoutResumer, LauncherNext, WaiterNext, ResumerNext;
    var outcome: Outcome := *;
    var id: int := *;
    w.Act(Worker(End(outcome, if id < 0 then 0 else id)));
    if w.s.workerPc.Finishing? {
      return true;
    }
    w.Others(TheWorker);
    if !CanAct(w.s) {
      return false;
    }
    var ok: bool := *;
    if w.s.workerPc.Collecting? {
      w.Act(Worker(Collect(ok, 1)));
    } else if w.s.workerPc.Interrupting? {
      w.Act(Worker(ReadInterrupted(ok)));
    }
    return true;
  }

  /** The turn's outcome, stored once; a turn that did not succeed failed or was stopped by a signal. */
  method PublishOutcome(w: World) returns (running: bool)
    requires w.Valid() && w.s.worker > 0 && w.s.workerPc.InTurn? && CanAct(w.s)
    modifies w
    ensures w.Valid() && w.s.worker > 0
    ensures running ==> w.s.workerPc.Finishing?
  {
    hide Run, Initial, SafeStart, WithoutResumer, LauncherNext, WaiterNext, ResumerNext;
    running := BuildOutcome(w);
    if !running || w.s.workerPc.Finishing? {
      return;
    }
    w.Others(TheWorker);
    if !CanAct(w.s) {
      return false;
    }
    var saved: bool := *;
    var signalled: bool := *;
    var ended := if saved && !w.s.workerPc.failed then Success else if signalled then Signal else Error;
    w.Act(Worker(Publish(saved, ended)));
    return true;
  }

  /** runDetachedWorker and runDetachedResumeWorker. */
  method RunWorker(w: World) returns (result: WorkerResult)
    requires w.Valid() && w.s.worker > 0 && w.s.workerPc == Polling(0) && NothingWritten(w.s.log)
    modifies w
    ensures w.Valid()
    // a worker that finds itself unregistered has written nothing; whatever a worker writes comes after its
    // registration
    ensures result.NotRegistered? ==> NothingWritten(w.s.log)
    ensures !NothingWritten(w.s.log) ==> Registers(w.s.worker) in w.s.log
    ensures result.Concluded? ==>
              && w.s.stored == Some(result.r) && WorkerPublished(result.r) in w.s.log
              && result.r.status != Running && result.r.processPid == 0
    // "completed" says that the provider's turn ended well, and that the turn's code stored its outcome and came
    // back without an error; otherwise "stopped" says that a signal had come, and "failed" that none had
    ensures result.Concluded? ==>
              && (result.r.status == Completed <==> Worker(Publish(true, Success)) in w.steps)
              && (result.r.status == Completed ==>
                    && TurnEnded(w.steps, Success) && !TurnEnded(w.steps, Error) && !TurnEnded(w.steps, Signal)
                    && !NeverBegan(w.steps))
              && (result.r.status == Stopped <==>
                    && Worker(Publish(true, Success)) !in w.steps
                    && (Worker(Refuse(Signal)) in w.steps || CameBack(w.steps, Signal)
                        || Worker(FinishRead(true, true)) in w.steps))
  {
    hide Run, Initial, SafeStart, WithoutResumer, LauncherNext, WaiterNext, ResumerNext, NothingWritten, NeverBegan,
      TurnEnded, CameBack, EndTurn, KeepsLauncher, KeepsWaiter;
    var registered := AwaitRegistration(w);
    if !registered {
      WrittenAfterRegistration(w);
      return NotRegistered;
    }
    var running := RunTurn(w);
    if running {
      result := Conclude(w);
    } else {
      result := Killed;
    }
    WrittenAfterRegistration(w);
  }

  /** The worker's closing write. */
  method Conclude(w: World) returns (result: WorkerResult)
    requires w.Valid() && w.s.worker > 0 && w.s.workerPc.Finishing?
    modifies w
    ensures w.Valid() && !result.NotRegistered?
    ensures result.Concluded? ==>
              && w.s.stored == Some(result.r) && WorkerPublished(result.r) in w.s.log
              && ClosingTold(result.r, w.steps) && StatusTold(result.r, w.steps)
  {
    hide Run, Initial, SafeStart, WithoutResumer, LauncherNext, WaiterNext, ResumerNext, StatusTold, ClosingTold;
    w.Others(TheWorker);
    if !CanAct(w.s) {
      return Killed;
    }
    var read: bool := *;
    var signalled: bool := *;
    w.Act(Worker(FinishRead(read, signalled)));
    if !read {
      return Unsaved;
    }
    var current := w.s.workerPc.copy;
    w.Others(TheWorker);
    if !CanAct(w.s) {
      return Killed;
    }
    var saved: bool := *;
    if saved {
      ClosingSaved(w.start, w.steps, current);
    }
    w.Act(Worker(FinishSave(saved)));
    return if saved then Concluded(current) else Unsaved;
  }

  lemma WrittenAfterRegistration(w: World)
    requires w.Valid()
    ensures !NothingWritten(w.s.log) ==> Registers(w.s.worker) in w.s.log
  {
    w.Guaranteed();
    hide Run, Initial, NothingLost;
  }

  ghost predicate NoRegistration(log: seq<Event>) {
    forall pid :: Registers(pid) !in log
  }

  lemma Unregistered(w: World)
    requires w.Valid() && NoRegistration(w.s.log)
    ensures Registers(w.s.worker) !in w.s.log && NothingWritten(w.s.log)
  {
    w.Guaranteed();
    hide Run, Initial, NothingLost;
  }

  datatype LaunchResult = NotStored | NotLaunched | NotRegisteredYet | Launched

  /** The launcher: store the running record, start the worker, register it or kill it. */
  method LaunchWorker(w: World) returns (result: LaunchResult)
    requires w.Valid() && w.s.launcherPc == Preparing && w.s.log == []
    modifies w
    ensures w.Valid()
    // a launched worker is registered by the launcher's last write; otherwise no worker may write
    ensures result.Launched? ==>
      Registers(w.s.worker) in w.s.log && w.s.stored.Some? && w.s.stored.value.processPid == w.s.worker > 0
    ensures !result.Launched? ==> Registers(w.s.worker) !in w.s.log && NothingWritten(w.s.log)
    ensures result.NotRegisteredYet? ==> w.s.worker !in w.s.alive || w.s.launcher !in w.s.alive
  {
    hide Run, Initial, SafeStart, WithoutResumer, WorkerNext, WaiterNext, ResumerNext;
    var stored: bool := *;
    if w.s.launcher !in w.s.alive {
      Unregistered(w);
      return NotStored;
    }
    w.Act(Launcher(StoreRunning(stored)));
    if !stored {
      Unregistered(w);
      return NotStored;
    }
    w.Others(TheLauncher);
    if w.s.launcher !in w.s.alive {
      Unregistered(w);
      return NotLaunched;
    }
    var started: bool := *;
    ghost var someone := FreshPid(w.s.used);
    assert someone !in w.s.used;
    var pid: Pid :| pid > 0 && pid !in w.s.used;
    w.Act(Launcher(Spawn(pid, started)));
    w.Others(TheLauncher);
    if !started {
      if w.s.launcher in w.s.alive {
        var saved: bool := *;
        w.Act(Launcher(GiveUp(saved)));
      }
      Unregistered(w);
      return NotLaunched;
    }
    if w.s.launcher !in w.s.alive {
      Unregistered(w);
      return NotRegisteredYet;
    }
    var registered: bool := *;
    w.Act(Launcher(Register(registered)));
    if registered {
      return Launched;
    }
    w.Others(TheLauncher);
    if w.s.launcher in w.s.alive {
      w.Act(Launcher(Kill));
    }
    Unregistered(w);
    return NotRegisteredYet;
  }
}
