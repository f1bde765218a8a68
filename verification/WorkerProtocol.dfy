/**
 The processes around one agent turn: a launcher that registers a worker, the worker that runs
 the turn and publishes its outcome, and any number of `agent wait` processes
 (cmd/harnez/agent_async.go, with the parts of agent_run.go and agent_stop.go they run).

 The processes share one session record, which is read and replaced as a whole; the last
 writer wins.  A run is a list of steps, each one store access, process scan or local decision
 of one process.  Every choice the code does not control (a store access that fails, the
 outcome of a turn, a process that dies) is a field of the step, so a list of steps determines
 the run.
 */
module WorkerProtocol {

  datatype Option<+T> = None | Some(value: T)

  /** Process ids are positive and never reused; 0 stands for no process. */
  type Pid = nat

  datatype Status = Running | Completed | Stopped | Failed

  datatype Note = NoError | LaunchFailed | TurnFailed | Interrupted | ExitedWithoutStatus | StaleRecord

  datatype Record = Record(
    status: Status,
    processPid: Pid,
    providerPid: Pid,
    workerPid: Pid,
    callerPid: Pid,
    providerSession: nat,
    note: Note)

  /** The processes that count as writers of a record, in `sessionRoots` order. */
  function SessionRoots(r: Record): seq<Pid> {
    var first := if r.processPid == 0 && r.status == Running && r.callerPid > 0 then r.callerPid else r.processPid;
    [first]
    + (if r.providerPid > 0 then [r.providerPid] else [])
    + (if r.workerPid > 0 && r.workerPid != r.processPid then [r.workerPid] else [])
  }

  /** The three ways a worker is launched. */
  datatype Path = ForegroundStart | ForegroundResume | Detached

  datatype LauncherPc =
    | Preparing     // next: store the running record
    | Launching     // next: start the worker process
    | NotStarted    // next: store the failure, best effort
    | Registering   // next: store the worker's PID
    | Killing       // the registration failed; next: kill the worker
    | LauncherDone

  datatype Outcome = Success | Error | Signal

  datatype WorkerPc =
    | Unborn
    | Polling(tries: nat)
    | Registered
    | Ready(local: Record)
    | InTurn(local: Record)
    | CopyingProvider(local: Record, copy: Record)  // provider PID observed, record read, not yet saved
    | CopyingSession(local: Record, copy: Record)   // provider session observed, record read, not yet saved
    | Collecting(out: Record)                       // final start record built, PIDs not yet copied
    | Interrupting                                  // start turn ended by a signal, record not yet read
    | Publishing(out: Record, failed: bool)           // turn outcome ready, not yet saved
    | Finishing(outcome: Outcome)
    | FinishSaving(copy: Record)
    | Exited

  datatype WaiterPc =
    | Finding
    | Scanning(sess: Record)
    | Probing(sess: Record, busy: bool)
    | Rereading(sess: Record)
    | Deciding(sess: Record, idle: bool)
    | Giving(sess: Record)                          // about to store "failed"
    | Returned(result: Option<Record>)

  /** A second `agent resume` of the same session that finds the record running. */
  datatype ResumerPc = Absent | Found(sess: Record) | Overwriting(sess: Record) | Gone

  datatype Event =
    | Spawned(pid: Pid)
    | Died(pid: Pid)
    | LauncherWrote(r: Record)
    | Registers(pid: Pid)
    | TurnStarted(pid: Pid)
    | WorkerNoted(r: Record)
    | WorkerPublished(r: Record)
    | WaiterFailed(waiter: nat)
    | WaiterReturned(waiter: nat, r: Record)
    | ResumerWrote

  datatype State = State(
    path: Path,
    previous: Record,
    launcher: Pid,
    launcherPc: LauncherPc,
    sess: Record,                 // the launcher's own copy
    stored: Option<Record>,
    alive: set<Pid>,
    used: set<Pid>,
    worker: Pid,
    workerPc: WorkerPc,
    waiters: map<nat, WaiterPc>,
    resumer: ResumerPc,
    log: seq<Event>)

  datatype LauncherStep =
    | StoreRunning(ok: bool)
    | Spawn(pid: Pid, started: bool)
    | GiveUp(ok: bool)
    | Register(ok: bool)
    | Kill

  datatype WorkerStep =
    | Poll(ok: bool)
    | Load(ok: bool)
    | Refuse(outcome: Outcome)
    | BeginTurn(provider: Pid)
    | ReadForProvider
    | SaveProvider(ok: bool, provider: Pid)
    | ReadForSession
    | SaveSession(ok: bool, id: nat)
    | End(outcome: Outcome, id: nat)   // id: the new provider session, if the old one could not be resumed
    | Collect(ok: bool, id: nat)
    | ReadInterrupted(ok: bool)
    | Publish(ok: bool, outcome: Outcome)
    | FinishRead(ok: bool, signalled: bool)   // signalled: a signal has arrived by now
    | FinishSave(ok: bool)

  datatype WaiterStep =
    | Find(ok: bool)
    | Scan(busy: bool)
    | Probe(alive: bool)
    | Reread(ok: bool)
    | Decide(timeout: bool)
    | SaveFailed(ok: bool)

  datatype ResumerStep = FindRecord | ScanWriters(busy: bool) | SaveStale

  datatype Step =
    | Launcher(launcher: LauncherStep)
    | Worker(worker: WorkerStep)
    | Waiter(id: nat, waiter: WaiterStep)
    | Resumer(resumer: ResumerStep)
    | Die(pid: Pid)

  /** The record a launcher first stores: a fresh one, or the session's record set running. */
  function RunningRecord(s: State): Record {
    if s.path == ForegroundResume then s.previous.(status := Running)
    else Record(Running, 0, 0, 0, s.launcher, 0, NoError)
  }

  /** `initialSession("failed")`, used when the record cannot be read after a signal. */
  function FreshRecord(s: State): Record {
    Record(Failed, 0, 0, 0, s.worker, 0, NoError)
  }

  function Log(s: State, e: Event): State {
    s.(log := s.log + [e])
  }

  function Store(s: State, r: Record, e: Event): State {
    s.(stored := Some(r), log := s.log + [e])
  }

  function LauncherNext(s: State, step: LauncherStep): Option<State> {
    if s.launcher !in s.alive then None
    else match step
      case StoreRunning(ok) =>
        if !s.launcherPc.Preparing? then None
        else if !ok then Some(s.(launcherPc := LauncherDone))
        else
          var r := RunningRecord(s);
          Some(Store(s.(launcherPc := Launching, sess := r), r, LauncherWrote(r)))
      case Spawn(pid, started) =>
        if !s.launcherPc.Launching? then None
        else if !started then Some(s.(launcherPc := NotStarted))
        else if pid == 0 || pid in s.used then None
        else
          Some(Log(s.(launcherPc := Registering, worker := pid, workerPc := Polling(0),
            alive := s.alive + {pid}, used := s.used + {pid},
            sess := s.sess.(status := Running, processPid := pid, workerPid := pid)), Spawned(pid)))
      case GiveUp(ok) =>
        if !s.launcherPc.NotStarted? then None
        else if !ok then Some(s.(launcherPc := LauncherDone))
        else
          var r := if s.path == ForegroundResume then s.previous else s.sess.(status := Failed, note := LaunchFailed);
          Some(Store(s.(launcherPc := LauncherDone), r, LauncherWrote(r)))
      case Register(ok) =>
        if !s.launcherPc.Registering? then None
        else if !ok then Some(s.(launcherPc := Killing))
        else Some(Store(s.(launcherPc := LauncherDone), s.sess, Registers(s.worker)))
      case Kill =>
        if !s.launcherPc.Killing? then None
        else Some(Log(s.(launcherPc := LauncherDone, alive := s.alive - {s.worker}), Died(s.worker)))
  }

  function Concluded(r: Record, outcome: Outcome): Record {
    match outcome
    case Success => r.(status := Completed)
    case Error => r.(status := Failed, note := TurnFailed)
    case Signal => r.(status := Stopped, note := Interrupted)
  }

  /** How a turn ends: the start worker builds a new record, the resume worker keeps its own. */
  function EndTurn(s: State, local: Record, outcome: Outcome, id: nat): WorkerPc {
    if s.path == ForegroundResume then
      var session := if id > 0 then id else local.providerSession;
      var ended := Concluded(local, outcome).(processPid := 0, providerSession := session);
      Publishing(
        match outcome
        case Success => ended.(note := NoError)
        case Error => ended
        case Signal => ended.(providerPid := 0),
        outcome != Success)
    else
      match outcome
      case Success => Collecting(local)
      case Error => Finishing(Error)
      case Signal => Interrupting
  }

  function WorkerNext(s: State, step: WorkerStep): Option<State> {
    if s.worker !in s.alive || s.stored.None? then None
    else
      var current := s.stored.value;
      match (step, s.workerPc)
      case (Poll(ok), Polling(tries)) =>
        if !ok then Some(s.(workerPc := Exited))
        else if current.processPid == s.worker then Some(s.(workerPc := Registered))
        else Some(s.(workerPc := if tries + 1 >= 100 then Exited else Polling(tries + 1)))
      case (Load(ok), Registered) =>
        Some(s.(workerPc := if ok then Ready(current) else Finishing(Error)))
      case (Refuse(outcome), Ready(_)) =>
        if outcome == Success then None else Some(s.(workerPc := Finishing(outcome)))
      case (BeginTurn(provider), Ready(local)) =>
        if provider == 0 || provider in s.used then None
        else Some(Log(s.(workerPc := InTurn(local), alive := s.alive + {provider}, used := s.used + {provider}),
                      TurnStarted(s.worker)))
      case (ReadForProvider, InTurn(local)) =>
        Some(s.(workerPc := CopyingProvider(local, current)))
      case (SaveProvider(ok, provider), CopyingProvider(local, copy)) =>
        // the observed process exists or has existed
        if provider !in s.used then None
        else
          var noted := copy.(providerPid := provider);
          var next := s.(workerPc := InTurn(local.(providerPid := provider)));
          Some(if ok then Store(next, noted, WorkerNoted(noted)) else next)
      case (ReadForSession, InTurn(local)) =>
        if s.path == ForegroundResume then None else Some(s.(workerPc := CopyingSession(local, current)))
      case (SaveSession(ok, id), CopyingSession(local, copy)) =>
        var noted := copy.(providerSession := id);
        var next := s.(workerPc := InTurn(local));
        Some(if ok then Store(next, noted, WorkerNoted(noted)) else next)
      case (End(outcome, id), InTurn(local)) =>
        Some(s.(workerPc := EndTurn(s, local, outcome, id)))
      case (Collect(ok, id), Collecting(_)) =>
        // the new record knows no worker PID; process and caller come from the stored record
        var out := Record(Completed, if ok then current.processPid else 0, if ok then current.providerPid else 0,
                          0, if ok then current.callerPid else s.worker, id, NoError);
        Some(s.(workerPc := Publishing(out, false)))
      case (ReadInterrupted(ok), Interrupting) =>
        var base := if ok then current else FreshRecord(s);
        Some(s.(workerPc := Publishing(base.(status := Stopped, processPid := 0, providerPid := 0, note := Interrupted),
          true)))
      case (Publish(ok, outcome), Publishing(out, failed)) =>
        if outcome == Success && (failed || !ok) then None
        else if !ok then Some(s.(workerPc := Finishing(outcome)))
        else Some(Store(s.(workerPc := Finishing(outcome)), out, WorkerPublished(out)))
      case (FinishRead(ok, signalled), Finishing(outcome)) =>
        var ended := if outcome == Error && signalled then Signal else outcome;
        Some(s.(workerPc := if ok then FinishSaving(Concluded(current, ended).(processPid := 0)) else Exited))
      case (FinishSave(ok), FinishSaving(copy)) =>
        if !ok then Some(s.(workerPc := Exited))
        else Some(Store(s.(workerPc := Exited), copy, WorkerPublished(copy)))
      case _ => None
  }

  predicate NoRootAlive(s: State, r: Record) {
    forall pid | pid in SessionRoots(r) :: pid !in s.alive
  }

  function SetWaiter(s: State, w: nat, pc: WaiterPc): State {
    s.(waiters := s.waiters[w := pc])
  }

  /** A waiter with no state yet starts at the top of its loop. */
  function WaiterPcOf(s: State, w: nat): WaiterPc {
    if w in s.waiters then s.waiters[w] else Finding
  }

  /** The record a waiter stores when it finds a worker gone. */
  function GivenUp(sess: Record): Record {
    sess.(status := Failed, processPid := 0, note := ExitedWithoutStatus)
  }

  function WaiterNext(s: State, w: nat, step: WaiterStep): Option<State> {
    match (step, WaiterPcOf(s, w))
    case (Find(ok), Finding) =>
      Some(SetWaiter(s, w, if !ok || s.stored.None? then Returned(None) else Scanning(s.stored.value)))
    case (Scan(busy), Scanning(sess)) =>
      // a scan that reports no writer has seen none of the roots alive
      if !busy && !NoRootAlive(s, sess) then None
      else Some(SetWaiter(s, w, Probing(sess, busy)))
    case (Probe(alive), Probing(sess, busy)) =>
      // signal 0 also reaches zombies, so it may report a dead process as existing
      if !alive && sess.processPid in s.alive then None
      else
        var wrapperExists := sess.processPid > 0 && alive;
        Some(SetWaiter(s, w, if !busy && !wrapperExists then Rereading(sess) else Deciding(sess, false)))
    case (Reread(ok), Rereading(sess)) =>
      if !ok || s.stored.None? then Some(SetWaiter(s, w, Returned(None)))
      else
        var current := s.stored.value;
        var changed := current.status != sess.status
          || current.processPid != sess.processPid || current.providerPid != sess.providerPid;
        Some(SetWaiter(s, w, if changed then Finding else Deciding(sess, true)))
    case (Decide(timeout), Deciding(sess, idle)) =>
      if sess.status != Running && idle then
        Some(SetWaiter(Log(s, WaiterReturned(w, sess)), w, Returned(Some(sess))))
      else if sess.status == Running && sess.processPid > 0 && idle then
        Some(SetWaiter(s, w, Giving(sess)))
      else Some(SetWaiter(s, w, if timeout then Returned(Some(sess)) else Finding))
    case (SaveFailed(ok), Giving(sess)) =>
      if !ok then Some(SetWaiter(s, w, Returned(None)))
      else Some(SetWaiter(Store(s, GivenUp(sess), WaiterFailed(w)), w, Returned(Some(GivenUp(sess)))))
    case _ => None
  }

  function ResumerNext(s: State, step: ResumerStep): Option<State> {
    match (step, s.resumer)
    case (FindRecord, Absent) =>
      if s.stored.None? then None else Some(s.(resumer := Found(s.stored.value)))
    case (ScanWriters(busy), Found(sess)) =>
      if !busy && !NoRootAlive(s, sess) then None
      else Some(s.(resumer := if busy || sess.status != Running then Gone else Overwriting(sess)))
    case (SaveStale, Overwriting(sess)) =>
      Some(Store(s.(resumer := Gone), sess.(status := Failed, processPid := 0, note := StaleRecord), ResumerWrote))
    case _ => None
  }

  function Next(s: State, step: Step): Option<State> {
    match step
    case Launcher(l) => LauncherNext(s, l)
    case Worker(w) => WorkerNext(s, w)
    case Waiter(id, w) => WaiterNext(s, id, w)
    case Resumer(r) => ResumerNext(s, r)
    case Die(pid) =>
      if pid in s.alive then Some(Log(s.(alive := s.alive - {pid}), Died(pid))) else None
  }

  function Run(s: State, steps: seq<Step>): Option<State>
    decreases |steps|
  {
    if steps == [] then Some(s)
    else
      match Next(s, steps[0])
      case None => None
      case Some(next) => Run(next, steps[1..])
  }

  /** `agent resume` goes on only when the old turn is over and none of its processes lives. */
  predicate Resumable(s: State, r: Record) {
    && r.status != Running
    && NoRootAlive(s, r)
    && (r.processPid > 0 ==> r.processPid in s.used)
    && (r.workerPid > 0 ==> r.workerPid in s.used)
  }

  /** What a waiter of an earlier turn may hold when a resume begins: any record of processes that were
      started before, and once its scan found nobody, one whose processes are dead. */
  predicate EarlierWaiter(s: State, pc: WaiterPc) {
    match pc
    case Finding => true
    case Scanning(sess) => EarlierRecord(s, sess)
    case Probing(sess, busy) => EarlierRecord(s, sess) && (!busy ==> NoRootAlive(s, sess))
    case Rereading(sess) => EarlierRecord(s, sess) && NoRootAlive(s, sess)
    case Deciding(sess, idle) => EarlierRecord(s, sess) && (idle ==> NoRootAlive(s, sess))
    case Giving(sess) => EarlierRecord(s, sess) && NoRootAlive(s, sess) && sess.status == Running && sess.processPid > 0
    case Returned(_) => true
  }

  predicate EarlierRecord(s: State, r: Record) {
    && s.path == ForegroundResume
    && (r.processPid > 0 ==> r.processPid in s.used) && (r.workerPid > 0 ==> r.workerPid in s.used)
  }

  /** Before the launch: a live launcher, no worker, and for a resume the session's old record and the
      waiters that are left from earlier turns, at any point of their loops. */
  predicate Initial(s: State) {
    && s.launcherPc == Preparing
    && s.launcher > 0 && s.launcher in s.alive && s.alive <= s.used && 0 !in s.used
    && s.worker == 0 && s.workerPc == Unborn
    && s.stored == (if s.path == ForegroundResume then Some(s.previous) else None)
    && (s.path == ForegroundResume ==> Resumable(s, s.previous))
    && (forall w | w in s.waiters :: EarlierWaiter(s, s.waiters[w]))
    && s.resumer == Absent && s.log == []
  }

  // ----- The invariant

  predicate PublishedIn(log: seq<Event>) {
    exists e :: e in log && e.WorkerPublished?
  }

  predicate HasRegistered(log: seq<Event>, worker: Pid) {
    Registers(worker) in log
  }

  predicate HasDied(log: seq<Event>, worker: Pid) {
    Died(worker) in log
  }

  predicate DeathsUsed(log: seq<Event>, used: set<Pid>) {
    forall e | e in log && e.Died? :: e.pid in used
  }

  predicate IsRegistered(s: State) {
    HasRegistered(s.log, s.worker)
  }

  predicate Published(s: State) {
    PublishedIn(s.log)
  }

  predicate Dead(s: State) {
    HasDied(s.log, s.worker)
  }

  predicate IsWorkerEvent(e: Event) {
    e.TurnStarted? || e.WorkerNoted? || e.WorkerPublished?
  }

  /** What the history of writes looks like, event by event. */
  predicate GoodHistory(log: seq<Event>, worker: Pid) {
    forall i | 0 <= i < |log| :: GoodEvent(log[..i], log[i], worker)
  }

  predicate GoodEvent(before: seq<Event>, e: Event, worker: Pid) {
    && (e.LauncherWrote? ==> !HasRegistered(before, worker))
    && (e.Registers? ==> e.pid == worker && !HasRegistered(before, worker))
    && (IsWorkerEvent(e) ==> HasRegistered(before, worker) && !HasDied(before, worker))
    && (e.WorkerPublished? ==> e.r.status != Running)
    && (e.WaiterFailed? ==> HasRegistered(before, worker) && HasDied(before, worker) && !PublishedIn(before))
  }

  lemma GoodHistoryExtends(log: seq<Event>, e: Event, worker: Pid, used: set<Pid>)
    requires GoodHistory(log, worker) && GoodEvent(log, e, worker)
    requires DeathsUsed(log, used)
    requires e.Died? ==> e.pid in used
    ensures DeathsUsed(log + [e], used)
    ensures GoodHistory(log + [e], worker)
    ensures HasRegistered(log + [e], worker) <==> HasRegistered(log, worker) || e == Registers(worker)
    ensures HasDied(log + [e], worker) <==> HasDied(log, worker) || e == Died(worker)
    ensures PublishedIn(log + [e]) <==> PublishedIn(log) || e.WorkerPublished?
  {
    var longer := log + [e];
    forall i | 0 <= i < |longer|
      ensures GoodEvent(longer[..i], longer[i], worker)
    {
      if i < |log| {
        assert longer[..i] == log[..i];
      } else {
        assert longer[..i] == log;
      }
    }
  }

  /** A copy of the record that some process holds is no newer than the registration. */
  predicate KnownPids(s: State, r: Record) {
    r.processPid == 0 || (r.processPid == s.worker && IsRegistered(s))
  }

  predicate LauncherInv(s: State) {
    && (s.launcherPc.Preparing? || s.launcherPc.Launching? || s.launcherPc.NotStarted? ==> s.worker == 0)
    && (s.launcherPc.Registering? || s.launcherPc.Killing? ==> s.worker > 0)
    && (IsRegistered(s) ==> s.launcherPc.LauncherDone? && s.worker > 0)
    && (s.launcherPc.Launching? || s.launcherPc.NotStarted? ==> s.sess.processPid == 0)
    && (s.launcherPc.Registering? ==> s.sess.status == Running && s.sess.processPid == s.worker)
  }

  predicate ProcessInv(s: State) {
    && s.alive <= s.used && 0 !in s.used
    && (s.worker > 0 ==> s.worker in s.used)
    && (s.worker == 0 <==> s.workerPc.Unborn?)
    && (s.worker > 0 && s.worker !in s.alive ==> Dead(s))
    && (Dead(s) ==> s.worker !in s.alive)
    && DeathsUsed(s.log, s.used)
  }

  predicate StoredInv(s: State) {
    && (s.stored.Some? ==> KnownPids(s, s.stored.value))
    && (IsRegistered(s) ==> s.stored.Some?)
    && (IsRegistered(s) && s.worker in s.alive && !Published(s) ==>
          s.stored.value.status == Running && s.stored.value.processPid == s.worker)
    && (Published(s) ==> s.stored.Some? && s.stored.value.status != Running)
  }

  predicate WorkerInv(s: State) {
    && (!s.workerPc.Unborn? && !s.workerPc.Polling? && !s.workerPc.Exited? ==> IsRegistered(s))
    && (Published(s) ==> IsRegistered(s))
    && match s.workerPc
       case Unborn => !Published(s)
       case Polling(_) => !Published(s)
       case Registered => !Published(s)
       case Ready(local) => !Published(s) && KnownPids(s, local)
       case InTurn(local) => !Published(s) && KnownPids(s, local)
       case CopyingProvider(local, copy) =>
         !Published(s) && KnownPids(s, local) && copy.status == Running && copy.processPid == s.worker
       case CopyingSession(local, copy) =>
         !Published(s) && KnownPids(s, local) && copy.status == Running && copy.processPid == s.worker
       case Collecting(_) => !Published(s)
       case Interrupting => !Published(s)
       case Publishing(out, _) => !Published(s) && out.status != Running && KnownPids(s, out)
       case Finishing(_) => true
       case FinishSaving(copy) => copy.status != Running && copy.processPid == 0
       case Exited => true
  }

  /** A waiter's copy is one of this turn, or names a process of an earlier one. */
  predicate HeldPids(s: State, r: Record) {
    KnownPids(s, r) || (r.processPid in s.used && r.processPid != s.worker)
  }

  /** Whoever found no process of the record alive has seen the worker dead if the record names it. */
  predicate FoundDead(s: State, r: Record) {
    r.processPid > 0 && r.processPid == s.worker ==> s.worker !in s.alive
  }

  /** The record a waiter is about to fail is one of this turn, whose worker died unpublished. */
  predicate MayFail(s: State, r: Record) {
    r.status == Running && r.processPid > 0 ==> KnownPids(s, r) && !Published(s)
  }

  predicate WaiterInv(s: State, pc: WaiterPc) {
    match pc
    case Finding => true
    case Scanning(sess) => HeldPids(s, sess)
    case Probing(sess, busy) => HeldPids(s, sess) && (!busy ==> FoundDead(s, sess))
    case Rereading(sess) => HeldPids(s, sess) && FoundDead(s, sess)
    case Deciding(sess, idle) => HeldPids(s, sess) && (idle ==> FoundDead(s, sess) && MayFail(s, sess))
    case Giving(sess) => IsRegistered(s) && s.worker !in s.alive && !Published(s) && s.worker > 0
    case Returned(_) => true
  }

  predicate Inv(s: State) {
    && LauncherInv(s) && ProcessInv(s) && StoredInv(s) && WorkerInv(s)
    && (forall w | w in s.waiters :: WaiterInv(s, s.waiters[w]))
    && GoodHistory(s.log, s.worker)
    && (s.path == ForegroundResume ==> s.previous.processPid == 0)
  }

  /** No stored pid is left over from an earlier turn. */
  predicate CleanStart(s: State) {
    s.path == ForegroundResume ==> s.previous.processPid == 0
  }

  /** The waiter has found the process of a running record dead and will store "failed". */
  predicate Declares(pc: WaiterPc) {
    || pc.Giving?
    || (pc.Deciding? && pc.idle && pc.sess.status == Running && pc.sess.processPid > 0)
  }

  /** No stored pid is left over, and no waiter of an earlier turn is past its second read of a running
      record. */
  predicate SafeStart(s: State) {
    CleanStart(s) && forall w | w in s.waiters :: !Declares(s.waiters[w])
  }

  lemma InitialInv(s: State)
    requires Initial(s) && SafeStart(s)
    ensures Inv(s)
  {
  }

  /** Until a worker exists nothing in the history depends on which one it will be. */
  lemma GoodHistoryOfNewWorker(log: seq<Event>, used: set<Pid>, worker: Pid, other: Pid)
    requires GoodHistory(log, worker) && !HasRegistered(log, worker) && DeathsUsed(log, used) && other !in used
    ensures GoodHistory(log, other) && !HasRegistered(log, other) && !HasDied(log, other)
    ensures DeathsUsed(log, used + {other})
  {
    forall i | 0 <= i < |log|
      ensures !log[i].Registers?
    {
      assert GoodEvent(log[..i], log[i], worker);
      assert log[i] in log;
    }
    forall i | 0 <= i < |log|
      ensures GoodEvent(log[..i], log[i], other)
    {
      assert GoodEvent(log[..i], log[i], worker);
    }
  }

  lemma MorePidsUsed(log: seq<Event>, used: set<Pid>, more: set<Pid>)
    requires DeathsUsed(log, used) && used <= more
    ensures DeathsUsed(log, more)
  {
  }

  lemma SpawnKeepsInv(s: State, pid: Pid)
    requires Inv(s) && LauncherNext(s, Spawn(pid, true)).Some?
    ensures Inv(LauncherNext(s, Spawn(pid, true)).value)
  {
    hide HasRegistered, HasDied, PublishedIn, GoodHistory, DeathsUsed;
    GoodHistoryOfNewWorker(s.log, s.used, s.worker, pid);
    GoodHistoryExtends(s.log, Spawned(pid), pid, s.used + {pid});
  }

  lemma LauncherStoreKeepsInv(s: State, r: Record)
    requires Inv(s) && !s.launcherPc.LauncherDone? && r.processPid == 0
    ensures Inv(Store(s, r, LauncherWrote(r)))
  {
    hide HasRegistered, HasDied, PublishedIn, GoodHistory, DeathsUsed;
    GoodHistoryExtends(s.log, LauncherWrote(r), s.worker, s.used);
  }

  lemma RegisterKeepsInv(s: State)
    requires Inv(s) && LauncherNext(s, Register(true)).Some?
    ensures Inv(LauncherNext(s, Register(true)).value)
  {
    hide HasRegistered, HasDied, PublishedIn, GoodHistory, DeathsUsed;
    GoodHistoryExtends(s.log, Registers(s.worker), s.worker, s.used);
  }

  lemma LauncherKeepsInv(s: State, step: LauncherStep)
    requires Inv(s) && LauncherNext(s, step).Some?
    ensures Inv(LauncherNext(s, step).value)
  {
    hide HasRegistered, HasDied, PublishedIn, GoodHistory, DeathsUsed;
    var next := LauncherNext(s, step).value;
    match step
    case StoreRunning(ok) =>
      if ok {
        LauncherStoreKeepsInv(s, RunningRecord(s));
      }
    case Spawn(pid, started) =>
      if started {
        SpawnKeepsInv(s, pid);
      }
    case GiveUp(ok) =>
      if ok {
        LauncherStoreKeepsInv(s, next.stored.value);
      }
    case Register(ok) =>
      if ok {
        RegisterKeepsInv(s);
      }
    case Kill =>
      GoodHistoryExtends(s.log, Died(s.worker), s.worker, s.used);
  }

  lemma WorkerMoveKeepsInv(s: State, pc: WorkerPc)
    requires Inv(s) && s.worker in s.alive && !pc.Unborn? && WorkerInv(s.(workerPc := pc))
    ensures Inv(s.(workerPc := pc))
  {
    hide HasRegistered, HasDied, PublishedIn, GoodHistory, DeathsUsed;
  }

  /** A live registered worker may store its running record again, or a final one. */
  lemma WorkerStoreKeepsInv(s: State, r: Record, e: Event)
    requires Inv(s) && s.worker in s.alive && KnownPids(s, r) && s.workerPc.Exited? && IsRegistered(s)
    requires || (e == WorkerNoted(r) && !Published(s) && r.status == Running && r.processPid == s.worker)
             || (e == WorkerPublished(r) && r.status != Running)
    ensures Inv(Store(s, r, e)) && IsRegistered(Store(s, r, e))
    ensures e.WorkerNoted? ==> !Published(Store(s, r, e))
  {
    hide HasRegistered, HasDied, PublishedIn, GoodHistory, DeathsUsed;
    GoodHistoryExtends(s.log, e, s.worker, s.used);
  }

  lemma BeginTurnKeepsInv(s: State, provider: Pid)
    requires Inv(s) && WorkerNext(s, BeginTurn(provider)).Some?
    ensures Inv(WorkerNext(s, BeginTurn(provider)).value)
  {
    hide HasRegistered, HasDied, PublishedIn, GoodHistory, DeathsUsed;
    MorePidsUsed(s.log, s.used, s.used + {provider});
    GoodHistoryExtends(s.log, TurnStarted(s.worker), s.worker, s.used + {provider});
  }

  lemma WorkerKeepsInv(s: State, step: WorkerStep)
    requires Inv(s) && WorkerNext(s, step).Some?
    ensures Inv(WorkerNext(s, step).value)
  {
    hide HasRegistered, HasDied, PublishedIn, GoodHistory, DeathsUsed;
    var next := WorkerNext(s, step).value;
    if step.BeginTurn? {
      BeginTurnKeepsInv(s, step.provider);
    } else if next.log == s.log {
      WorkerMoveKeepsInv(s, next.workerPc);
    } else {
      var idle := s.(workerPc := Exited);
      WorkerMoveKeepsInv(s, Exited);
      WorkerStoreKeepsInv(idle, next.stored.value, next.log[|s.log|]);
      WorkerMoveKeepsInv(Store(idle, next.stored.value, next.log[|s.log|]), next.workerPc);
    }
  }

  lemma WaiterMoveKeepsInv(s: State, w: nat, pc: WaiterPc)
    requires Inv(s) && WaiterInv(s, pc)
    ensures Inv(SetWaiter(s, w, pc))
  {
    hide HasRegistered, HasDied, PublishedIn, GoodHistory, DeathsUsed;
  }

  lemma WaiterReturnKeepsInv(s: State, w: nat, r: Record)
    requires Inv(s)
    ensures Inv(Log(s, WaiterReturned(w, r)))
  {
    hide HasRegistered, HasDied, PublishedIn, GoodHistory, DeathsUsed;
    GoodHistoryExtends(s.log, WaiterReturned(w, r), s.worker, s.used);
  }

  lemma WaiterFailKeepsInv(s: State, w: nat, sess: Record)
    requires Inv(s) && w in s.waiters && s.waiters[w] == Giving(sess)
    ensures Inv(Store(s, GivenUp(sess), WaiterFailed(w)))
  {
    hide HasRegistered, HasDied, PublishedIn, GoodHistory, DeathsUsed;
    GoodHistoryExtends(s.log, WaiterFailed(w), s.worker, s.used);
  }

  lemma WaiterKeepsInv(s: State, w: nat, step: WaiterStep)
    requires Inv(s) && WaiterNext(s, w, step).Some?
    ensures Inv(WaiterNext(s, w, step).value)
  {
    hide HasRegistered, HasDied, PublishedIn, GoodHistory, DeathsUsed;
    var pc := WaiterPcOf(s, w);
    var next := WaiterNext(s, w, step).value;
    assert WaiterInv(s, pc);
    if step.SaveFailed? && step.ok {
      WaiterFailKeepsInv(s, w, pc.sess);
      WaiterMoveKeepsInv(Store(s, GivenUp(pc.sess), WaiterFailed(w)), w, next.waiters[w]);
    } else if step.Decide? && pc.sess.status != Running && pc.idle {
      WaiterReturnKeepsInv(s, w, pc.sess);
      WaiterMoveKeepsInv(Log(s, WaiterReturned(w, pc.sess)), w, next.waiters[w]);
    } else {
      WaiterMoveKeepsInv(s, w, next.waiters[w]);
    }
  }

  lemma DeathKeepsInv(s: State, pid: Pid)
    requires Inv(s) && pid in s.alive
    ensures Inv(Next(s, Die(pid)).value)
  {
    hide HasRegistered, HasDied, PublishedIn, GoodHistory, DeathsUsed;
    GoodHistoryExtends(s.log, Died(pid), s.worker, s.used);
  }

  lemma NextKeepsInv(s: State, step: Step)
    requires Inv(s) && Next(s, step).Some? && !step.Resumer?
    ensures Inv(Next(s, step).value)
  {
    hide Inv;
    match step
    case Launcher(l) => LauncherKeepsInv(s, l);
    case Worker(w) => WorkerKeepsInv(s, w);
    case Waiter(id, w) => WaiterKeepsInv(s, id, w);
    case Die(pid) => DeathKeepsInv(s, pid);
  }

  /** Every interleaving keeps the invariant, as long as nobody resumes the session meanwhile. */
  lemma {:induction false} RunKeepsInv(s: State, steps: seq<Step>)
    requires Inv(s) && Run(s, steps).Some?
    requires forall step | step in steps :: !step.Resumer?
    ensures Inv(Run(s, steps).value)
    decreases |steps|
  {
    hide Inv;
    if steps != [] {
      assert steps[0] in steps;
      NextKeepsInv(s, steps[0]);
      RunKeepsInv(Next(s, steps[0]).value, steps[1..]);
    }
  }
}
