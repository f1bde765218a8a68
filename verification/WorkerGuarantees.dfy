/**
 What the launch, wait and publish protocol guarantees over whole runs, and the runs in which
 a guarantee ends.
 */
module WorkerGuarantees {
  import opened WorkerProtocol

  // ----- Safety of published results

  /** The history a user may rely on. */
  ghost predicate NothingLost(log: seq<Event>, worker: Pid) {
    // a waiter declares a session failed only after its registered worker died unpublished
    && (forall j | 0 <= j < |log| && log[j].WaiterFailed? ::
          Registers(worker) in log[..j] && Died(worker) in log[..j] && !PublishedIn(log))
    // once a worker has published an outcome, only that worker writes the record again
    && (forall i, j | 0 <= i < j < |log| && log[i].WorkerPublished? ::
          !log[j].WaiterFailed? && !log[j].LauncherWrote? && !log[j].Registers?)
  }

  /** The registration comes first: no turn and no worker write before it, no launcher write after it. */
  ghost predicate RegisteredFirst(log: seq<Event>, worker: Pid) {
    && (forall j | 0 <= j < |log| && IsWorkerEvent(log[j]) :: Registers(worker) in log[..j])
    && (forall i, j | 0 <= i < j < |log| && log[i].Registers? :: !log[j].LauncherWrote? && !log[j].Registers?)
    && (Registers(worker) !in log ==> forall e | e in log :: !IsWorkerEvent(e) && !e.WaiterFailed?)
  }

  lemma PrefixFacts(log: seq<Event>, worker: Pid, i: nat, j: nat)
    requires GoodHistory(log, worker) && i < j < |log|
    ensures GoodEvent(log[..i], log[i], worker) && GoodEvent(log[..j], log[j], worker)
    ensures log[i] in log[..j]
    ensures forall e | e in log[..i] :: e in log[..j]
  {
    assert log[..j][i] == log[i];
    assert log[..i] == log[..j][..i];
  }

  lemma HistoryLosesNothing(log: seq<Event>, worker: Pid)
    requires GoodHistory(log, worker)
    ensures NothingLost(log, worker)
  {
    forall i, j | 0 <= i < j < |log| && log[i].WorkerPublished?
      ensures !log[j].WaiterFailed? && !log[j].LauncherWrote? && !log[j].Registers?
    {
      PrefixFacts(log, worker, i, j);
    }
    forall j | 0 <= j < |log| && log[j].WaiterFailed?
      ensures Registers(worker) in log[..j] && Died(worker) in log[..j] && !PublishedIn(log)
    {
      assert GoodEvent(log[..j], log[j], worker);
      forall e | e in log
        ensures !e.WorkerPublished?
      {
        var k :| 0 <= k < |log| && log[k] == e;
        if k < j {
          PrefixFacts(log, worker, k, j);
        } else if j < k {
          PrefixFacts(log, worker, j, k);
        }
      }
    }
  }

  lemma HistoryRegistersFirst(log: seq<Event>, worker: Pid)
    requires GoodHistory(log, worker)
    ensures RegisteredFirst(log, worker)
  {
    forall j | 0 <= j < |log| && IsWorkerEvent(log[j])
      ensures Registers(worker) in log[..j]
    {
      assert GoodEvent(log[..j], log[j], worker);
    }
    forall i, j | 0 <= i < j < |log| && log[i].Registers?
      ensures !log[j].LauncherWrote? && !log[j].Registers?
    {
      PrefixFacts(log, worker, i, j);
    }
    forall e | e in log && Registers(worker) !in log
      ensures !IsWorkerEvent(e) && !e.WaiterFailed?
    {
      var k :| 0 <= k < |log| && log[k] == e;
      assert GoodEvent(log[..k], log[k], worker);
      assert forall x | x in log[..k] :: x in log;
    }
  }

  ghost predicate WithoutResumer(steps: seq<Step>) {
    forall step | step in steps :: !step.Resumer?
  }

  /** Over every interleaving of a launcher, its worker and any number of waiters, those of earlier turns
      included. */
  lemma PublishedResultsAreSafe(s: State, steps: seq<Step>)
    requires Initial(s) && SafeStart(s) && WithoutResumer(steps) && Run(s, steps).Some?
    ensures var end := Run(s, steps).value;
            && NothingLost(end.log, end.worker)
            && RegisteredFirst(end.log, end.worker)
            && (PublishedIn(end.log) ==> end.stored.Some? && end.stored.value.status != Running)
  {
    InitialInv(s);
    RunKeepsInv(s, steps);
    var end := Run(s, steps).value;
    HistoryLosesNothing(end.log, end.worker);
    HistoryRegistersFirst(end.log, end.worker);
  }

  // ----- Building runs

  lemma {:induction false} RunExtends(s: State, steps: seq<Step>, step: Step)
    requires Run(s, steps).Some?
    ensures Run(s, steps + [step]) == Next(Run(s, steps).value, step)
    decreases |steps|
  {
    hide Next;
    if steps == [] {
      assert steps + [step] == [step];
      assert Run(s, [step]) == match Next(s, step) case None => None case Some(next) => Run(next, []);
    } else {
      var next := Next(s, steps[0]).value;
      RunExtends(next, steps[1..], step);
      assert (steps + [step])[1..] == steps[1..] + [step];
    }
  }

  lemma {:induction false} FreshPid(used: set<Pid>) returns (pid: Pid)
    ensures pid > 0 && forall other | other in used :: other < pid
    decreases used
  {
    if used == {} {
      pid := 1;
    } else {
      var one :| one in used;
      var rest := FreshPid(used - {one});
      assert forall other | other in used :: other == one || other in used - {one};
      pid := if one < rest then rest else one + 1;
    }
  }

  /** One more step of a run that is being built. */
  lemma Then(start: State, steps: seq<Step>, s: State, step: Step) returns (longer: seq<Step>, next: State)
    requires Run(start, steps) == Some(s) && Next(s, step).Some?
    ensures longer == steps + [step] && next == Next(s, step).value
    ensures Run(start, longer) == Some(next)
  {
    longer, next := steps + [step], Next(s, step).value;
    RunExtends(start, steps, step);
  }

  lemma LauncherThen(start: State, steps: seq<Step>, s: State, step: LauncherStep)
    returns (longer: seq<Step>, next: State)
    requires Run(start, steps) == Some(s) && LauncherNext(s, step).Some?
    ensures longer == steps + [Launcher(step)] && next == LauncherNext(s, step).value
    ensures Run(start, longer) == Some(next)
  {
    longer, next := Then(start, steps, s, Launcher(step));
  }

  lemma WorkerThen(start: State, steps: seq<Step>, s: State, step: WorkerStep) returns (longer: seq<Step>, next: State)
    requires Run(start, steps) == Some(s) && WorkerNext(s, step).Some?
    ensures longer == steps + [Worker(step)] && next == WorkerNext(s, step).value
    ensures Run(start, longer) == Some(next)
  {
    longer, next := Then(start, steps, s, Worker(step));
  }

  lemma WaiterThen(start: State, steps: seq<Step>, s: State, w: nat, step: WaiterStep)
    returns (longer: seq<Step>, next: State)
    requires Run(start, steps) == Some(s) && WaiterNext(s, w, step).Some?
    ensures longer == steps + [Waiter(w, step)] && next == WaiterNext(s, w, step).value
    ensures Run(start, longer) == Some(next)
  {
    longer, next := Then(start, steps, s, Waiter(w, step));
  }

  /** A waiter that has read the record and finds none of its processes alive. */
  lemma WaiterConcludes(start: State, steps: seq<Step>, s: State, w: nat, sess: Record)
    returns (longer: seq<Step>, end: State)
    requires Run(start, steps) == Some(s) && w in s.waiters && s.waiters[w] == Scanning(sess)
    requires s.stored.Some? && NoRootAlive(s, sess) && sess.processPid !in s.alive
    requires s.stored.value.status == sess.status && s.stored.value.processPid == sess.processPid
    requires s.stored.value.providerPid == sess.providerPid
    requires sess.status == Running ==> sess.processPid > 0
    ensures Run(start, longer) == Some(end) && (WithoutResumer(steps) ==> WithoutResumer(longer))
    ensures sess.status == Running ==> end == SetWaiter(s, w, Giving(sess))
    ensures sess.status != Running ==> end == SetWaiter(Log(s, WaiterReturned(w, sess)), w, Returned(Some(sess)))
  {
    hide Next, Run;
    var s1, s2, s3;
    longer, s1 := WaiterThen(start, steps, s, w, Scan(false));
    longer, s2 := WaiterThen(start, longer, s1, w, Probe(false));
    longer, s3 := WaiterThen(start, longer, s2, w, Reread(true));
    longer, end := WaiterThen(start, longer, s3, w, Decide(false));
    assert s1.waiters[w := end.waiters[w]] == s.waiters[w := end.waiters[w]];
    assert s2.waiters[w := end.waiters[w]] == s.waiters[w := end.waiters[w]];
    assert s3.waiters[w := end.waiters[w]] == s.waiters[w := end.waiters[w]];
  }

  /** The record once its worker is registered. */
  function RegisteredRecord(s: State, pid: Pid): Record {
    RunningRecord(s).(status := Running, processPid := pid, workerPid := pid)
  }

  lemma NoStepsYet(s: State)
    ensures Run(s, []) == Some(s)
  {
  }

  /** The launcher starts its worker and registers it. */
  lemma RegisteredWorker(start: State, steps: seq<Step>, s: State, pid: Pid) returns (longer: seq<Step>, end: State)
    requires Run(start, steps) == Some(s) && s.launcherPc.Launching? && s.launcher in s.alive
    requires pid > 0 && pid !in s.used
    ensures Run(start, longer) == Some(end) && (WithoutResumer(steps) ==> WithoutResumer(longer))
    ensures var sess := s.sess.(status := Running, processPid := pid, workerPid := pid);
            end == s.(launcherPc := LauncherDone, sess := sess, worker := pid, workerPc := Polling(0),
                      alive := s.alive + {pid}, used := s.used + {pid}, stored := Some(sess),
                      log := s.log + [Spawned(pid), Registers(pid)])
  {
    hide Next, Run;
    var s1;
    longer, s1 := LauncherThen(start, steps, s, Spawn(pid, true));
    longer, end := LauncherThen(start, longer, s1, Register(true));
    assert s.log + [Spawned(pid)] + [Registers(pid)] == s.log + [Spawned(pid), Registers(pid)];
  }

  /** A registered worker up to the start of its provider turn. */
  lemma StartedTurn(start: State, steps: seq<Step>, s: State) returns (longer: seq<Step>, end: State, provider: Pid)
    requires Run(start, steps) == Some(s) && s.workerPc == Polling(0) && s.worker in s.alive
    requires s.stored.Some? && s.stored.value.processPid == s.worker
    ensures Run(start, longer) == Some(end) && (WithoutResumer(steps) ==> WithoutResumer(longer))
    ensures provider > 0 && provider !in s.used
    ensures end == s.(workerPc := InTurn(s.stored.value), alive := s.alive + {provider}, used := s.used + {provider},
                      log := s.log + [TurnStarted(s.worker)])
  {
    hide Next, Run;
    var s1, s2;
    longer, s1 := WorkerThen(start, steps, s, Poll(true));
    longer, s2 := WorkerThen(start, longer, s1, Load(true));
    provider := FreshPid(s2.used);
    longer, end := WorkerThen(start, longer, s2, BeginTurn(provider));
  }

  /** An undisturbed launch up to the start of the provider turn. */
  lemma LaunchedTurn(s: State) returns (steps: seq<Step>, end: State, pid: Pid, provider: Pid)
    requires Initial(s)
    ensures Run(s, steps) == Some(end) && WithoutResumer(steps)
    ensures pid > 0 && provider > 0 && pid != provider && pid !in s.used && provider !in s.used
    ensures end.path == s.path && end.worker == pid && end.workerPc == InTurn(RegisteredRecord(s, pid))
    ensures end.stored == Some(RegisteredRecord(s, pid)) && end.alive == s.alive + {pid, provider}
    ensures end.waiters == s.waiters && end.resumer == Absent
    ensures Died(pid) !in end.log && !PublishedIn(end.log)
  {
    hide Next, Run;
    pid := FreshPid(s.used);
    var s1, s2;
    NoStepsYet(s);
    steps, s1 := LauncherThen(s, [], s, StoreRunning(true));
    steps, s2 := RegisteredWorker(s, steps, s1, pid);
    steps, end, provider := StartedTurn(s, steps, s2);
    assert s.alive + {pid} + {provider} == s.alive + {pid, provider};
  }

  /** The worker's start turn succeeds and its record is published. */
  lemma PublishedTurn(start: State, steps: seq<Step>, s: State) returns (longer: seq<Step>, end: State, r: Record)
    requires Run(start, steps) == Some(s) && s.path != ForegroundResume && s.workerPc.InTurn? && s.worker in s.alive
    requires s.stored.Some? && s.stored.value.providerPid == 0
    ensures Run(start, longer) == Some(end) && (WithoutResumer(steps) ==> WithoutResumer(longer))
    ensures r.status == Completed && r.processPid == r.workerPid == r.providerPid == 0
    ensures end == s.(workerPc := Exited, stored := Some(r), log := end.log)
    ensures Died(s.worker) in end.log ==> Died(s.worker) in s.log
    ensures WorkerPublished(r) in end.log
  {
    hide Next, Run;
    var s1, s2, s3, s4;
    longer, s1 := WorkerThen(start, steps, s, End(Success, 0));
    longer, s2 := WorkerThen(start, longer, s1, Collect(true, 1));
    longer, s3 := WorkerThen(start, longer, s2, Publish(true, Success));
    longer, s4 := WorkerThen(start, longer, s3, FinishRead(true, false));
    longer, end := WorkerThen(start, longer, s4, FinishSave(true));
    r := end.stored.value;
  }

  /** The worker's resume turn succeeds, in a new provider session, and its record is published. */
  lemma PublishedResume(start: State, steps: seq<Step>, s: State, id: nat)
    returns (longer: seq<Step>, end: State, r: Record)
    requires Run(start, steps) == Some(s) && s.path == ForegroundResume && s.workerPc.InTurn? && s.worker in s.alive
    requires s.stored.Some? && id > 0
    ensures Run(start, longer) == Some(end) && (WithoutResumer(steps) ==> WithoutResumer(longer))
    ensures r == s.workerPc.local.(status := Completed, processPid := 0, providerSession := id, note := NoError)
    ensures end == s.(workerPc := Finishing(Success), stored := Some(r), log := s.log + [WorkerPublished(r)])
  {
    hide Next, Run;
    var s1;
    longer, s1 := WorkerThen(start, steps, s, End(Success, id));
    longer, end := WorkerThen(start, longer, s1, Publish(true, Success));
    r := end.stored.value;
  }

  // ----- Where the guarantees end

  /** A waiter number that no waiter has yet. */
  lemma NewWaiter(s: State) returns (w: nat)
    ensures w !in s.waiters
  {
    w := FreshPid(s.waiters.Keys);
  }

  /** From a start that is not safe, a waiter can be about to store "failed" for a process of an earlier
      turn, just when the launcher is about to start the new worker: either it has been there since
      that turn, or it has read the old process from the record that the resume stored again. */
  lemma LateWaiter(s: State) returns (steps: seq<Step>, end: State, w: nat, sess: Record)
    requires Initial(s) && !SafeStart(s)
    ensures Run(s, steps) == Some(end) && WithoutResumer(steps)
    ensures s.path == ForegroundResume && w in end.waiters && end.waiters[w] == Giving(sess)
    ensures end == s.(launcherPc := Launching, sess := RunningRecord(s), stored := Some(RunningRecord(s)),
                      waiters := end.waiters, log := [LauncherWrote(RunningRecord(s))])
    ensures NoRootAlive(s, sess) && (sess.workerPid > 0 ==> sess.workerPid in s.used) && sess.processPid > 0
    ensures s.waiters.Keys <= end.waiters.Keys
  {
    hide Next, Run;
    var s1;
    NoStepsYet(s);
    steps, s1 := LauncherThen(s, [], s, StoreRunning(true));
    if !CleanStart(s) {
      var s2;
      w := NewWaiter(s);
      steps, s2 := WaiterThen(s, steps, s1, w, Find(true));
      sess := RunningRecord(s);
      steps, end := WaiterConcludes(s, steps, s2, w, sess);
    } else {
      w :| w in s.waiters && Declares(s.waiters[w]);
      assert EarlierWaiter(s, s.waiters[w]);
      sess := s.waiters[w].sess;
      if s.waiters[w].Giving? {
        end := s1;
      } else {
        steps, end := WaiterThen(s, steps, s1, w, Decide(false));
      }
    }
  }

  /** From a start that is not safe, the new worker can publish, in a new provider session, while a
      waiter is about to store "failed". */
  lemma PublishedUnderLateWaiter(s: State) returns (steps: seq<Step>, published: State, w: nat, lost: Record)
    requires Initial(s) && !SafeStart(s)
    ensures WithoutResumer(steps) && Run(s, steps) == Some(published)
    ensures WorkerPublished(lost) in published.log && lost.status == Completed && published.stored == Some(lost)
    ensures published.worker in published.alive && Registers(published.worker) in published.log
    ensures w in published.waiters && published.waiters[w].Giving?
    ensures published.waiters[w].sess.providerSession != lost.providerSession
  {
    hide Next, Run;
    var s1, s2, s3, sess, provider;
    var pid := FreshPid(s.used);
    steps, s1, w, sess := LateWaiter(s);
    steps, s2 := RegisteredWorker(s, steps, s1, pid);
    steps, s3, provider := StartedTurn(s, steps, s2);
    steps, published, lost := PublishedResume(s, steps, s3, sess.providerSession + 1);
    assert Registers(pid) in s2.log;
  }

  /** Then the waiter replaces the published "completed" by "failed"; no second resume is involved. */
  lemma LateWaiterLosesResult(s: State) returns (steps: seq<Step>, end: State, w: nat, lost: Record)
    requires Initial(s) && !SafeStart(s)
    ensures WithoutResumer(steps) && Run(s, steps) == Some(end)
    ensures WorkerPublished(lost) in end.log && lost.status == Completed && end.worker in end.alive
    ensures WaiterFailed(w) in end.log && end.stored.Some? && end.stored.value.status == Failed
    ensures !NothingLost(end.log, end.worker)
  {
    hide Next, Run;
    var published;
    steps, published, w, lost := PublishedUnderLateWaiter(s);
    steps, end := WaiterThen(s, steps, published, w, SaveFailed(true));
    var i :| 0 <= i < |published.log| && published.log[i] == WorkerPublished(lost);
    assert end.log[i] == WorkerPublished(lost) && end.log[|published.log|] == WaiterFailed(w);
  }

  /** A resumed record that still names the dead process of an earlier turn (its worker died
      between its two final writes) makes a waiter declare the new turn failed and wipe the new
      worker's registration, while that worker is alive; so does a waiter left from an earlier turn. */
  lemma StalePidLosesTurn(s: State) returns (steps: seq<Step>, end: State, w: nat)
    requires Initial(s) && !SafeStart(s)
    ensures WithoutResumer(steps) && Run(s, steps) == Some(end)
    ensures WaiterFailed(w) in end.log && Registers(end.worker) in end.log
    ensures end.worker in end.alive && Died(end.worker) !in end.log && !PublishedIn(end.log)
    ensures end.stored.Some? && end.stored.value.processPid == 0
  {
    hide Next, Run;
    var s1, s2, sess;
    var pid := FreshPid(s.used);
    steps, s1, w, sess := LateWaiter(s);
    steps, s2 := RegisteredWorker(s, steps, s1, pid);
    steps, end := WaiterThen(s, steps, s2, w, SaveFailed(true));
  }

  /** The safety of published results holds from exactly the safe starts. */
  lemma SafeExactlyFromSafeStarts(s: State)
    requires Initial(s)
    ensures SafeStart(s) <==>
            forall steps | WithoutResumer(steps) && Run(s, steps).Some? ::
              NothingLost(Run(s, steps).value.log, Run(s, steps).value.worker)
  {
    if SafeStart(s) {
      forall steps | WithoutResumer(steps) && Run(s, steps).Some?
        ensures NothingLost(Run(s, steps).value.log, Run(s, steps).value.worker)
      {
        PublishedResultsAreSafe(s, steps);
      }
    } else {
      var steps, end, w, lost := LateWaiterLosesResult(s);
    }
  }

  /** A resume does not read the record again after its scan, so it can overwrite a result that
      was published meanwhile. */
  lemma ConcurrentResumeLosesResult(s: State) returns (steps: seq<Step>, end: State, lost: Record)
    requires Initial(s) && s.path != ForegroundResume
    ensures Run(s, steps) == Some(end)
    ensures WorkerPublished(lost) in end.log && lost.status == Completed
    ensures end.stored.Some? && end.stored.value.status == Failed && end.stored.value.note == StaleRecord
  {
    hide Run;
    var s1, s2, s3, s4, s5, pid, provider;
    steps, s1, pid, provider := LaunchedTurn(s);
    steps, s2 := Then(s, steps, s1, Resumer(FindRecord));
    steps, s3, lost := PublishedTurn(s, steps, s2);
    steps, s4 := Then(s, steps, s3, Die(pid));
    steps, s5 := Then(s, steps, s4, Resumer(ScanWriters(false)));
    steps, end := Then(s, steps, s5, Resumer(SaveStale));
  }
}
