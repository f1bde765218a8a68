/**
 What a published status says about the turn (cmd/harnez/agent_async.go, agent_run.go): how the
 provider's turn ended, and what the turn's own code reported, can be read off the steps of the run.
 */
module WorkerOutcomes {
  import opened WorkerProtocol
  import opened WorkerGuarantees

  /** The provider's turn ended this way. */
  ghost predicate TurnEnded(steps: seq<Step>, outcome: Outcome) {
    exists id :: Worker(End(outcome, id)) in steps
  }

  /** The turn's code, runStart or runResume, came back with this after it had an outcome to store. */
  ghost predicate CameBack(steps: seq<Step>, outcome: Outcome) {
    Worker(Publish(true, outcome)) in steps || Worker(Publish(false, outcome)) in steps
  }

  /** The session could not be read, or was refused: the provider was never called. */
  ghost predicate NeverBegan(steps: seq<Step>) {
    Worker(Load(false)) in steps || Worker(Refuse(Error)) in steps || Worker(Refuse(Signal)) in steps
  }

  /** A published status tells how the turn went. */
  ghost predicate StatusTold(r: Record, steps: seq<Step>) {
    && r.status != Running
    && (r.status == Completed ==>
          && TurnEnded(steps, Success) && !TurnEnded(steps, Error) && !TurnEnded(steps, Signal)
          && !NeverBegan(steps))
    && (r.status == Failed ==>
          r.note == TurnFailed &&
          (|| TurnEnded(steps, Error) || CameBack(steps, Error)
           || Worker(Load(false)) in steps || Worker(Refuse(Error)) in steps))
    && (r.status == Stopped ==>
          r.note == Interrupted &&
          (|| TurnEnded(steps, Signal) || CameBack(steps, Signal)
           || Worker(Refuse(Signal)) in steps || Worker(FinishRead(true, true)) in steps))
  }

  /** The closing write goes by what the turn's code came back with: "completed" exactly when it stored the
      outcome of the turn and came back without an error, else "stopped" exactly when a signal had come. */
  ghost predicate ClosingTold(r: Record, steps: seq<Step>) {
    && r.status != Running && r.processPid == 0
    && (r.status == Completed <==> Worker(Publish(true, Success)) in steps)
    && (r.status == Stopped <==>
          && Worker(Publish(true, Success)) !in steps
          && (Worker(Refuse(Signal)) in steps || CameBack(steps, Signal) || Worker(FinishRead(true, true)) in steps))
  }

  /** The status that goes with an outcome. */
  predicate Fits(r: Record, outcome: Outcome) {
    match outcome
    case Success => r.status == Completed
    case Error => r.status == Failed && r.note == TurnFailed
    case Signal => r.status == Stopped && r.note == Interrupted
  }

  // ----- The invariant over the steps taken so far

  predicate IsReport(step: Step) {
    step.Worker? &&
    match step.worker
    case Load(ok) => !ok
    case Refuse(_) => true
    case End(_, _) => true
    case Publish(_, _) => true
    case FinishRead(_, _) => true
    case _ => false
  }

  ghost predicate NoReport(steps: seq<Step>) {
    forall step | step in steps :: !IsReport(step)
  }

  ghost predicate OnlyEnded(steps: seq<Step>, outcome: Outcome) {
    && TurnEnded(steps, outcome)
    && forall step | step in steps && IsReport(step) :: step.worker.End? && step.worker.outcome == outcome
  }

  /** The turn's code has come back, and the worker is about to close. */
  ghost predicate MayClose(steps: seq<Step>, outcome: Outcome) {
    && (forall ok, signalled :: Worker(FinishRead(ok, signalled)) !in steps)
    && (outcome == Success <==> Worker(Publish(true, Success)) in steps)
    && (outcome == Success ==>
          TurnEnded(steps, Success) && !TurnEnded(steps, Error) && !TurnEnded(steps, Signal) && !NeverBegan(steps))
    && (outcome == Error ==>
          || TurnEnded(steps, Error) || CameBack(steps, Error)
          || Worker(Load(false)) in steps || Worker(Refuse(Error)) in steps)
    && (outcome == Signal <==> Worker(Refuse(Signal)) in steps || CameBack(steps, Signal))
  }

  ghost predicate StoryOf(pc: WorkerPc, steps: seq<Step>) {
    match pc
    case Collecting(_) => OnlyEnded(steps, Success)
    case Interrupting => OnlyEnded(steps, Signal)
    case Publishing(out, failed) =>
      || (Fits(out, Success) && !failed && OnlyEnded(steps, Success))
      || (Fits(out, Error) && failed && OnlyEnded(steps, Error))
      || (Fits(out, Signal) && failed && OnlyEnded(steps, Signal))
    case Finishing(outcome) => MayClose(steps, outcome)
    case FinishSaving(copy) => ClosingTold(copy, steps) && StatusTold(copy, steps)
    case Exited => true
    case _ => NoReport(steps)
  }

  ghost predicate Story(s: State, steps: seq<Step>) {
    && (s.launcherPc.Preparing? || s.launcherPc.Launching? || s.launcherPc.NotStarted? ==> s.workerPc.Unborn?)
    && (s.workerPc.Unborn? ==> NoReport(steps))
    && StoryOf(s.workerPc, steps)
    && (!s.workerPc.Finishing? && !s.workerPc.FinishSaving? && !s.workerPc.Exited? ==> !PublishedIn(s.log))
    && forall r | WorkerPublished(r) in s.log :: StatusTold(r, steps)
  }

  /** A step that reports nothing changes nothing of what the steps tell. */
  lemma QuietStep(steps: seq<Step>, step: Step, pc: WorkerPc)
    requires !IsReport(step)
    ensures StoryOf(pc, steps) ==> StoryOf(pc, steps + [step])
    ensures NoReport(steps) ==> NoReport(steps + [step])
    ensures forall r :: StatusTold(r, steps) ==> StatusTold(r, steps + [step])
  {
    forall other | IsReport(other)
      ensures other in steps + [step] <==> other in steps
    {
    }
    assert forall o :: TurnEnded(steps + [step], o) <==> TurnEnded(steps, o) by {
      forall o, id
        ensures Worker(End(o, id)) in steps + [step] <==> Worker(End(o, id)) in steps
      {
        assert IsReport(Worker(End(o, id)));
      }
    }
  }

  lemma {:induction false} RunSplits(s: State, steps: seq<Step>, step: Step)
    requires Run(s, steps + [step]).Some?
    ensures Run(s, steps).Some? && Run(s, steps + [step]) == Next(Run(s, steps).value, step)
    decreases |steps|
  {
    hide Next;
    if steps != [] {
      assert (steps + [step])[1..] == steps[1..] + [step];
      RunSplits(Next(s, steps[0]).value, steps[1..], step);
    }
    RunExtends(s, steps, step);
  }

  /** What the others leave to the worker. */
  lemma OthersLeave(s: State, step: Step)
    requires Next(s, step).Some? && !step.Worker?
    requires s.launcherPc.Launching? ==> s.workerPc.Unborn?
    ensures var next := Next(s, step).value;
            && (next.workerPc == s.workerPc || (s.workerPc.Unborn? && next.workerPc == Polling(0)))
            && (next.launcherPc.Preparing? || next.launcherPc.Launching? || next.launcherPc.NotStarted? ==>
                  next.workerPc == s.workerPc
                  && (s.launcherPc.Preparing? || s.launcherPc.Launching? || s.launcherPc.NotStarted?))
            && forall r :: WorkerPublished(r) in next.log ==> WorkerPublished(r) in s.log
  {
  }

  lemma OthersKeepStory(s: State, steps: seq<Step>, step: Step)
    requires Story(s, steps) && Next(s, step).Some? && !step.Worker?
    ensures Story(Next(s, step).value, steps + [step])
  {
    var next := Next(s, step).value;
    OthersLeave(s, step);
    QuietStep(steps, step, next.workerPc);
    hide Next;
    assert s.workerPc.Unborn? ==> StoryOf(Polling(0), steps);
    assert PublishedIn(next.log) ==> PublishedIn(s.log);
    hide StoryOf, StatusTold, NoReport, PublishedIn;
  }

  lemma QuietWorkerKeepsStory(s: State, steps: seq<Step>, step: WorkerStep)
    requires Story(s, steps) && WorkerNext(s, step).Some? && !IsReport(Worker(step))
    ensures Story(WorkerNext(s, step).value, steps + [Worker(step)])
  {
    var next := WorkerNext(s, step).value;
    QuietStep(steps, Worker(step), next.workerPc);
    hide StatusTold, NoReport, OnlyEnded, ClosingTold;
  }

  lemma FirstReport(steps: seq<Step>, step: Step)
    requires NoReport(steps) && IsReport(step)
    ensures step.worker.End? ==> OnlyEnded(steps + [step], step.worker.outcome)
    ensures step.worker == Load(false) ==> MayClose(steps + [step], Error)
    ensures step.worker.Refuse? && step.worker.outcome != Success ==> MayClose(steps + [step], step.worker.outcome)
  {
    var longer := steps + [step];
    forall other | IsReport(other)
      ensures other in longer <==> other == step
    {
    }
    if step.worker.End? {
      assert step == Worker(End(step.worker.outcome, step.worker.id)) && step in longer;
    }
    hide NoReport;
  }

  lemma Published(steps: seq<Step>, ok: bool, outcome: Outcome, ended: Outcome, r: Record)
    requires OnlyEnded(steps, ended) && Fits(r, ended) && (outcome == Success ==> ok && ended == Success)
    ensures MayClose(steps + [Worker(Publish(ok, outcome))], outcome)
    ensures StatusTold(r, steps + [Worker(Publish(ok, outcome))])
  {
    var step := Worker(Publish(ok, outcome));
    var longer := steps + [step];
    forall other | IsReport(other) && !other.worker.End?
      ensures other in longer <==> other == step
    {
    }
    forall o, id
      ensures Worker(End(o, id)) in longer <==> Worker(End(o, id)) in steps
      ensures Worker(End(o, id)) in steps ==> o == ended
    {
      assert IsReport(Worker(End(o, id)));
    }
    var id :| Worker(End(ended, id)) in steps;
    assert Worker(End(ended, id)) in longer;
    hide OnlyEnded;
  }

  /** Once the turn's code has come back, what it said cannot be unsaid. */
  lemma Closing(steps: seq<Step>, ok: bool, signalled: bool, outcome: Outcome)
    requires MayClose(steps, outcome)
    ensures var longer := steps + [Worker(FinishRead(ok, signalled))];
            && (forall r :: StatusTold(r, steps) ==> StatusTold(r, longer))
            && (ok ==> forall r: Record | r.processPid == 0 ::
                  Fits(r, if outcome == Error && signalled then Signal else outcome) ==>
                    ClosingTold(r, longer) && StatusTold(r, longer))
  {
    var step := Worker(FinishRead(ok, signalled));
    var longer := steps + [step];
    forall other | other != step
      ensures other in longer <==> other in steps
    {
    }
    assert forall o :: TurnEnded(longer, o) <==> TurnEnded(steps, o) by {
      forall o, id
        ensures Worker(End(o, id)) in longer <==> Worker(End(o, id)) in steps
      {
      }
    }
    hide TurnEnded;
  }

  lemma PublishKeepsStory(s: State, steps: seq<Step>, ok: bool, outcome: Outcome)
    requires Story(s, steps) && WorkerNext(s, Publish(ok, outcome)).Some?
    ensures Story(WorkerNext(s, Publish(ok, outcome)).value, steps + [Worker(Publish(ok, outcome))])
  {
    var out := s.workerPc.out;
    var ended := match out.status case Completed => Success case Failed => Error case _ => Signal;
    Published(steps, ok, outcome, ended, out);
    hide NoReport, OnlyEnded, ClosingTold, MayClose, StatusTold;
  }

  lemma FinishReadKeepsStory(s: State, steps: seq<Step>, ok: bool, signalled: bool)
    requires Story(s, steps) && WorkerNext(s, FinishRead(ok, signalled)).Some?
    ensures Story(WorkerNext(s, FinishRead(ok, signalled)).value, steps + [Worker(FinishRead(ok, signalled))])
  {
    Closing(steps, ok, signalled, s.workerPc.outcome);
    hide NoReport, OnlyEnded, ClosingTold, MayClose, StatusTold;
  }

  lemma EndKeepsStory(s: State, steps: seq<Step>, outcome: Outcome, id: nat)
    requires Story(s, steps) && WorkerNext(s, End(outcome, id)).Some?
    ensures Story(WorkerNext(s, End(outcome, id)).value, steps + [Worker(End(outcome, id))])
  {
    FirstReport(steps, Worker(End(outcome, id)));
    hide NoReport, OnlyEnded, ClosingTold, MayClose, StatusTold;
  }

  lemma RefusalKeepsStory(s: State, steps: seq<Step>, step: WorkerStep)
    requires Story(s, steps) && WorkerNext(s, step).Some?
    requires step == Load(false) || step.Refuse?
    ensures Story(WorkerNext(s, step).value, steps + [Worker(step)])
  {
    FirstReport(steps, Worker(step));
    hide NoReport, OnlyEnded, ClosingTold, MayClose, StatusTold, EndTurn, Concluded;
  }

  lemma NextKeepsStory(s: State, steps: seq<Step>, step: Step)
    requires Story(s, steps) && Next(s, step).Some?
    ensures Story(Next(s, step).value, steps + [step])
  {
    hide Story, LauncherNext, WorkerNext, WaiterNext, ResumerNext;
    if !step.Worker? {
      OthersKeepStory(s, steps, step);
      return;
    }
    var w := step.worker;
    if w.Publish? {
      PublishKeepsStory(s, steps, w.ok, w.outcome);
    } else if w.FinishRead? {
      FinishReadKeepsStory(s, steps, w.ok, w.signalled);
    } else if w.End? {
      EndKeepsStory(s, steps, w.outcome, w.id);
    } else if IsReport(step) {
      RefusalKeepsStory(s, steps, w);
    } else {
      QuietWorkerKeepsStory(s, steps, w);
    }
  }

  lemma {:induction false} RunKeepsStory(s: State, steps: seq<Step>)
    requires Initial(s) && Run(s, steps).Some?
    ensures Story(Run(s, steps).value, steps)
    decreases |steps|
  {
    if steps != [] {
      hide Story, Next;
      var n := |steps| - 1;
      assert steps == steps[..n] + [steps[n]];
      RunSplits(s, steps[..n], steps[n]);
      RunKeepsStory(s, steps[..n]);
      NextKeepsStory(Run(s, steps[..n]).value, steps[..n], steps[n]);
    }
  }

  // ----- What a reader of the record may conclude

  /** In every run, whoever else interferes: "completed" is published only for a provider turn that ended
      well, "failed" only after an error and "stopped" only after a signal or an interruption. */
  lemma PublishedStatusTold(s: State, steps: seq<Step>, r: Record)
    requires Initial(s) && Run(s, steps).Some? && WorkerPublished(r) in Run(s, steps).value.log
    ensures r.status != Running
    ensures r.status == Completed ==> TurnEnded(steps, Success)
    ensures TurnEnded(steps, Error) || TurnEnded(steps, Signal) || NeverBegan(steps) ==> r.status != Completed
    ensures r.status == Failed ==>
              r.note == TurnFailed &&
              (|| TurnEnded(steps, Error) || CameBack(steps, Error)
               || Worker(Load(false)) in steps || Worker(Refuse(Error)) in steps)
    ensures r.status == Stopped ==>
              r.note == Interrupted &&
              (|| TurnEnded(steps, Signal) || CameBack(steps, Signal)
               || Worker(Refuse(Signal)) in steps || Worker(FinishRead(true, true)) in steps)
  {
    RunKeepsStory(s, steps);
  }

  /** The record of the closing write, from the moment it is ready. */
  lemma ClosingStatusTold(s: State, steps: seq<Step>)
    requires Initial(s) && Run(s, steps).Some? && Run(s, steps).value.workerPc.FinishSaving?
    ensures ClosingTold(Run(s, steps).value.workerPc.copy, steps)
  {
    RunKeepsStory(s, steps);
  }

  /** The same once it has been stored. */
  lemma ClosingSaved(s: State, steps: seq<Step>, r: Record)
    requires Initial(s) && Run(s, steps).Some? && Run(s, steps).value.workerPc == FinishSaving(r)
    ensures ClosingTold(r, steps + [Worker(FinishSave(true))]) && StatusTold(r, steps + [Worker(FinishSave(true))])
  {
    RunKeepsStory(s, steps);
    QuietStep(steps, Worker(FinishSave(true)), FinishSaving(r));
  }
}
