/**
 What a waiter loses when it stores "failed" (cmd/harnez/agent_async.go).  It stores the copy it read
 before its scan; the second read compares the status and two process ids, nothing else.
 */
module WorkerSessions {
  import opened WorkerProtocol
  import opened WorkerGuarantees

  /** The record of the running turn. */
  predicate OfTurn(s: State, r: Record) {
    r.status == Running && s.worker > 0 && r.processPid == s.worker
  }

  /** What nobody changes in that record once the worker is registered.  Provider sessions are observed
      on the start paths only. */
  function Stem(s: State, r: Record): Record {
    GivenUp(r).(providerPid := 0, providerSession := if s.path == ForegroundResume then r.providerSession else 0)
  }

  /** Every copy of the running record stems from the one the launcher registered. */
  predicate Twin(s: State, r: Record) {
    OfTurn(s, r) ==> Stem(s, r) == Stem(s, s.sess)
  }

  /** Failing `sess` leaves what failing the stored record would leave, but for the provider session. */
  predicate Agrees(s: State, sess: Record) {
    && s.stored.Some?
    && GivenUp(s.stored.value) == GivenUp(sess).(providerSession := s.stored.value.providerSession)
    && (s.path == ForegroundResume ==> s.stored.value.providerSession == sess.providerSession)
  }

  predicate WaiterTwins(s: State, pc: WaiterPc) {
    && (pc.Scanning? || pc.Probing? || pc.Rereading? || pc.Deciding? || pc.Giving? ==> Twin(s, pc.sess))
    && (Declares(pc) ==> Agrees(s, pc.sess))
  }

  predicate Twins(s: State) {
    && (s.stored.Some? ==> Twin(s, s.stored.value))
    && (s.workerPc.CopyingProvider? || s.workerPc.CopyingSession? ==> Twin(s, s.workerPc.copy))
    && (s.workerPc.CopyingSession? ==> s.path != ForegroundResume)
    && (forall w | w in s.waiters :: WaiterTwins(s, s.waiters[w]))
  }

  lemma InitialTwins(s: State)
    requires Initial(s) && SafeStart(s)
    ensures Twins(s)
  {
  }

  lemma LauncherKeepsTwins(s: State, step: LauncherStep)
    requires Inv(s) && Twins(s) && LauncherNext(s, step).Some?
    ensures Twins(LauncherNext(s, step).value)
  {
    hide HasRegistered, HasDied, PublishedIn, GoodHistory, DeathsUsed, WorkerInv;
    var next := LauncherNext(s, step).value;
    forall w | w in next.waiters
      ensures WaiterTwins(next, next.waiters[w])
    {
      assert WaiterInv(s, s.waiters[w]) && WaiterTwins(s, s.waiters[w]);
    }
  }

  lemma WorkerKeepsTwins(s: State, step: WorkerStep)
    requires Inv(s) && Twins(s) && WorkerNext(s, step).Some?
    ensures Twins(WorkerNext(s, step).value)
  {
    hide HasRegistered, HasDied, PublishedIn, GoodHistory, DeathsUsed, LauncherInv;
    var next := WorkerNext(s, step).value;
    forall w | w in next.waiters
      ensures WaiterTwins(next, next.waiters[w])
    {
      assert WaiterInv(s, s.waiters[w]) && WaiterTwins(s, s.waiters[w]);
    }
  }

  lemma WaiterMoveKeepsTwins(s: State, w: nat, pc: WaiterPc)
    requires Twins(s) && WaiterTwins(s, pc)
    ensures Twins(SetWaiter(s, w, pc))
  {
    var next := SetWaiter(s, w, pc);
    forall v | v in next.waiters
      ensures WaiterTwins(next, next.waiters[v])
    {
      assert v != w ==> WaiterTwins(s, s.waiters[v]);
    }
  }

  /** Another waiter that fails the same record leaves the same. */
  lemma FailureKeepsTwins(s: State, w: nat, sess: Record)
    requires Inv(s) && Twins(s) && w in s.waiters && s.waiters[w] == Giving(sess)
    ensures Twins(Store(s, GivenUp(sess), WaiterFailed(w)))
  {
    hide Inv;
    var next := Store(s, GivenUp(sess), WaiterFailed(w));
    assert WaiterTwins(s, Giving(sess));
    forall v | v in next.waiters
      ensures WaiterTwins(next, next.waiters[v])
    {
      assert WaiterTwins(s, s.waiters[v]);
    }
  }

  /** The second read leaves only the provider session unchecked. */
  lemma UnchangedAgrees(s: State, sess: Record)
    requires Inv(s) && Twins(s) && HeldPids(s, sess) && Twin(s, sess) && s.stored.Some?
    requires s.stored.value.status == sess.status == Running && s.stored.value.processPid == sess.processPid > 0
    requires s.stored.value.providerPid == sess.providerPid
    ensures Agrees(s, sess)
  {
    hide HasRegistered, HasDied, PublishedIn, GoodHistory, DeathsUsed, LauncherInv, WorkerInv;
    assert Stem(s, s.stored.value) == Stem(s, sess);
  }

  lemma WaiterKeepsTwins(s: State, w: nat, step: WaiterStep)
    requires Inv(s) && Twins(s) && WaiterNext(s, w, step).Some?
    ensures Twins(WaiterNext(s, w, step).value)
  {
    var pc := WaiterPcOf(s, w);
    var next := WaiterNext(s, w, step).value;
    assert WaiterInv(s, pc) && WaiterTwins(s, pc);
    hide Inv, WaiterInv, Twin, Agrees, NoRootAlive;
    if step.SaveFailed? && step.ok {
      FailureKeepsTwins(s, w, pc.sess);
      WaiterMoveKeepsTwins(Store(s, GivenUp(pc.sess), WaiterFailed(w)), w, next.waiters[w]);
    } else {
      if next.waiters[w].Deciding? && Declares(next.waiters[w]) && pc.Rereading? {
        HeldWhileRereading(s, pc.sess);
        UnchangedAgrees(s, pc.sess);
      }
      MovedTwins(s, w, step);
      var logged := s.(log := next.log);
      assert Twins(logged) by {
        LogKeepsTwins(s, next.log);
      }
      WaiterMoveKeepsTwins(logged, w, next.waiters[w]);
    }
  }

  lemma HeldWhileRereading(s: State, sess: Record)
    requires WaiterInv(s, Rereading(sess))
    ensures HeldPids(s, sess)
  {
  }

  lemma LogKeepsTwins(s: State, log: seq<Event>)
    requires Twins(s)
    ensures Twins(s.(log := log))
  {
    forall v | v in s.waiters
      ensures WaiterTwins(s.(log := log), s.waiters[v])
    {
      assert WaiterTwins(s, s.waiters[v]);
    }
  }

  /** What a waiter's own step leaves it with. */
  lemma MovedTwins(s: State, w: nat, step: WaiterStep)
    requires Twins(s) && WaiterNext(s, w, step).Some?
      && !(step.SaveFailed? && step.ok) && WaiterTwins(s, WaiterPcOf(s, w))
    requires var pc := WaiterNext(s, w, step).value.waiters[w];
             WaiterPcOf(s, w).Rereading? && pc.Deciding? && Declares(pc) ==> Agrees(s, pc.sess)
    ensures WaiterTwins(s.(log := WaiterNext(s, w, step).value.log), WaiterNext(s, w, step).value.waiters[w])
  {
    hide NoRootAlive;
  }

  lemma NextKeepsTwins(s: State, step: Step)
    requires Inv(s) && Twins(s) && Next(s, step).Some? && !step.Resumer?
    ensures Twins(Next(s, step).value)
  {
    hide Inv;
    match step
    case Launcher(l) => LauncherKeepsTwins(s, l);
    case Worker(w) => WorkerKeepsTwins(s, w);
    case Waiter(id, w) => WaiterKeepsTwins(s, id, w);
    case Die(pid) =>
  }

  lemma {:induction false} RunKeepsTwins(s: State, steps: seq<Step>)
    requires Inv(s) && Twins(s) && WithoutResumer(steps) && Run(s, steps).Some?
    ensures Inv(Run(s, steps).value) && Twins(Run(s, steps).value)
    decreases |steps|
  {
    hide Inv, Twins;
    if steps != [] {
      assert steps[0] in steps;
      NextKeepsInv(s, steps[0]);
      NextKeepsTwins(s, steps[0]);
      RunKeepsTwins(Next(s, steps[0]).value, steps[1..]);
    }
  }

  /** The record a waiter stores differs from the one it replaces, failed, in the provider session at most. */
  lemma FailingLosesOnlySession(s: State, steps: seq<Step>, w: nat)
    requires Initial(s) && SafeStart(s) && WithoutResumer(steps) && Run(s, steps).Some?
    requires WaiterPcOf(Run(s, steps).value, w).Giving?
    ensures var end := Run(s, steps).value;
            var sess := WaiterPcOf(end, w).sess;
            end.stored.Some? && GivenUp(end.stored.value) ==
              GivenUp(sess).(providerSession := end.stored.value.providerSession)
  {
    InitialInv(s);
    InitialTwins(s);
    RunKeepsTwins(s, steps);
    hide Run, Inv;
    assert WaiterTwins(Run(s, steps).value, Run(s, steps).value.waiters[w]);
  }

  // ----- When the provider session is lost

  /** If the step stores "failed", it keeps the provider session of the record it replaces. */
  predicate KeepsSession(s: State, step: Step) {
    step.Waiter? && step.waiter == SaveFailed(true) && WaiterPcOf(s, step.id).Giving? && s.stored.Some? ==>
      WaiterPcOf(s, step.id).sess.providerSession == s.stored.value.providerSession
  }

  /** Every waiter of the run that stores "failed" keeps the provider session. */
  predicate SessionsKept(s: State, steps: seq<Step>)
    decreases |steps|
  {
    steps == [] || (KeepsSession(s, steps[0])
                    && (Next(s, steps[0]).Some? ==> SessionsKept(Next(s, steps[0]).value, steps[1..])))
  }

  lemma {:induction false} ResumeKeepsSessions(s: State, steps: seq<Step>)
    requires Inv(s) && Twins(s) && s.path == ForegroundResume && WithoutResumer(steps) && Run(s, steps).Some?
    ensures SessionsKept(s, steps)
    decreases |steps|
  {
    hide Inv;
    if steps != [] {
      var step := steps[0];
      assert step in steps;
      NextKeepsInv(s, step);
      NextKeepsTwins(s, step);
      PathStays(s, step);
      if step.Waiter? && WaiterPcOf(s, step.id).Giving? {
        assert WaiterTwins(s, s.waiters[step.id]);
      }
      hide Twins, Next;
      ResumeKeepsSessions(Next(s, step).value, steps[1..]);
    }
  }

  lemma PathStays(s: State, step: Step)
    requires Next(s, step).Some?
    ensures Next(s, step).value.path == s.path
  {
  }

  lemma {:induction false} KeptToTheEnd(s: State, steps: seq<Step>, step: Step)
    requires Run(s, steps).Some? && SessionsKept(s, steps + [step])
    ensures KeepsSession(Run(s, steps).value, step)
    decreases |steps|
  {
    hide Next, KeepsSession;
    if steps == [] {
      assert steps + [step] == [step];
    } else {
      assert (steps + [step])[1..] == steps[1..] + [step];
      KeptToTheEnd(Next(s, steps[0]).value, steps[1..], step);
    }
  }

  /** A provider session recorded between a waiter's two reads is lost when the worker dies after it. */
  lemma GivingUpLosesProviderSession(s: State, session: nat) returns (steps: seq<Step>, before: State, w: nat)
    requires Initial(s) && s.path != ForegroundResume && session > 0
    ensures WithoutResumer(steps) && Run(s, steps) == Some(before)
    ensures before.stored.Some? && before.stored.value.providerSession == session
      && WorkerNoted(before.stored.value) in before.log
    ensures w in before.waiters && before.waiters[w].Giving? && before.waiters[w].sess.providerSession == 0
  {
    hide Run;
    var s1, s2, s3, s4, s5, pid, provider;
    w := NewWaiter(s);
    steps, s1, pid, provider := LaunchedTurn(s);
    steps, s2 := WaiterThen(s, steps, s1, w, Find(true));
    steps, s3 := WorkerThen(s, steps, s2, ReadForSession);
    steps, s4 := WorkerThen(s, steps, s3, SaveSession(true, session));
    steps, s5 := Then(s, steps, s4, Die(pid));
    steps, before := WaiterConcludes(s, steps, s5, w, RegisteredRecord(s, pid));
  }

  /** No run loses a provider session exactly on the path without a session observer, from a safe start. */
  lemma SessionsKeptExactly(s: State)
    requires Initial(s)
    ensures (forall steps | WithoutResumer(steps) && Run(s, steps).Some? :: SessionsKept(s, steps))
       <==> s.path == ForegroundResume && SafeStart(s)
  {
    if s.path == ForegroundResume && SafeStart(s) {
      InitialInv(s);
      InitialTwins(s);
      forall steps | WithoutResumer(steps) && Run(s, steps).Some?
        ensures SessionsKept(s, steps)
      {
        ResumeKeepsSessions(s, steps);
      }
    } else {
      var steps, before, w, lost;
      if s.path != ForegroundResume {
        steps, before, w := GivingUpLosesProviderSession(s, 1);
      } else {
        steps, before, w, lost := PublishedUnderLateWaiter(s);
      }
      var longer, end := WaiterThen(s, steps, before, w, SaveFailed(true));
      assert WithoutResumer(longer) && Run(s, longer).Some?;
      if SessionsKept(s, longer) {
        KeptToTheEnd(s, steps, Waiter(w, SaveFailed(true)));
        assert false;
      }
    }
  }
}
