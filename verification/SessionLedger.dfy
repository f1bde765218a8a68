/**
 The ledger in an agent session's record: turns, token totals, saved replies, compaction and the
 Codex quarantine, as kept by start, resume, compact and rate (cmd/harnez/agent_run.go,
 cmd/harnez/agent.go).

 `SessionStore.stored` is the record on disk.  Every operation works on its own copy and stores
 it again, or fails to; what the operation cannot control is a parameter.  The ghost field
 `history` lists what has reached the disk, in order, and is what the ledger is measured by.
 */
module SessionLedger {

  datatype Option<+T> = None | Some(value: T)

  datatype Status = Running | Completed | Stopped | Failed

  const STALE := "previous resume process is no longer running; treating session as stale"
  const WATCHDOG := "runtime token watchdog interrupted the active turn"

  datatype TurnRecord = TurnRecord(turn: nat, newInput: int, cachedInput: int, output: int, rating: Option<int>,
                                   reason: string)

  datatype Reply = Reply(turn: nat, text: string)

  datatype Session = Session(
    provider: string, status: Status, lastError: string, resumeFailures: nat, resumeBlocked: string,
    turn: nat, turnRecords: seq<TurnRecord>, replyHistory: seq<Reply>,
    tokensTurn: int, tokensCumulative: int, inputTotal: int, cachedTotal: int, outputTotal: int, reasoningTotal: int,
    tokensSinceCompact: int, contextTokens: int, compactionCount: nat,
    quotaResumePending: bool, quarantine: Option<string>)

  datatype TurnResult = TurnResult(
    response: string, tokensTurn: int, inputTokens: int, cachedTokens: int, outputTokens: int, reasoningTokens: int,
    contextTokens: int, compactionObserved: bool, acknowledged: bool)

  function Max(a: int, b: int): int {
    if a > b then a else b
  }

  /** The part of a turn that grows the context. */
  function CompactionTokens(r: TurnResult): int {
    Max(r.tokensTurn - r.cachedTokens, 0)
  }

  function LastContextTokens(s: Session): int {
    if s.contextTokens < 0 then -1
    else if s.contextTokens > 0 then s.contextTokens
    else if s.turnRecords != [] then
      var r := s.turnRecords[|s.turnRecords| - 1];
      Max(r.newInput + r.cachedInput - r.output, 0)
    else 0
  }

  // ----- What the ledger is measured by

  lemma SameContext(a: Session, b: Session)
    requires a.contextTokens == b.contextTokens && a.turnRecords == b.turnRecords
    ensures LastContextTokens(a) == LastContextTokens(b)
  {
  }

  datatype Event =
    | TurnStarted
    | TurnRecorded(record: TurnRecord, reply: Reply)
    | CompactionRecorded
    | UsageLimitRecorded(quotaAvailable: bool)
    | OtherRecorded

  function SumCached(records: seq<TurnRecord>): int {
    if records == [] then 0 else SumCached(records[..|records| - 1]) + records[|records| - 1].cachedInput
  }

  function SumOutput(records: seq<TurnRecord>): int {
    if records == [] then 0 else SumOutput(records[..|records| - 1]) + records[|records| - 1].output
  }

  /** New input recorded since the last compaction that was recorded. */
  function NewInputSince(h: seq<Event>): int {
    if h == [] then 0
    else
      match h[|h| - 1]
      case CompactionRecorded => 0
      case TurnRecorded(record, _) => NewInputSince(h[..|h| - 1]) + record.newInput
      case _ => NewInputSince(h[..|h| - 1])
  }

  function AllReplies(h: seq<Event>): seq<Reply> {
    if h == [] then []
    else AllReplies(h[..|h| - 1]) + if h[|h| - 1].TurnRecorded? then [h[|h| - 1].reply] else []
  }

  function Last<T>(xs: seq<T>, n: nat): seq<T> {
    if |xs| <= n then xs else xs[|xs| - n..]
  }

  /** A usage-limit failure was recorded and no successful turn since. */
  predicate LimitedSinceSuccess(h: seq<Event>) {
    h != [] &&
    match h[|h| - 1]
    case UsageLimitRecorded(_) => true
    case TurnRecorded(_, _) => false
    case _ => LimitedSinceSuccess(h[..|h| - 1])
  }

  /** The history that puts a session into quarantine: a second usage-limit failure with no
      success since the first, seen with quota available, and no turn started after it. */
  predicate QuarantineDeserved(h: seq<Event>) {
    exists j | 0 <= j < |h| ::
      h[j] == UsageLimitRecorded(true) && LimitedSinceSuccess(h[..j]) && forall k | j < k < |h| :: !h[k].TurnStarted?
  }

  predicate Ascending(records: seq<TurnRecord>) {
    forall i, j | 0 <= i < j < |records| :: records[i].turn < records[j].turn
  }

  predicate TurnsInRange(s: Session) {
    forall r | r in s.turnRecords :: 1 <= r.turn <= s.turn
  }

  ghost predicate LedgerAgrees(s: Session, h: seq<Event>, limit: nat) {
    && Ascending(s.turnRecords) && TurnsInRange(s)
    && s.cachedTotal == SumCached(s.turnRecords) && s.outputTotal == SumOutput(s.turnRecords)
    && s.tokensSinceCompact == NewInputSince(h)
    && s.replyHistory == Last(AllReplies(h), limit)
  }

  ghost predicate QuotaAgrees(s: Session, h: seq<Event>) {
    && (s.quotaResumePending ==> LimitedSinceSuccess(h))
    && (s.quarantine.Some? ==> QuarantineDeserved(h))
  }

  // ----- How single changes carry over

  /** The last `n`, or all if there are no more. */
  lemma LastMeans(xs: seq<Reply>, n: nat)
    ensures var last := Last(xs, n);
            && |last| <= n && (|last| == n || last == xs)
            && exists before :: xs == before + last
  {
    var last := Last(xs, n);
    assert xs == xs[..|xs| - |last|] + last;
  }

  lemma LastGrows(xs: seq<Reply>, n: nat, x: Reply)
    requires n > 0
    ensures Last(Last(xs, n) + [x], n) == Last(xs + [x], n)
  {
  }

  /** An event that records nothing about tokens or replies. */
  lemma QuietEvent(h: seq<Event>, e: Event)
    requires e.TurnStarted? || e.UsageLimitRecorded? || e.OtherRecorded?
    ensures NewInputSince(h + [e]) == NewInputSince(h) && AllReplies(h + [e]) == AllReplies(h)
    ensures e.UsageLimitRecorded? ==> LimitedSinceSuccess(h + [e])
    ensures !e.UsageLimitRecorded? ==> (LimitedSinceSuccess(h + [e]) <==> LimitedSinceSuccess(h))
  {
    assert (h + [e])[..|h|] == h;
  }

  lemma DesertLasts(h: seq<Event>, e: Event)
    requires QuarantineDeserved(h) && !e.TurnStarted?
    ensures QuarantineDeserved(h + [e])
  {
    var j :| 0 <= j < |h| && h[j] == UsageLimitRecorded(true)
      && LimitedSinceSuccess(h[..j]) && forall k | j < k < |h| :: !h[k].TurnStarted?;
    assert (h + [e])[..j] == h[..j];
  }

  lemma SecondLimitDeserves(h: seq<Event>)
    requires LimitedSinceSuccess(h)
    ensures QuarantineDeserved(h + [UsageLimitRecorded(true)])
  {
    var longer := h + [UsageLimitRecorded(true)];
    assert longer[|h|] == UsageLimitRecorded(true) && longer[..|h|] == h;
  }

  lemma TurnRecordedEvent(h: seq<Event>, record: TurnRecord, reply: Reply)
    ensures var longer := h + [TurnRecorded(record, reply)];
            && NewInputSince(longer) == NewInputSince(h) + record.newInput
            && AllReplies(longer) == AllReplies(h) + [reply]
  {
    assert (h + [TurnRecorded(record, reply)])[..|h|] == h;
  }

  lemma CompactionEvent(h: seq<Event>)
    ensures NewInputSince(h + [CompactionRecorded]) == 0
    ensures AllReplies(h + [CompactionRecorded]) == AllReplies(h)
    ensures LimitedSinceSuccess(h + [CompactionRecorded]) <==> LimitedSinceSuccess(h)
  {
    assert (h + [CompactionRecorded])[..|h|] == h;
  }

  lemma AppendedRecord(records: seq<TurnRecord>, r: TurnRecord)
    ensures SumCached(records + [r]) == SumCached(records) + r.cachedInput
    ensures SumOutput(records + [r]) == SumOutput(records) + r.output
  {
    assert (records + [r])[..|records|] == records;
  }

  /** Rating a record changes no count. */
  lemma {:induction false} RatedRecord(records: seq<TurnRecord>, i: nat, rating: int, reason: string)
    requires i < |records|
    ensures var rated := records[i := records[i].(rating := Some(rating), reason := reason)];
            SumCached(rated) == SumCached(records) && SumOutput(rated) == SumOutput(records)
  {
    var n := |records| - 1;
    var rated := records[i := records[i].(rating := Some(rating), reason := reason)];
    if i < n {
      RatedRecord(records[..n], i, rating, reason);
      assert rated[..n] == records[..n][i := records[i].(rating := Some(rating), reason := reason)];
    } else {
      assert rated[..n] == records[..n];
    }
  }

  // ----- The operations

  datatype StartEnd =
    | StartSucceeded(r: TurnResult)
    | StartFailed(message: string)
    | StartSignalled
    | StartCrossedThreshold
    | StartCrashed                 // the process ended before it stored an outcome

  datatype CompactMode = Manual | Native | Disabled

  datatype TurnEnd =
    | Succeeded(r: TurnResult)
    | FailedWith(message: string, usageLimit: bool)
    | Signalled
    | CrossedThreshold
    | Crashed

  /** Everything a resume meets but does not decide. */
  datatype ResumeEnv = ResumeEnv(
    isWorker: bool,                // a detached worker, started by a resume that already stored "running"
    detach: bool, launchFailed: bool, restoreSaved: bool,
    writerAlive: bool, staleSaved: bool, modelBlocked: bool, quotaExhausted: bool, refused: bool,
    mode: CompactMode, threshold: int, compaction: Option<TurnResult>,
    queueRead: bool, runningSaved: bool,
    end: TurnEnd, quotaAvailable: bool, replyLimitRead: bool, endSaved: bool, quotaSaved: bool)

  /** compaction is called for, and its result shows a drop (EnsureContextUnderThreshold) */
  datatype CompactCheck = Skip | Refuse | Verified

  function CheckCompaction(contextTokens: int, threshold: int, result: Option<TurnResult>): CompactCheck {
    if contextTokens < 0 then Skip
    else if contextTokens == 0 then Refuse
    else if contextTokens < threshold then Skip
    else
      match result
      case None => Refuse
      case Some(r) =>
        if (r.compactionObserved || r.acknowledged) && 0 < r.contextTokens < contextTokens then Verified else Refuse
  }

  function Recorded(turn: nat, r: TurnResult): TurnRecord {
    TurnRecord(turn, if r.tokensTurn > r.cachedTokens then r.tokensTurn - r.cachedTokens else 0, r.cachedTokens,
               r.outputTokens, None, "")
  }

  class SessionStore {
    var stored: Session
    const limit: nat
    ghost var history: seq<Event>

    ghost predicate Valid()
      reads this
    {
      limit > 0 && LedgerAgrees(stored, history, limit) && QuotaAgrees(stored, history)
    }

    /** recordAgentReply */
    static function WithReply(s: Session, turn: nat, text: string, limit: nat): Session {
      s.(replyHistory := Last(s.replyHistory + [Reply(turn, text)], limit))
    }

    // What each operation adds to the history.

    static function StartEvents(end: StartEnd, replyLimitRead: bool, saved: bool): seq<Event> {
      [OtherRecorded, TurnStarted]
      + match end
        case StartSucceeded(r) =>
          if replyLimitRead && saved then [TurnRecorded(Recorded(1, r), Reply(1, r.response))] else []
        case StartCrashed => []
        case _ => if saved then [OtherRecorded] else []
    }

    /** A stale running record is marked before anything else is checked. */
    static function AdmitEvents(s: Session, env: ResumeEnv): seq<Event> {
      if !env.isWorker && !env.writerAlive && s.status == Running && env.staleSaved then [OtherRecorded] else []
    }

    /** A manual compaction is due: the size is known and not under the limit. */
    static predicate Due(env: ResumeEnv, contextTokens: int) {
      env.mode == Manual && contextTokens > 0 && contextTokens >= env.threshold
    }

    /** The compaction was acknowledged and left a smaller context. */
    static predicate DropShown(env: ResumeEnv, contextTokens: int) {
      && env.compaction.Some? && (env.compaction.value.compactionObserved || env.compaction.value.acknowledged)
      && 0 < env.compaction.value.contextTokens < contextTokens
    }

    static predicate Compacts(env: ResumeEnv, contextTokens: int) {
      Due(env, contextTokens) && DropShown(env, contextTokens)
    }

    /** No compaction is called for: another mode, an unknown size, or one under the limit. */
    static predicate NeedsNone(env: ResumeEnv, contextTokens: int) {
      env.mode != Manual || contextTokens < 0 || 0 < contextTokens < env.threshold
    }

    /** An unavailable size, or a compaction that is due and shows no drop. */
    static predicate RefusesManual(env: ResumeEnv, contextTokens: int) {
      (env.mode == Manual && contextTokens == 0) || (Due(env, contextTokens) && !DropShown(env, contextTokens))
    }

    /** The running record, with the compaction if there was one; a detached launch that fails puts it back. */
    static function PrepareEvents(env: ResumeEnv, contextTokens: int): seq<Event> {
      if RefusesManual(env, contextTokens) || !env.queueRead || env.isWorker || !env.runningSaved then []
      else
        [if Compacts(env, contextTokens) then CompactionRecorded else OtherRecorded]
        + if env.detach && env.launchFailed && env.restoreSaved then [OtherRecorded] else []
    }

    /** Whether the end of a turn stores the session at all. */
    static predicate StoresEnd(s: Session, env: ResumeEnv, contextTokens: int) {
      match env.end
      case Succeeded(_) => env.endSaved && (RefusesNative(env, contextTokens) || env.replyLimitRead)
      case FailedWith(_, usageLimit) => env.endSaved || (s.provider == "codex" && usageLimit && env.quotaSaved)
      case Crashed => false
      case _ => env.endSaved
    }

    /** The end of a turn: first a worker's compaction, which only this store brings to the disk. */
    static function FinishEvents(s: Session, env: ResumeEnv, compacted: bool, contextTokens: int): seq<Event> {
      (if compacted && StoresEnd(s, env, contextTokens) then [CompactionRecorded] else [])
      + match env.end
        case Succeeded(r) =>
          if !StoresEnd(s, env, contextTokens) then []
          else if RefusesNative(env, contextTokens) then [OtherRecorded]
          else [TurnRecorded(Recorded(s.turn + 1, r), Reply(s.turn + 1, r.response))]
        case FailedWith(_, usageLimit) =>
          (if env.endSaved then [OtherRecorded] else [])
          + if s.provider == "codex" && usageLimit && env.quotaSaved
            then [UsageLimitRecorded(env.quotaAvailable)] else []
        case Crashed => []
        case _ => if env.endSaved then [OtherRecorded] else []
    }

    static lemma SameFinishEvents(a: Session, b: Session, env: ResumeEnv, compacted: bool, contextTokens: int)
      requires a.provider == b.provider && a.turn == b.turn
      ensures FinishEvents(a, env, compacted, contextTokens) == FinishEvents(b, env, compacted, contextTokens)
    {
      hide RefusesNative;
    }

    static function ResumeEvents(s: Session, env: ResumeEnv): seq<Event> {
      var contextTokens := LastContextTokens(s);
      AdmitEvents(s, env)
      + if !Admits(s, env) then []
        else
          PrepareEvents(env, contextTokens)
          + if !Prepares(env, contextTokens) then []
            else [TurnStarted] + FinishEvents(s, env, env.isWorker && Compacts(env, contextTokens), contextTokens)
    }

    /** The reserved record agrees with its history. */
    static lemma ReservedAgrees(s: Session, limit: nat)
      requires s.turnRecords == [] && s.replyHistory == [] && !s.quotaResumePending && s.quarantine.None?
      requires s.cachedTotal == s.outputTotal == s.tokensSinceCompact == 0
      ensures LedgerAgrees(s, [OtherRecorded, TurnStarted], limit) && QuotaAgrees(s, [OtherRecorded, TurnStarted])
    {
      QuietEvent([], OtherRecorded);
      QuietEvent([OtherRecorded], TurnStarted);
      assert [OtherRecorded] + [TurnStarted] == [OtherRecorded, TurnStarted];
    }

    /** runStart: the reserved record, then the outcome of the first turn. */
    constructor RunStart(limit: nat, provider: string, end: StartEnd, replyLimitRead: bool, saved: bool)
      requires limit > 0
      ensures Valid() && this.limit == limit && stored.provider == provider
      ensures history == StartEvents(end, replyLimitRead, saved)
      ensures stored.turn <= 1 && stored.quarantine.None? && !stored.quotaResumePending
      ensures end.StartSucceeded? && replyLimitRead && saved ==>
        stored.status == Completed && stored.turn == 1 && stored.turnRecords == [Recorded(1, end.r)] &&
        stored.replyHistory == [Reply(1, end.r.response)] &&
        stored.tokensCumulative == stored.tokensTurn == end.r.tokensTurn && stored.inputTotal == end.r.inputTokens &&
        stored.reasoningTotal == end.r.reasoningTokens && stored.contextTokens == end.r.contextTokens
      ensures end.StartFailed? && saved ==> stored.status == Failed && stored.lastError == end.message
      ensures (end.StartSignalled? || end.StartCrossedThreshold?) && saved ==> stored.status == Stopped
      ensures end.StartCrossedThreshold? && saved ==>
        stored.turn == 1 && stored.lastError == WATCHDOG
    {
      var sess := Session(provider, Running, "", 0, "", 0, [], [], 0, 0, 0, 0, 0, 0, 0, 0, 0, false, None);
      stored := sess;
      this.limit := limit;
      history := [OtherRecorded, TurnStarted];
      new;
      ReservedAgrees(sess, limit);
      hide WATCHDOG, LedgerAgrees, QuotaAgrees, Recorded;
      match end {
        case StartSucceeded(r) =>
          StoreFirstTurn(r, replyLimitRead, saved);
        case StartFailed(message) =>
          Store(sess.(status := Failed, lastError := message), saved);
        case StartSignalled =>
          Store(sess.(status := Stopped), saved);
        case StartCrossedThreshold =>
          Store(sess.(status := Stopped, lastError := WATCHDOG, turn := 1), saved);
        case StartCrashed =>
      }
    }

    /** The first turn has succeeded. */
    method StoreFirstTurn(r: TurnResult, replyLimitRead: bool, saved: bool)
      requires Valid() && stored.quarantine.None? && !stored.quotaResumePending
      requires stored.turn == 0 && stored.turnRecords == [] && stored.replyHistory == []
      requires stored.cachedTotal == stored.outputTotal == stored.tokensSinceCompact == 0
      modifies this
      ensures Valid()
      ensures stored == if !replyLimitRead || !saved then old(stored) else
        old(stored).(status := Completed, turn := 1, turnRecords := [Recorded(1, r)],
          tokensTurn := r.tokensTurn, tokensCumulative := r.tokensTurn, inputTotal := r.inputTokens,
          cachedTotal := r.cachedTokens, outputTotal := r.outputTokens, reasoningTotal := r.reasoningTokens,
          tokensSinceCompact := Recorded(1, r).newInput, contextTokens := r.contextTokens,
          replyHistory := [Reply(1, r.response)])
      ensures history == old(history) +
        if replyLimitRead && saved then [TurnRecorded(Recorded(1, r), Reply(1, r.response))] else []
    {
      hide LedgerAgrees, QuotaAgrees;
      if !replyLimitRead {
        return;
      }
      var record := TurnRecord(1, CompactionTokens(r), r.cachedTokens, r.outputTokens, None, "");
      var sess := stored.(status := Completed, turn := 1, turnRecords := [record],
        tokensTurn := r.tokensTurn, tokensCumulative := r.tokensTurn, inputTotal := r.inputTokens,
        cachedTotal := r.cachedTokens, outputTotal := r.outputTokens, reasoningTotal := r.reasoningTokens,
        tokensSinceCompact := CompactionTokens(r), contextTokens := r.contextTokens);
      sess := WithReply(sess, 1, r.response, limit);
      if saved {
        StoreTurn(sess, record, Reply(1, r.response));
      }
    }

    /** Store a copy whose ledger differs at most by a higher turn number. */
    method Store(sess: Session, saved: bool)
      requires Valid()
      requires sess.turnRecords == stored.turnRecords
        && sess.replyHistory == stored.replyHistory && sess.turn >= stored.turn
      requires sess.cachedTotal == stored.cachedTotal && sess.outputTotal == stored.outputTotal
      requires sess.tokensSinceCompact == stored.tokensSinceCompact
      requires (sess.quotaResumePending ==> stored.quotaResumePending) && sess.quarantine == stored.quarantine
      modifies this
      ensures Valid() && stored == (if saved then sess else old(stored))
      ensures history == old(history) + if saved then [OtherRecorded] else []
    {
      if saved {
        stored := sess;
        history := history + [OtherRecorded];
        QuietEvent(old(history), OtherRecorded);
        if QuarantineDeserved(old(history)) {
          DesertLasts(old(history), OtherRecorded);
        }
      }
    }

    /** Store a copy in which one more turn is recorded. */
    method StoreTurn(sess: Session, record: TurnRecord, reply: Reply)
      requires Valid() && stored.quarantine.None?
      requires sess.turn == record.turn > stored.turn
        || (sess.turn == record.turn && sess.turn >= 1 && stored.turnRecords == [])
      requires sess.turnRecords == stored.turnRecords + [record]
      requires sess.replyHistory == Last(stored.replyHistory + [reply], limit)
      requires sess.cachedTotal == stored.cachedTotal + record.cachedInput
        && sess.outputTotal == stored.outputTotal + record.output
      requires sess.tokensSinceCompact == stored.tokensSinceCompact + record.newInput
      requires !sess.quotaResumePending && sess.quarantine.None?
      modifies this
      ensures Valid() && stored == sess && history == old(history) + [TurnRecorded(record, reply)]
    {
      stored := sess;
      history := history + [TurnRecorded(record, reply)];
      TurnRecordedEvent(old(history), record, reply);
      AppendedRecord(old(stored).turnRecords, record);
      LastGrows(AllReplies(old(history)), limit, reply);
    }

    /** Store a copy whose compaction counter was reset. */
    method StoreCompaction(sess: Session)
      requires Valid()
      requires sess == stored.(status := sess.status, contextTokens := sess.contextTokens,
        compactionCount := sess.compactionCount, tokensSinceCompact := 0)
      modifies this
      ensures Valid() && stored == sess && history == old(history) + [CompactionRecorded]
    {
      stored := sess;
      history := history + [CompactionRecorded];
      CompactionEvent(old(history));
      if QuarantineDeserved(old(history)) {
        DesertLasts(old(history), CompactionRecorded);
      }
    }

    /** The provider is called: nothing is stored, but the history knows. */
    ghost method StartTurn()
      requires Valid() && stored.quarantine.None?
      modifies this`history
      ensures Valid() && history == old(history) + [TurnStarted]
    {
      history := history + [TurnStarted];
      QuietEvent(old(history), TurnStarted);
    }

    /** recordCodexResumeFailure and the save that follows it. */
    method StoreUsageLimit(failed: Session, message: string, quotaAvailable: bool, saved: bool)
      requires Valid() && stored.quarantine.None?
      requires failed ==
        stored.(status := failed.status, lastError := failed.lastError, resumeFailures := failed.resumeFailures,
                                 tokensSinceCompact := stored.tokensSinceCompact)
      modifies this
      ensures Valid()
      ensures stored ==
        if !saved then old(stored)
        else if old(stored).quotaResumePending && quotaAvailable
          then failed.(quarantine := Some(message), quotaResumePending := false)
        else failed.(quotaResumePending := true)
      ensures history == old(history) + if saved then [UsageLimitRecorded(quotaAvailable)] else []
    {
      if !saved {
        return;
      }
      QuietEvent(history, UsageLimitRecorded(quotaAvailable));
      if failed.quotaResumePending && quotaAvailable {
        SecondLimitDeserves(history);
        stored := failed.(quarantine := Some(message), quotaResumePending := false);
      } else {
        stored := failed.(quotaResumePending := true);
      }
      history := history + [UsageLimitRecorded(quotaAvailable)];
    }

    /** What a resume needs before it prepares a turn: no writer, or no more than a stale record that
        can be marked so, and nothing that blocks the session or its model. */
    static predicate Admits(s: Session, env: ResumeEnv) {
      && (env.isWorker || (!env.writerAlive && (s.status == Running ==> env.staleSaved)))
      && s.resumeBlocked == "" && s.quarantine.None? && !env.modelBlocked && !env.refused
      && !(s.provider == "codex" && s.quotaResumePending && env.quotaExhausted)
    }

    /** What it then needs to call the provider itself; a detaching resume leaves that to its worker. */
    static predicate Prepares(env: ResumeEnv, contextTokens: int) {
      && !RefusesManual(env, contextTokens) && env.queueRead && (env.isWorker || (env.runningSaved && !env.detach))
    }

    /** The checks that come before anything is sent (runResume up to the compaction). */
    method AdmitResume(env: ResumeEnv) returns (admitted: bool)
      requires Valid()
      modifies this
      ensures admitted <==> Admits(old(stored), env)
      ensures history == old(history) + AdmitEvents(old(stored), env)
      ensures Valid()
      ensures stored == old(stored) || stored == old(stored).(status := Failed, lastError := stored.lastError)
      ensures admitted ==> stored.resumeBlocked == "" && stored.quarantine.None?
      ensures env.isWorker ==> stored == old(stored)
    {
      hide LedgerAgrees, QuotaAgrees, STALE;
      var sess := stored;
      if !env.isWorker && env.writerAlive {
        return false;
      }
      if sess.status == Running && !env.isWorker {
        sess := sess.(status := Failed, lastError := STALE);
        Store(sess, env.staleSaved);
        if !env.staleSaved {
          return false;
        }
      }
      if sess.resumeBlocked != "" || sess.quarantine.Some? || env.modelBlocked {
        return false;
      }
      if sess.provider == "codex" && sess.quotaResumePending && env.quotaExhausted {
        return false;
      }
      return !env.refused;
    }

    /** What a resume leaves of the ledger when no turn is recorded. */
    static ghost predicate SameLedger(a: Session, b: Session) {
      && a.turn == b.turn && a.turnRecords == b.turnRecords && a.replyHistory == b.replyHistory
      && a.cachedTotal == b.cachedTotal && a.outputTotal == b.outputTotal && a.inputTotal == b.inputTotal
      && a.tokensCumulative == b.tokensCumulative && a.provider == b.provider
    }

    static lemma SameLedgerButStatus(a: Session, b: Session)
      requires b == a.(status := b.status, lastError := b.lastError, tokensSinceCompact := b.tokensSinceCompact)
      ensures SameLedger(b, a)
    {
    }

    static lemma SameLedgerAsBefore(a: Session, b: Session, c: Session)
      requires SameLedger(b, c)
      ensures SameLedger(a, b) ==> SameLedger(a, c)
    {
    }

    /** The ledger after a recorded turn. */
    static function AfterTurn(s: Session, r: TurnResult, limit: nat): Session {
      WithReply(
        s.(lastError := "", quotaResumePending := false, resumeFailures := 0,
           tokensTurn := r.tokensTurn, tokensCumulative := s.tokensCumulative + r.tokensTurn,
           tokensSinceCompact := s.tokensSinceCompact + Recorded(s.turn + 1, r).newInput,
           reasoningTotal := s.reasoningTotal + r.reasoningTokens, contextTokens := r.contextTokens,
           inputTotal := s.inputTotal + r.inputTokens, cachedTotal := s.cachedTotal + r.cachedTokens,
           outputTotal := s.outputTotal + r.outputTokens, status := Completed, turn := s.turn + 1,
           turnRecords := s.turnRecords + [Recorded(s.turn + 1, r)]),
        s.turn + 1, r.response, limit)
    }

    /** The next resume judges by the size the provider reported for the recorded turn; if it reported none,
        by all the turn's input, new or cached, less its output. */
    static lemma ContextAfterTurn(s: Session, r: TurnResult, limit: nat)
      ensures LastContextTokens(AfterTurn(s, r, limit)) ==
        if r.contextTokens != 0 then (if r.contextTokens < 0 then -1 else r.contextTokens)
        else
          var input := if r.tokensTurn > r.cachedTokens then r.tokensTurn else r.cachedTokens;
          if input > r.outputTokens then input - r.outputTokens else 0
      ensures s.contextTokens == 0 && s.turnRecords == [] ==> LastContextTokens(s) == 0
    {
    }

    /** One more turn is recorded, with the numbers the provider gave for it. */
    static ghost predicate TurnAppended(after: Session, before: Session, r: TurnResult, limit: nat) {
      && after.turn == before.turn + 1
      && after.turnRecords == before.turnRecords + [Recorded(after.turn, r)]
      && after.tokensTurn == r.tokensTurn && after.tokensCumulative == before.tokensCumulative + r.tokensTurn
      && after.inputTotal == before.inputTotal + r.inputTokens
      && after.cachedTotal == before.cachedTotal + r.cachedTokens
      && after.outputTotal == before.outputTotal + r.outputTokens
      && after.reasoningTotal == before.reasoningTotal + r.reasoningTokens
      && after.contextTokens == r.contextTokens
      && after.replyHistory == Last(before.replyHistory + [Reply(after.turn, r.response)], limit)
      && after.status == Completed && after.lastError == "" && after.resumeFailures == 0 && !after.quotaResumePending
    }

    static lemma AfterTurnAppended(s: Session, before: Session, r: TurnResult, limit: nat)
      requires s == before.(status := s.status, lastError := s.lastError, tokensSinceCompact := s.tokensSinceCompact)
      ensures TurnAppended(AfterTurn(s, r, limit), before, r, limit)
      ensures AfterTurn(s, r, limit).turn == before.turn + 1
      ensures AfterTurn(s, r, limit).tokensSinceCompact == s.tokensSinceCompact + CompactionTokens(r)
    {
      hide Last;
    }

    /** runResume: one more turn, or a refusal.  `started` tells whether the provider was called. */
    method RunResume(env: ResumeEnv) returns (started: bool)
      requires Valid()
      modifies this
      ensures Valid()
      ensures history == old(history) + ResumeEvents(old(stored), env)
      ensures started <==> Admits(old(stored), env) && Prepares(env, LastContextTokens(old(stored)))
      // a quarantined session never reaches the provider again, and stays quarantined
      ensures old(stored).quarantine.Some? ==> !started && stored.quarantine == old(stored).quarantine
      ensures TurnStarted in ResumeEvents(old(stored), env) <==> started
      ensures started ==> old(stored).quarantine.None? && old(stored).resumeBlocked == ""
      // a turn is recorded when it succeeded and was saved, and then it is the next one
      ensures started && env.end.Succeeded? && env.replyLimitRead && env.endSaved
              && !RefusesNative(env, LastContextTokens(old(stored))) ==>
        TurnAppended(stored, old(stored), env.end.r, limit)
      ensures !(started && env.end.Succeeded? && env.replyLimitRead && env.endSaved) ==> SameLedger(stored, old(stored))
      // a native compaction that was due and did not happen blocks the session for good
      ensures started && RefusesNative(env, LastContextTokens(old(stored))) ==>
        SameLedger(stored, old(stored)) && (env.endSaved ==> stored.resumeBlocked != "")
      // a usage limit: pending first, quarantine when it was pending and quota is available
      ensures started && env.end.FailedWith? && env.end.usageLimit && stored.provider == "codex" && env.quotaSaved ==>
        if old(stored).quotaResumePending && env.quotaAvailable then stored.quarantine == Some(env.end.message)
        else stored.quotaResumePending && stored.quarantine.None?
      // the status after a turn that did not succeed
      ensures started ==>
        EndStatus(stored, old(stored).(status := if env.isWorker then old(stored).status else Running), env)
      // a manual compaction that is due lets the turn go ahead only if it was acknowledged and shows a drop;
      // with no size available the turn never goes ahead
      ensures started && env.mode == Manual && LastContextTokens(old(stored)) >= env.threshold > 0 ==>
        && env.compaction.Some? && (env.compaction.value.compactionObserved || env.compaction.value.acknowledged)
        && 0 < env.compaction.value.contextTokens < LastContextTokens(old(stored))
      ensures env.mode == Manual && LastContextTokens(old(stored)) == 0 ==> !started
      // below the limit, or with a size that is unknown, compaction neither stops a turn nor resets the counter
      ensures NeedsNone(env, LastContextTokens(old(stored))) ==>
        && (started <==>
            Admits(old(stored), env) && env.queueRead && (env.isWorker || (env.runningSaved && !env.detach)))
        && (stored.tokensSinceCompact == old(stored).tokensSinceCompact
            || (env.end.Succeeded? && stored.turn == old(stored).turn + 1
                && stored.tokensSinceCompact == old(stored).tokensSinceCompact + CompactionTokens(env.end.r)))
    {
      hide LedgerAgrees, QuotaAgrees, CheckCompaction, LastContextTokens, AdmitEvents, PrepareEvents, FinishEvents,
        Admits, Prepares, Compacts, NeedsNone, Last, EndStatus, SameLedger, AfterTurn, TurnAppended, Recorded,
        CompactionTokens;
      TurnAmongEvents(stored, env);
      started := false;
      var admitted := AdmitResume(env);
      SameLedgerButStatus(old(stored), stored);
      if !admitted {
        return;
      }
      ghost var found := stored;
      var contextTokens := LastContextTokens(stored);
      SameContext(stored, old(stored));
      CompactionDecides(env, contextTokens);
      var go, compacted := PrepareTurn(env, contextTokens);
      SameLedgerButStatus(found, stored);
      SameLedgerAsBefore(stored, found, old(stored));
      if !go {
        return;
      }
      StartTurn();
      started := true;
      SameFinishEvents(stored, old(stored), env, compacted, contextTokens);
      ghost var begun := stored;
      if env.end.Succeeded? {
        AfterTurnAppended(if compacted then begun.(tokensSinceCompact := 0) else begun, old(stored), env.end.r, limit);
      }
      FinishTurn(env, stored, compacted, contextTokens);
      SameLedgerAsBefore(stored, begun, old(stored));
      SameEndStatus(stored, begun, old(stored).(status := if env.isWorker then old(stored).status else Running), env);
    }

    static lemma TurnAmongEvents(s: Session, env: ResumeEnv)
      ensures TurnStarted in ResumeEvents(s, env) <==> Admits(s, env) && Prepares(env, LastContextTokens(s))
    {
      hide LastContextTokens, Prepares, Admits, FinishEvents;
      var contextTokens := LastContextTokens(s);
      if Admits(s, env) && Prepares(env, contextTokens) {
        var before := AdmitEvents(s, env) + PrepareEvents(env, contextTokens);
        assert ResumeEvents(s, env)[|before|] == TurnStarted;
      }
    }

    /** What the checks of the size amount to. */
    static lemma CompactionDecides(env: ResumeEnv, contextTokens: int)
      ensures contextTokens >= 0 && env.mode == Manual ==>
        var check := CheckCompaction(contextTokens, env.threshold, env.compaction);
        (check == Verified <==> Compacts(env, contextTokens))
          && (check == Refuse <==> RefusesManual(env, contextTokens))
      ensures Prepares(env, contextTokens) && env.mode == Manual && contextTokens >= env.threshold > 0 ==>
        && env.compaction.Some? && (env.compaction.value.compactionObserved || env.compaction.value.acknowledged)
        && 0 < env.compaction.value.contextTokens < contextTokens
      ensures env.mode == Manual && contextTokens == 0 ==> !Prepares(env, contextTokens)
      ensures NeedsNone(env, contextTokens) ==> !Compacts(env, contextTokens)
      ensures NeedsNone(env, contextTokens) ==>
        (Prepares(env, contextTokens) <==> env.queueRead && (env.isWorker || (env.runningSaved && !env.detach)))
      ensures RefusesManual(env, contextTokens) ==> env.mode == Manual && contextTokens >= 0
      ensures Compacts(env, contextTokens) ==> env.mode == Manual && contextTokens >= 0
      ensures Compacts(env, contextTokens) ==> !RefusesManual(env, contextTokens)
    {
    }

    /** Compaction and the running record.  `compacted` is a compaction that is not stored yet. */
    method PrepareTurn(env: ResumeEnv, contextTokens: int) returns (go: bool, compacted: bool)
      requires Valid()
      modifies this
      ensures Valid()
      ensures stored == old(stored).(status := stored.status, tokensSinceCompact := stored.tokensSinceCompact)
      ensures compacted ==> env.mode == Manual
      ensures go <==> Prepares(env, contextTokens)
      ensures go ==> (compacted <==> env.isWorker && Compacts(env, contextTokens))
      ensures history == old(history) + PrepareEvents(env, contextTokens)
      ensures go && env.mode == Manual && contextTokens >= env.threshold > 0 ==>
        && env.compaction.Some? && (env.compaction.value.compactionObserved || env.compaction.value.acknowledged)
        && 0 < env.compaction.value.contextTokens < contextTokens
      ensures env.mode == Manual && contextTokens == 0 ==> !go
      ensures NeedsNone(env, contextTokens) ==>
        && (go <==> env.queueRead && (env.isWorker || (env.runningSaved && !env.detach)))
        && stored.tokensSinceCompact == old(stored).tokensSinceCompact && !compacted
      ensures go ==> stored.status == if env.isWorker then old(stored).status else Running
    {
      CompactionDecides(env, contextTokens);
      hide LedgerAgrees, QuotaAgrees, CheckCompaction, Compacts, RefusesManual, NeedsNone;
      var sess := stored;
      go, compacted := false, false;
      if contextTokens >= 0 && env.mode == Manual {
        var check := CheckCompaction(contextTokens, env.threshold, env.compaction);
        if check == Refuse {
          return;
        }
        compacted := check == Verified;
      }
      if !env.queueRead {
        return;
      }
      if env.isWorker {
        go := true;
        return;
      }
      if !env.runningSaved {
        return;
      }
      if compacted {
        StoreCompaction(sess.(status := Running, tokensSinceCompact := 0));
        compacted := false;
      } else {
        Store(sess.(status := Running), true);
      }
      if env.detach {
        // the worker runs the turn; if it never started, the record is put back
        if env.launchFailed {
          Store(stored.(status := sess.status), env.restoreSaved);
        }
        return;
      }
      go := true;
    }

    /** The status a turn leaves that did not succeed, or that was not stored. */
    static ghost predicate EndStatus(after: Session, before: Session, env: ResumeEnv) {
      && (env.end.FailedWith? && env.endSaved ==>
            && after.status == Failed && after.lastError == env.end.message
            && after.resumeFailures == before.resumeFailures + 1)
      && (env.end.Signalled? && env.endSaved ==> after.status == Stopped)
      && (env.end.CrossedThreshold? && env.endSaved ==>
            after.status == Stopped && after.lastError == WATCHDOG)
      && (env.end.Crashed? || (!env.endSaved && !env.end.FailedWith?) ==> after.status == before.status)
    }

    static lemma SameEndStatus(after: Session, a: Session, b: Session, env: ResumeEnv)
      requires EndStatus(after, a, env) && a.status == b.status && a.resumeFailures == b.resumeFailures
      ensures EndStatus(after, b, env)
    {
    }

    /** The end of a turn.  A worker's compaction is only stored here. */
    method FinishTurn(env: ResumeEnv, local: Session, compacted: bool, contextTokens: int)
      requires Valid() && stored == local && stored.quarantine.None? && stored.resumeBlocked == ""
      requires compacted ==> env.mode == Manual
      modifies this
      ensures Valid() && history == old(history) + FinishEvents(local, env, compacted, contextTokens)
      ensures env.end.Succeeded? && RefusesNative(env, contextTokens) ==>
        SameLedger(stored, local) && (env.endSaved ==> stored.resumeBlocked != "")
      ensures env.end.Succeeded? && env.replyLimitRead && env.endSaved && !RefusesNative(env, contextTokens) ==>
        stored == AfterTurn(if compacted then local.(tokensSinceCompact := 0) else local, env.end.r, limit)
      ensures !(env.end.Succeeded? && env.replyLimitRead && env.endSaved) ==> SameLedger(stored, local)
      ensures env.end.FailedWith? && env.end.usageLimit && stored.provider == "codex" && env.quotaSaved ==>
        if local.quotaResumePending && env.quotaAvailable then stored.quarantine == Some(env.end.message)
        else stored.quotaResumePending && stored.quarantine.None?
      ensures stored.provider == local.provider
      ensures EndStatus(stored, local, env)
      ensures !compacted ==>
        || stored.tokensSinceCompact == local.tokensSinceCompact
        || (env.end.Succeeded? && env.replyLimitRead && env.endSaved && !RefusesNative(env, contextTokens))
      // a compaction reaches the disk with whatever save succeeds, and is lost when none does
      ensures compacted && (env.end.Crashed? || (!env.endSaved && !env.end.FailedWith?)) ==> stored == local
      ensures compacted && env.end.FailedWith? && !env.endSaved ==>
        stored.tokensSinceCompact ==
          if env.end.usageLimit && env.quotaSaved && stored.provider == "codex" then 0 else local.tokensSinceCompact
      ensures compacted && env.endSaved && !env.end.Crashed? && !env.end.Succeeded? ==> stored.tokensSinceCompact == 0
    {
      hide LedgerAgrees, QuotaAgrees;
      if compacted && StoresEnd(stored, env, contextTokens) {
        StoreCompaction(stored.(tokensSinceCompact := 0));
      }
      if env.end.Succeeded? {
        FinishSuccess(env, contextTokens);
      } else {
        FinishFailure(env);
      }
    }

    method FinishFailure(env: ResumeEnv)
      requires Valid() && stored.quarantine.None? && !env.end.Succeeded?
      modifies this
      ensures Valid() && SameLedger(stored, old(stored))
      ensures history == old(history) + FinishEvents(old(stored), env, false, 0)
      ensures EndStatus(stored, old(stored), env) && stored.tokensSinceCompact == old(stored).tokensSinceCompact
      ensures env.end.Crashed? ==> stored == old(stored)
      ensures !env.endSaved && !(env.end.FailedWith? && env.end.usageLimit && env.quotaSaved) ==> stored == old(stored)
      ensures !env.endSaved && old(stored).provider != "codex" ==> stored == old(stored)
      ensures env.end.FailedWith? && env.end.usageLimit && stored.provider == "codex" && env.quotaSaved ==>
        if old(stored).quotaResumePending && env.quotaAvailable then stored.quarantine == Some(env.end.message)
        else stored.quotaResumePending && stored.quarantine.None?
    {
      hide LedgerAgrees, QuotaAgrees;
      var sess := stored;
      match env.end {
        case Crashed =>
        case Signalled =>
          Store(sess.(status := Stopped), env.endSaved);
        case CrossedThreshold =>
          Store(sess.(status := Stopped, lastError := WATCHDOG), env.endSaved);
        case FailedWith(message, usageLimit) =>
          var failed := sess.(lastError := message, status := Failed, resumeFailures := sess.resumeFailures + 1);
          Store(failed, env.endSaved);
          if sess.provider == "codex" && usageLimit {
            StoreUsageLimit(failed, message, env.quotaAvailable, env.quotaSaved);
          }
      }
    }

    method FinishSuccess(env: ResumeEnv, contextTokens: int)
      requires Valid() && stored.quarantine.None? && stored.resumeBlocked == "" && env.end.Succeeded?
      modifies this
      ensures Valid() && stored.provider == old(stored).provider
      ensures history == old(history) + FinishEvents(old(stored), env, false, contextTokens)
      ensures RefusesNative(env, contextTokens) ==>
        && SameLedger(stored, old(stored)) && stored.tokensSinceCompact == old(stored).tokensSinceCompact
        && (env.endSaved ==> stored.resumeBlocked != "" && stored.status == Completed)
      ensures !env.endSaved ==> stored == old(stored)
      ensures !RefusesNative(env, contextTokens) ==>
        stored == if env.replyLimitRead && env.endSaved then AfterTurn(old(stored), env.end.r, limit) else old(stored)
    {
      hide LedgerAgrees, QuotaAgrees;
      var sess, r := stored, env.end.r;
      if env.mode == Native && contextTokens >= env.threshold
        && (!r.compactionObserved || r.contextTokens < 0 || r.contextTokens >= env.threshold) {
        Store(sess.(resumeBlocked := "Codex did not auto-compact session", status := Completed), env.endSaved);
        return;
      }
      if !env.replyLimitRead || !env.endSaved {
        return;
      }
      var record := TurnRecord(sess.turn + 1, CompactionTokens(r), r.cachedTokens, r.outputTokens, None, "");
      var next := sess.(lastError := "", quotaResumePending := false, resumeFailures := 0, tokensTurn := r.tokensTurn,
        tokensCumulative := sess.tokensCumulative + r.tokensTurn,
        tokensSinceCompact := sess.tokensSinceCompact + CompactionTokens(r),
        reasoningTotal := sess.reasoningTotal + r.reasoningTokens, contextTokens := r.contextTokens,
        inputTotal := sess.inputTotal + r.inputTokens, cachedTotal := sess.cachedTotal + r.cachedTokens,
        outputTotal := sess.outputTotal + r.outputTokens, status := Completed, turn := sess.turn + 1);
      next := WithReply(next, next.turn, r.response, limit);
      StoreTurn(next.(turnRecords := next.turnRecords + [record]), record, Reply(next.turn, r.response));
    }

    /** A native compaction that was due but did not happen blocks the session. */
    static predicate RefusesNative(env: ResumeEnv, contextTokens: int) {
      && env.end.Succeeded? && env.mode == Native && contextTokens >= env.threshold
      && (!env.end.r.compactionObserved || env.end.r.contextTokens < 0 || env.end.r.contextTokens >= env.threshold)
    }

    /** saveCompactResult */
    method SaveCompactResult(result: TurnResult, saved: bool)
      requires Valid()
      modifies this
      ensures Valid() && SameLedger(stored, old(stored)) && stored.quarantine == old(stored).quarantine
      ensures result.compactionObserved && saved ==>
        stored.tokensSinceCompact == 0 && stored.compactionCount == old(stored).compactionCount + 1
      ensures !(result.compactionObserved && saved) ==> stored == old(stored)
      ensures history == old(history) + if result.compactionObserved && saved then [CompactionRecorded] else []
    {
      if result.compactionObserved && saved {
        StoreCompaction(stored.(contextTokens := result.contextTokens, compactionCount := stored.compactionCount + 1,
          tokensSinceCompact := 0));
      }
    }

    static function Rated(s: Session, i: nat, score: int, reason: string): Session
      requires i < |s.turnRecords|
    {
      s.(turnRecords := s.turnRecords[i := s.turnRecords[i].(rating := Some(score), reason := reason)])
    }

    static lemma RatedKeepsLedger(s: Session, i: nat, score: int, reason: string)
      requires Ascending(s.turnRecords) && TurnsInRange(s) && i < |s.turnRecords| && s.turnRecords[i].turn == s.turn
      ensures var rated := Rated(s, i, score, reason);
              && Ascending(rated.turnRecords) && TurnsInRange(rated)
              && SumCached(rated.turnRecords) == SumCached(s.turnRecords)
              && SumOutput(rated.turnRecords) == SumOutput(s.turnRecords)
              && RatedAs(rated, score, reason)
              && forall r | r in s.turnRecords && r.turn != s.turn :: r in rated.turnRecords
    {
      var rated := Rated(s, i, score, reason);
      RatedRecord(s.turnRecords, i, score, reason);
      assert rated.turnRecords[i].turn == s.turn;
      forall r | r in rated.turnRecords
        ensures 1 <= r.turn <= s.turn
      {
        var k :| 0 <= k < |rated.turnRecords| && rated.turnRecords[k] == r;
        assert s.turnRecords[k] in s.turnRecords;
      }
      forall r | r in s.turnRecords && r.turn != s.turn
        ensures r in rated.turnRecords
      {
        var k :| 0 <= k < |s.turnRecords| && s.turnRecords[k] == r;
        assert rated.turnRecords[k] == r;
      }
    }

    /** rateLatestSessionTurn: the last record of the latest turn, or a new one. */
    method RateLatestTurn(score: int, reason: string, saved: bool) returns (ok: bool)
      requires Valid()
      modifies this
      ensures Valid()
      ensures ok <==> 1 <= score <= 5 && old(stored).turn >= 1 && saved
      ensures !ok ==> stored == old(stored)
      ensures ok ==> stored == old(stored).(turnRecords := stored.turnRecords) && RatedAs(stored, score, reason)
      ensures ok ==> forall r | r in old(stored).turnRecords && r.turn != stored.turn :: r in stored.turnRecords
      ensures history == old(history) + if ok then [OtherRecorded] else []
    {
      hide QuotaAgrees, LedgerAgrees, RatedAs;
      LedgerParts(stored, history, limit);
      if score < 1 || score > 5 || stored.turn < 1 || !saved {
        return false;
      }
      var sess := stored;
      var latestIndex := LatestIndex(sess);
      if latestIndex < 0 {
        UnratedAppended(sess);
        AppendedRecord(sess.turnRecords, TurnRecord(sess.turn, 0, 0, 0, None, ""));
        sess := sess.(turnRecords := sess.turnRecords + [TurnRecord(sess.turn, 0, 0, 0, None, "")]);
        latestIndex := |sess.turnRecords| - 1;
      }
      RatedKeepsLedger(sess, latestIndex, score, reason);
      sess := Rated(sess, latestIndex, score, reason);
      StoreRated(sess);
      ok := true;
    }

    static lemma LedgerParts(s: Session, h: seq<Event>, limit: nat)
      requires LedgerAgrees(s, h, limit)
      ensures Ascending(s.turnRecords) && TurnsInRange(s)
      ensures s.cachedTotal == SumCached(s.turnRecords) && s.outputTotal == SumOutput(s.turnRecords)
    {
    }

    /** A record of the latest turn may be appended when there is none. */
    static lemma UnratedAppended(s: Session)
      requires Ascending(s.turnRecords) && TurnsInRange(s) && s.turn >= 1
      requires forall k | 0 <= k < |s.turnRecords| :: s.turnRecords[k].turn != s.turn
      ensures var longer := s.(turnRecords := s.turnRecords + [TurnRecord(s.turn, 0, 0, 0, None, "")]);
              Ascending(longer.turnRecords) && TurnsInRange(longer)
    {
      assert forall k | 0 <= k < |s.turnRecords| :: s.turnRecords[k] in s.turnRecords;
    }

    /** The last record of the latest turn, or -1. */
    static method LatestIndex(sess: Session) returns (latestIndex: int)
      ensures -1 <= latestIndex < |sess.turnRecords|
      ensures latestIndex >= 0 ==> sess.turnRecords[latestIndex].turn == sess.turn
      ensures forall k | latestIndex < k < |sess.turnRecords| :: sess.turnRecords[k].turn != sess.turn
    {
      latestIndex := -1;
      for i := 0 to |sess.turnRecords|
        invariant -1 <= latestIndex < i
        invariant latestIndex >= 0 ==> sess.turnRecords[latestIndex].turn == sess.turn
        invariant forall k | latestIndex < k < i :: sess.turnRecords[k].turn != sess.turn
      {
        if sess.turnRecords[i].turn == sess.turn {
          latestIndex := i;
        }
      }
    }

    method StoreRated(sess: Session)
      requires Valid() && sess == stored.(turnRecords := sess.turnRecords)
      requires Ascending(sess.turnRecords) && TurnsInRange(sess)
      requires SumCached(sess.turnRecords) == sess.cachedTotal && SumOutput(sess.turnRecords) == sess.outputTotal
      modifies this
      ensures Valid() && stored == sess && history == old(history) + [OtherRecorded]
    {
      stored := sess;
      history := history + [OtherRecorded];
      QuietEvent(old(history), OtherRecorded);
      if QuarantineDeserved(old(history)) {
        DesertLasts(old(history), OtherRecorded);
      }
    }

    /** The latest turn has exactly one record, and it carries this rating. */
    static ghost predicate RatedAs(s: Session, score: int, reason: string) {
      exists i | 0 <= i < |s.turnRecords| ::
        && s.turnRecords[i].turn == s.turn && s.turnRecords[i].rating == Some(score)
        && s.turnRecords[i].reason == reason
        && forall k | 0 <= k < |s.turnRecords| && s.turnRecords[k].turn == s.turn :: k == i
    }
  }

  /** sessionLatestTurnRated: the delete gate looks at the first record of the latest turn. */
  method LatestTurnRated(sess: Session) returns (rated: bool)
    ensures rated ==> sess.turn >= 1
    ensures rated <==> sess.turn >= 1 && exists i | 0 <= i < |sess.turnRecords| ::
      && sess.turnRecords[i].turn == sess.turn && sess.turnRecords[i].rating.Some?
      && forall k | 0 <= k < i :: sess.turnRecords[k].turn != sess.turn
  {
    if sess.turn < 1 {
      return false;
    }
    for i := 0 to |sess.turnRecords|
      invariant forall k | 0 <= k < i :: sess.turnRecords[k].turn != sess.turn
    {
      if sess.turnRecords[i].turn == sess.turn {
        return sess.turnRecords[i].rating.Some?;
      }
    }
    return false;
  }

  /** Rating the latest turn opens the delete gate, in every reachable state. */
  method RateThenGate(store: SessionStore, score: int, reason: string) returns (ok: bool, rated: bool)
    requires store.Valid()
    modifies store
    ensures store.Valid() && (ok ==> rated)
  {
    ok := store.RateLatestTurn(score, reason, true);
    rated := LatestTurnRated(store.stored);
  }

  datatype Operation =
    | Resume(env: ResumeEnv)
    | Compact(result: TurnResult, saved: bool)
    | Rate(score: int, reason: string, saved: bool)

  /** What an operation adds to the history of a session with this record. */
  function OperationEvents(op: Operation, s: Session): seq<Event> {
    match op
    case Resume(env) => SessionStore.ResumeEvents(s, env)
    case Compact(result, saved) => if result.compactionObserved && saved then [CompactionRecorded] else []
    case Rate(score, _, saved) => if 1 <= score <= 5 && s.turn >= 1 && saved then [OtherRecorded] else []
  }

  function AllEvents(operations: seq<Operation>, before: seq<Session>): seq<Event>
    requires |operations| == |before|
  {
    if operations == [] then []
    else
      var last := |operations| - 1;
      AllEvents(operations[..last], before[..last]) + OperationEvents(operations[last], before[last])
  }

  method RunOperation(store: SessionStore, op: Operation)
    requires store.Valid()
    modifies store
    ensures store.Valid() && store.history == old(store.history) + OperationEvents(op, old(store.stored))
  {
    hide LedgerAgrees, QuotaAgrees, SessionStore.ResumeEvents;
    match op {
      case Resume(env) => var _ := store.RunResume(env);
      case Compact(result, saved) => store.SaveCompactResult(result, saved);
      case Rate(score, reason, saved) => var _ := store.RateLatestTurn(score, reason, saved);
    }
  }

  /** Every state a session can reach: a start, then any resumes, compactions and ratings.  `before` are
      the records that the operations found. */
  method RunOperations(limit: nat, provider: string, end: StartEnd, replyLimitRead: bool, saved: bool,
                       operations: seq<Operation>)
    returns (store: SessionStore, ghost before: seq<Session>)
    requires limit > 0
    ensures fresh(store) && store.limit == limit
    ensures |before| == |operations|
    ensures store.history == SessionStore.StartEvents(end, replyLimitRead, saved) + AllEvents(operations, before)
    ensures Ascending(store.stored.turnRecords) && TurnsInRange(store.stored)
    ensures store.stored.cachedTotal == SumCached(store.stored.turnRecords)
    ensures store.stored.outputTotal == SumOutput(store.stored.turnRecords)
    ensures store.stored.tokensSinceCompact == NewInputSince(store.history)
    ensures store.stored.replyHistory == Last(AllReplies(store.history), limit)
    ensures store.stored.quarantine.Some? ==> QuarantineDeserved(store.history)
  {
    hide LedgerAgrees, QuotaAgrees, OperationEvents, SessionStore.StartEvents;
    store := new SessionStore.RunStart(limit, provider, end, replyLimitRead, saved);
    before := [];
    ghost var start := store.history;
    for i := 0 to |operations|
      invariant store.Valid() && fresh(store) && store.limit == limit
      invariant |before| == i && store.history == start + AllEvents(operations[..i], before)
    {
      ghost var found := store.stored;
      RunOperation(store, operations[i]);
      assert operations[..i + 1][..i] == operations[..i] && (before + [found])[..i] == before;
      before := before + [found];
    }
    assert operations[..|operations|] == operations;
    WhatValidMeans(store);
  }

  lemma WhatValidMeans(store: SessionStore)
    requires store.Valid()
    ensures Ascending(store.stored.turnRecords) && TurnsInRange(store.stored)
    ensures store.stored.cachedTotal == SumCached(store.stored.turnRecords)
    ensures store.stored.outputTotal == SumOutput(store.stored.turnRecords)
    ensures store.stored.tokensSinceCompact == NewInputSince(store.history)
    ensures store.stored.replyHistory == Last(AllReplies(store.history), store.limit)
    ensures store.stored.quarantine.Some? ==> QuarantineDeserved(store.history)
  {
  }
}
