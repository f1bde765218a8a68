/**
 The live printer of an agent turn (cmd/harnez/agent_stream.go).  The reader of agent events,
 the confirmation watchdog and the heartbeat run concurrently; each method below is one
 critical section under the stream's mutex, or the moment a goroutine ends.
 */
module TurnStreams {

  datatype Option<+T> = None | Some(value: T)

  datatype Mode = Full | Stats

  datatype MessageLabel = Message | CompactionAck | Confirmation | Plan

  datatype ReplyText = Text(text: string) | AlreadyShown

  /** What happens at the terminal, in order; a received message is noted even if it is not printed. */
  datatype Item =
    | Received(number: nat, label_: MessageLabel, text: string)
    | Shown(number: nat, label_: MessageLabel, text: string)
    | Violation(activity: string)
    | Warning
    | Heartbeat(bytes: int, messages: nat, commands: nat, last: string)
    | Reply(reply: ReplyText)
    | PlanMissing
    | Gate
    | Done

  datatype TurnResult = TurnResult(response: string)

  predicate IsBlank(c: char) {
    c == ' ' || c == '\t' || c == '\n' || c == '\r'
  }

  function TrimLeft(s: string): string {
    if s != [] && IsBlank(s[0]) then TrimLeft(s[1..]) else s
  }

  function TrimRight(s: string): string {
    if s != [] && IsBlank(s[|s| - 1]) then TrimRight(s[..|s| - 1]) else s
  }

  /** `strings.TrimSpace` for ASCII space. */
  function TrimSpace(s: string): string {
    TrimRight(TrimLeft(s))
  }

  const CONFIRM := "CONFIRM:"
  const PLAN := "PLAN:"

  function LabelOf(compacted: bool, number: nat, text: string): MessageLabel {
    if compacted && number == 1 then CompactionAck
    else if CONFIRM <= text then Confirmation
    else if PLAN <= text then Plan
    else Message
  }

  function Body(label_: MessageLabel, text: string): string {
    match label_
    case Confirmation => if CONFIRM <= text then TrimSpace(text[|CONFIRM|..]) else text
    case Plan => if PLAN <= text then TrimSpace(text[|PLAN|..]) else text
    case _ => text
  }

  // ----- What the terminal may show

  /** At most one violation and one warning, and no warning after a violation. */
  ghost predicate NoticesOnce(trace: seq<Item>) {
    forall i, j | 0 <= i < j < |trace| ::
      && (trace[i].Violation? ==> !trace[j].Violation? && !trace[j].Warning?)
      && (trace[i].Warning? ==> !trace[j].Warning?)
  }

  /** Once a message other than a compaction acknowledgement has arrived, no notice follows. */
  ghost predicate NoNoticeAfterMessage(trace: seq<Item>) {
    forall i, j | 0 <= i < j < |trace| && trace[i].Received? && !trace[i].label_.CompactionAck? ::
      !trace[j].Violation? && !trace[j].Warning?
  }

  ghost predicate DoneIsLast(trace: seq<Item>) {
    forall i | 0 <= i < |trace| - 1 :: !trace[i].Done?
  }

  /** The text of the message that came last. */
  function FinalText(trace: seq<Item>): string {
    if trace == [] then ""
    else if trace[|trace| - 1].Received? then trace[|trace| - 1].text
    else FinalText(trace[..|trace| - 1])
  }

  /** The item prints the last message, number `n` with this text: live, or as a reply that has its text. */
  predicate ShowsFinal(item: Item, n: nat, text: string) {
    (item.Shown? && item.number == n) || (item.Reply? && item.reply == Text(text))
  }

  ghost predicate ShownOnlyAt(trace: seq<Item>, n: nat, text: string, i: nat) {
    i < |trace| && ShowsFinal(trace[i], n, text) && forall j | 0 <= j < |trace| && j != i ::
      !ShowsFinal(trace[j], n, text)
  }

  ghost predicate ShownOnce(trace: seq<Item>, n: nat, text: string) {
    exists i: nat :: ShownOnlyAt(trace, n, text, i)
  }

  /** Message number `n` was printed when it came. */
  predicate ShownLive(trace: seq<Item>, n: nat) {
    exists i | 0 <= i < |trace| :: trace[i].Shown? && trace[i].number == n
  }

  /** The fields the notices depend on, and the text of the last message. */
  datatype View =
    View(messages: nat, lastText: string, confirmed: bool, violated: bool, warned: bool, lastShown: bool, ended: bool)

  /** Every item on the terminal has left its mark in the fields. */
  predicate Explained(v: View, item: Item) {
    && (item.Violation? ==> v.violated)
    && (item.Warning? ==> v.warned)
    && (item.Done? || item.Reply? || item.Gate? || item.PlanMissing? ==> v.ended)
    && (item.Received? || item.Shown? ==> 1 <= item.number <= v.messages)
    && (item.Received? && !item.label_.CompactionAck? ==> v.confirmed)
  }

  /** While the turn runs, the latest message is on the terminal once if it was shown, else never. */
  ghost predicate FinalShownSoFar(trace: seq<Item>, v: View) {
    if v.lastShown then v.messages > 0 && ShownOnce(trace, v.messages, v.lastText)
    else v.messages > 0 ==> forall i | 0 <= i < |trace| :: !ShowsFinal(trace[i], v.messages, v.lastText)
  }

  ghost predicate TraceAgrees(trace: seq<Item>, v: View) {
    && (forall i | 0 <= i < |trace| :: Explained(v, trace[i]))
    && NoticesOnce(trace) && NoNoticeAfterMessage(trace) && DoneIsLast(trace) && FinalText(trace) == v.lastText
    && (!v.ended ==> FinalShownSoFar(trace, v))
  }

  // ----- What the messages on the terminal are

  function CountReceived(trace: seq<Item>): nat {
    if trace == [] then 0
    else CountReceived(trace[..|trace| - 1]) + if trace[|trace| - 1].Received? then 1 else 0
  }

  /** A received message is labelled by its number and its first characters. */
  predicate RightlyLabelled(item: Item, compacted: bool) {
    item.Received? ==>
      && (item.label_.CompactionAck? <==> compacted && item.number == 1)
      && (item.label_.Confirmation? <==> !(compacted && item.number == 1) && "CONFIRM:" <= item.text)
      && (item.label_.Plan? <==>
            !(compacted && item.number == 1) && !("CONFIRM:" <= item.text) && "PLAN:" <= item.text)
  }

  predicate AllSpace(s: string) {
    forall i | 0 <= i < |s| :: s[i] in {' ', '\t', '\n', '\r'}
  }

  /** The text is what is left of the raw text without the tag and the space around it. */
  ghost predicate IsBody(tag: MessageLabel, raw: string, text: string) {
    match tag
    case Confirmation => exists a, b ::
      AllSpace(a) && AllSpace(b) && raw == "CONFIRM:" + a + text + b && NoSpaceAround(text)
    case Plan => exists a, b :: AllSpace(a) && AllSpace(b) && raw == "PLAN:" + a + text + b && NoSpaceAround(text)
    case _ => text == raw
  }

  predicate NoSpaceAround(s: string) {
    s != [] ==> s[0] !in {' ', '\t', '\n', '\r'} && s[|s| - 1] !in {' ', '\t', '\n', '\r'}
  }

  /** Messages are numbered as they come and rightly labelled; a shown one is the message that has just come. */
  ghost predicate Honest(trace: seq<Item>, compacted: bool) {
    forall i | 0 <= i < |trace| :: HonestAt(trace, compacted, i)
  }

  ghost predicate HonestAt(trace: seq<Item>, compacted: bool, i: nat)
    requires i < |trace|
  {
    && (trace[i].Received? ==>
          trace[i].number == CountReceived(trace[..i]) + 1 && RightlyLabelled(trace[i], compacted))
    && (trace[i].Shown? ==>
          && i > 0 && trace[i - 1].Received?
          && trace[i - 1].number == trace[i].number && trace[i - 1].label_ == trace[i].label_
          && IsBody(trace[i].label_, trace[i - 1].text, trace[i].text))
  }

  ghost predicate PlanCame(trace: seq<Item>) {
    exists i | 0 <= i < |trace| :: trace[i].Received? && trace[i].label_.Plan?
  }

  lemma HonestAtKept(trace: seq<Item>, compacted: bool, item: Item, i: nat)
    requires i < |trace| && HonestAt(trace, compacted, i)
    ensures HonestAt(trace + [item], compacted, i)
  {
    hide RightlyLabelled, IsBody, CountReceived;
    var longer := trace + [item];
    assert longer[..i] == trace[..i] && longer[i] == trace[i];
    assert i > 0 ==> longer[i - 1] == trace[i - 1];
  }

  lemma CountAfter(trace: seq<Item>, item: Item)
    ensures CountReceived(trace + [item]) == CountReceived(trace) + if item.Received? then 1 else 0
  {
    assert (trace + [item])[..|trace|] == trace;
  }

  lemma PlanCameAfter(trace: seq<Item>, item: Item)
    ensures PlanCame(trace + [item]) <==> PlanCame(trace) || (item.Received? && item.label_.Plan?)
  {
    var longer := trace + [item];
    assert longer[|trace|] == item && forall i | 0 <= i < |trace| :: longer[i] == trace[i];
  }

  /** One more item leaves what came before as it is. */
  lemma OneMore(trace: seq<Item>, compacted: bool, item: Item)
    requires Honest(trace, compacted) && HonestAt(trace + [item], compacted, |trace|)
    ensures Honest(trace + [item], compacted)
    ensures CountReceived(trace + [item]) == CountReceived(trace) + if item.Received? then 1 else 0
    ensures PlanCame(trace + [item]) <==> PlanCame(trace) || (item.Received? && item.label_.Plan?)
  {
    PlanCameAfter(trace, item);
    CountAfter(trace, item);
    hide HonestAt, PlanCame, CountReceived;
    forall i | 0 <= i < |trace|
      ensures HonestAt(trace + [item], compacted, i)
    {
      HonestAtKept(trace, compacted, item, i);
    }
  }

  lemma HonestOther(trace: seq<Item>, compacted: bool, item: Item)
    requires Honest(trace, compacted) && !item.Received? && !item.Shown?
    ensures Honest(trace + [item], compacted) && CountReceived(trace + [item]) == CountReceived(trace)
    ensures PlanCame(trace + [item]) <==> PlanCame(trace)
  {
    hide Honest, CountReceived, PlanCame;
    OneMore(trace, compacted, item);
  }

  lemma HonestReceived(trace: seq<Item>, compacted: bool, text: string)
    requires Honest(trace, compacted)
    ensures var number := CountReceived(trace) + 1;
            var item := Received(number, LabelOf(compacted, number, text), text);
            && Honest(trace + [item], compacted) && CountReceived(trace + [item]) == number
            && (PlanCame(trace + [item]) <==> PlanCame(trace) || item.label_.Plan?)
  {
    var number := CountReceived(trace) + 1;
    var item := Received(number, LabelOf(compacted, number, text), text);
    assert RightlyLabelled(item, compacted);
    hide RightlyLabelled, IsBody, LabelOf, Honest, CountReceived, PlanCame;
    assert (trace + [item])[..|trace|] == trace;
    OneMore(trace, compacted, item);
  }

  lemma HonestShown(trace: seq<Item>, compacted: bool, text: string)
    requires Honest(trace, compacted) && trace != [] && trace[|trace| - 1].Received?
    requires var last := trace[|trace| - 1]; IsBody(last.label_, last.text, text)
    ensures var last := trace[|trace| - 1];
            var longer := trace + [Shown(last.number, last.label_, text)];
            && Honest(longer, compacted) && CountReceived(longer) == CountReceived(trace)
            && (PlanCame(longer) <==> PlanCame(trace))
  {
    hide RightlyLabelled, IsBody, Honest, CountReceived, PlanCame;
    var last := trace[|trace| - 1];
    OneMore(trace, compacted, Shown(last.number, last.label_, text));
  }

  lemma {:induction false} TrimLeftMeans(s: string) returns (a: string)
    ensures AllSpace(a) && s == a + TrimLeft(s)
    ensures TrimLeft(s) != [] ==> TrimLeft(s)[0] !in {' ', '\t', '\n', '\r'}
  {
    if s != [] && IsBlank(s[0]) {
      var rest := TrimLeftMeans(s[1..]);
      a := [s[0]] + rest;
      assert a + TrimLeft(s) == [s[0]] + (rest + TrimLeft(s[1..]));
    } else {
      a := [];
    }
  }

  lemma {:induction false} TrimRightMeans(s: string) returns (b: string)
    ensures AllSpace(b) && s == TrimRight(s) + b
    ensures TrimRight(s) != [] ==> TrimRight(s)[|TrimRight(s)| - 1] !in {' ', '\t', '\n', '\r'}
  {
    if s != [] && IsBlank(s[|s| - 1]) {
      var rest := TrimRightMeans(s[..|s| - 1]);
      b := rest + [s[|s| - 1]];
      assert TrimRight(s) + b == TrimRight(s[..|s| - 1]) + rest + [s[|s| - 1]];
      assert s == s[..|s| - 1] + [s[|s| - 1]];
    } else {
      b := [];
    }
  }

  lemma TrimSpaceMeans(s: string) returns (a: string, b: string)
    ensures AllSpace(a) && AllSpace(b) && s == a + TrimSpace(s) + b && NoSpaceAround(TrimSpace(s))
  {
    a := TrimLeftMeans(s);
    b := TrimRightMeans(TrimLeft(s));
    if TrimSpace(s) != [] {
      assert TrimSpace(s)[0] == TrimLeft(s)[0];
    }
  }

  lemma BodyMeans(compacted: bool, number: nat, raw: string)
    ensures var tag := LabelOf(compacted, number, raw); IsBody(tag, raw, Body(tag, raw))
  {
    var tag := LabelOf(compacted, number, raw);
    if tag.Confirmation? {
      var a, b := TrimSpaceMeans(raw[|CONFIRM|..]);
      assert raw == CONFIRM + raw[|CONFIRM|..];
      assert raw == "CONFIRM:" + a + Body(tag, raw) + b;
    } else if tag.Plan? {
      var a, b := TrimSpaceMeans(raw[|PLAN|..]);
      assert raw == PLAN + raw[|PLAN|..];
      assert raw == "PLAN:" + a + Body(tag, raw) + b;
    }
  }

  lemma HonestMessage(trace: seq<Item>, compacted: bool, text: string, shown: bool)
    requires Honest(trace, compacted)
    ensures var number := CountReceived(trace) + 1;
            var tag := LabelOf(compacted, number, text);
            var longer := trace + MessageItems(number, tag, text, shown, Body(tag, text));
            && Honest(longer, compacted) && CountReceived(longer) == number
            && (PlanCame(longer) <==> PlanCame(trace) || tag.Plan?)
  {
    hide Honest, PlanCame, CountReceived, IsBody, LabelOf, Body;
    var number := CountReceived(trace) + 1;
    var tag := LabelOf(compacted, number, text);
    HonestReceived(trace, compacted, text);
    BodyMeans(compacted, number, text);
    var received := trace + [Received(number, tag, text)];
    if shown {
      HonestShown(received, compacted, Body(tag, text));
      ShownItems(trace, number, tag, text, Body(tag, text));
    } else {
      assert [Received(number, tag, text)] + [] == [Received(number, tag, text)];
    }
  }

  lemma ShownItems(trace: seq<Item>, number: nat, tag: MessageLabel, raw: string, text: string)
    ensures trace + MessageItems(number, tag, raw, true, text) ==
            trace + [Received(number, tag, raw)] + [Shown(number, tag, text)]
  {
  }

  /** Once a message has arrived, other than the first one of a turn after a compaction, no notice follows. */
  ghost predicate NoNoticeAfterAnswer(trace: seq<Item>, compacted: bool) {
    forall i, j | 0 <= i < j < |trace| && trace[i].Received? && !(compacted && CountReceived(trace[..i]) == 0) ::
      !trace[j].Violation? && !trace[j].Warning?
  }

  lemma NoticesByNumber(trace: seq<Item>, compacted: bool)
    requires Honest(trace, compacted) && NoNoticeAfterMessage(trace)
    ensures NoNoticeAfterAnswer(trace, compacted)
  {
    hide IsBody, CountReceived;
    forall i, j | 0 <= i < j < |trace| && trace[i].Received? && !(compacted && CountReceived(trace[..i]) == 0)
      ensures !trace[j].Violation? && !trace[j].Warning?
    {
      assert HonestAt(trace, compacted, i);
    }
  }

  /** A message arrives; whether it is shown comes next. */
  lemma MessageArrives(trace: seq<Item>, v: View, tag: MessageLabel, raw: string)
    requires TraceAgrees(trace, v) && !v.ended
    ensures TraceAgrees(trace + [Received(v.messages + 1, tag, raw)], AfterMessage(v, tag, raw, false))
  {
    var item := Received(v.messages + 1, tag, raw);
    FinalTextAfter(trace, item);
    assert forall i | 0 <= i < |trace| :: Explained(v, trace[i]);
  }

  lemma FinalTextAfter(trace: seq<Item>, item: Item)
    ensures FinalText(trace + [item]) == if item.Received? then item.text else FinalText(trace)
    ensures forall i | 0 <= i < |trace| :: (trace + [item])[i] == trace[i]
  {
    assert (trace + [item])[..|trace|] == trace;
  }

  lemma MessageShown(trace: seq<Item>, v: View, tag: MessageLabel, text: string)
    requires TraceAgrees(trace, v) && !v.ended && !v.lastShown && v.messages > 0
    ensures TraceAgrees(trace + [Shown(v.messages, tag, text)], v.(lastShown := true))
  {
    var longer := trace + [Shown(v.messages, tag, text)];
    FinalTextAfter(trace, Shown(v.messages, tag, text));
    assert forall i | 0 <= i < |trace| :: Explained(v, trace[i]);
    assert ShownOnlyAt(longer, v.messages, v.lastText, |trace|);
  }

  /** What a message adds to the terminal. */
  function MessageItems(number: nat, tag: MessageLabel, raw: string, shown: bool, text: string): seq<Item> {
    [Received(number, tag, raw)] + if shown then [Shown(number, tag, text)] else []
  }

  function AfterMessage(v: View, tag: MessageLabel, raw: string, shown: bool): View {
    v.(messages := v.messages + 1, lastText := raw, confirmed := v.confirmed || !tag.CompactionAck?, lastShown := shown)
  }

  lemma MessageHandled(trace: seq<Item>, v: View, tag: MessageLabel, raw: string, shown: bool, text: string)
    requires TraceAgrees(trace, v) && !v.ended
    ensures TraceAgrees(trace + MessageItems(v.messages + 1, tag, raw, shown, text), AfterMessage(v, tag, raw, shown))
  {
    hide TraceAgrees;
    MessageArrives(trace, v, tag, raw);
    var received := trace + [Received(v.messages + 1, tag, raw)];
    if shown {
      MessageShown(received, AfterMessage(v, tag, raw, false), tag, text);
      assert received + [Shown(v.messages + 1, tag, text)] ==
        trace + MessageItems(v.messages + 1, tag, raw, shown, text);
    } else {
      assert received == trace + MessageItems(v.messages + 1, tag, raw, shown, text);
    }
  }

  /** A notice fires when nothing in the fields forbids it. */
  lemma NoticeGiven(trace: seq<Item>, v: View, item: Item)
    requires TraceAgrees(trace, v) && !v.ended && !v.confirmed && !v.violated
    requires item.Violation? || (item.Warning? && !v.warned)
    ensures TraceAgrees(trace + [item],
      v.(violated := v.violated || item.Violation?, warned := v.warned || item.Warning?))
  {
    assert forall i | 0 <= i < |trace| :: Explained(v, trace[i]);
    ShownOnceKept(trace, item, v.messages, v.lastText);
    FinalTextAfter(trace, item);
  }

  lemma HeartbeatGiven(trace: seq<Item>, v: View, item: Item)
    requires TraceAgrees(trace, v) && !v.ended && item.Heartbeat?
    ensures TraceAgrees(trace + [item], v)
  {
    assert forall i | 0 <= i < |trace| :: Explained(v, trace[i]);
    ShownOnceKept(trace, item, v.messages, v.lastText);
    FinalTextAfter(trace, item);
  }

  lemma ShownOnceKept(trace: seq<Item>, item: Item, n: nat, text: string)
    requires !ShowsFinal(item, n, text)
    ensures ShownOnce(trace, n, text) ==> ShownOnce(trace + [item], n, text)
    ensures forall i | 0 <= i < |trace| :: (trace + [item])[i] == trace[i]
  {
    if ShownOnce(trace, n, text) {
      var i: nat :| ShownOnlyAt(trace, n, text, i);
      assert ShownOnlyAt(trace + [item], n, text, i);
    }
  }

  /** The lines `finish` prints. */
  function FinishLines(mode: Mode, planFirst: bool, planSeen: bool, lastShown: bool, response: string): seq<Item> {
    (if planFirst then (if planSeen then [] else [PlanMissing]) + [Gate]
     else if mode == Stats then [Reply(if lastShown then AlreadyShown else Text(response))]
     else [])
    + [Done]
  }

  ghost predicate NotDone(trace: seq<Item>) {
    forall i | 0 <= i < |trace| :: !trace[i].Done?
  }

  /** One line of the end, in a turn whose goroutines have ended. */
  lemma EndLineGiven(trace: seq<Item>, v: View, item: Item)
    requires TraceAgrees(trace, v) && v.ended && NotDone(trace)
    requires item.PlanMissing? || item.Gate? || item.Reply? || item.Done?
    ensures TraceAgrees(trace + [item], v) && (!item.Done? ==> NotDone(trace + [item]))
  {
    FinalTextAfter(trace, item);
    hide FinalText;
    assert forall i | 0 <= i < |trace| :: Explained(v, trace[i]);
  }

  lemma TurnEnds(trace: seq<Item>, v: View)
    requires TraceAgrees(trace, v) && !v.ended
    ensures TraceAgrees(trace, v.(ended := true)) && NotDone(trace)
  {
    hide FinalText;
    assert forall i | 0 <= i < |trace| :: Explained(v, trace[i]);
  }

  lemma {:induction false} FinalTextAfterLines(trace: seq<Item>, lines: seq<Item>)
    requires forall i | 0 <= i < |lines| :: !lines[i].Received?
    ensures FinalText(trace + lines) == FinalText(trace)
  {
    if lines == [] {
      assert trace + lines == trace;
    } else {
      var init := lines[..|lines| - 1];
      FinalTextAfterLines(trace, init);
      FinalTextAfter(trace + init, lines[|lines| - 1]);
      assert trace + init + [lines[|lines| - 1]] == trace + lines;
    }
  }

  lemma EndText(trace: seq<Item>, v: View, lines: seq<Item>)
    requires TraceAgrees(trace, v) && forall i | 0 <= i < |lines| :: !lines[i].Received?
    ensures FinalText(trace + lines) == v.lastText
  {
    FinalTextAfterLines(trace, lines);
  }

  /** When the end of a turn without a plan gate is printed, the last message has been shown exactly
      once if and only if it was shown live or, in stats mode, the response is its text. */
  lemma FinalMessageShownOnce(trace: seq<Item>, v: View, mode: Mode, planSeen: bool, response: string)
    requires TraceAgrees(trace, v) && !v.ended && v.messages > 0
    ensures var longer := trace + FinishLines(mode, false, planSeen, v.lastShown, response);
            && (ShownLive(longer, v.messages) <==> v.lastShown)
            && (ShownOnce(longer, v.messages, v.lastText) <==> v.lastShown || (mode == Stats && response == v.lastText))
  {
    var lines := FinishLines(mode, false, planSeen, v.lastShown, response);
    var longer := trace + lines;
    assert forall i | 0 <= i < |trace| :: longer[i] == trace[i] && Explained(v, trace[i]);
    assert forall i | |trace| <= i < |longer| :: longer[i] == lines[i - |trace|];
    if v.lastShown {
      var i: nat :| ShownOnlyAt(trace, v.messages, v.lastText, i);
      assert longer[i].Shown? && longer[i].number == v.messages;
      assert ShownOnlyAt(longer, v.messages, v.lastText, i);
    } else if mode == Stats && response == v.lastText {
      assert ShownOnlyAt(longer, v.messages, v.lastText, |trace|);
    } else {
      assert forall i | 0 <= i < |longer| :: !ShowsFinal(longer[i], v.messages, v.lastText);
    }
  }

  /** The last of the `n` messages is on the terminal exactly once if and only if it was shown live or the
      response is its text; in full mode it was. */
  ghost predicate FinalShownExactly(trace: seq<Item>, n: nat, mode: Mode, response: string) {
    && (ShownOnce(trace, n, FinalText(trace)) <==>
        ShownLive(trace, n) || (mode == Stats && response == FinalText(trace)))
    && (mode == Full ==> ShownLive(trace, n))
  }

  lemma FinalMessageExact(trace: seq<Item>, v: View, mode: Mode, planSeen: bool, response: string)
    requires TraceAgrees(trace, v) && !v.ended && v.messages > 0 && (mode == Full ==> v.lastShown)
    ensures FinalShownExactly(trace + FinishLines(mode, false, planSeen, v.lastShown, response), v.messages,
      mode, response)
  {
    FinalMessageShownOnce(trace, v, mode, planSeen, response);
    EndText(trace, v, FinishLines(mode, false, planSeen, v.lastShown, response));
    hide TraceAgrees, ShownOnce, ShownLive, FinalText;
  }

  class TurnStream {
    const mode: Mode
    const compacted: bool
    const planFirst: bool

    var bytes: int
    var messages: nat
    var commands: nat
    var last: string
    var confirmed: bool
    var violated: bool
    var warned: bool
    var planSeen: bool
    var lastShown: bool

    var stopped: bool     // the stop channel is closed
    var watching: bool    // the confirmation watchdog has not ended
    var beating: bool     // the heartbeat has not ended
    var ended: bool       // finish has printed its lines

    var trace: seq<Item>  // the terminal

    /** the text of the last message */
    ghost var lastText: string

    ghost function Now(): View
      reads this
    {
      View(messages, lastText, confirmed, violated, warned, lastShown, ended)
    }

    ghost predicate Valid()
      reads this
    {
      && TraceAgrees(trace, Now())
      && (ended ==> stopped && !watching && !beating)
      && (mode == Full && messages > 0 ==> lastShown)
      && Honest(trace, compacted) && messages == CountReceived(trace) && (planSeen <==> PlanCame(trace))
    }

    constructor (mode: Mode, compacted: bool, planFirst: bool)
      ensures Valid() && this.mode == mode && this.compacted == compacted && this.planFirst == planFirst
      ensures trace == [] && messages == 0 && !stopped && !ended && watching && beating
      ensures !confirmed && !violated && !warned && !lastShown
    {
      this.mode, this.compacted, this.planFirst := mode, compacted, planFirst;
      bytes, messages, commands, last := 0, 0, 0, "";
      confirmed, violated, warned, planSeen, lastShown := false, false, false, false, false;
      stopped, watching, beating, ended := false, true, true, false;
      trace, lastText := [], "";
    }

    /** onEvent, first critical section */
    method AddBytes(n: int)
      requires Valid()
      modifies this`bytes
      ensures Valid() && bytes == old(bytes) + n
    {
      bytes := bytes + n;
    }

    /** onEvent for a message */
    method OnMessage(text: string)
      requires Valid() && !stopped && !ended
      modifies this`messages, this`planSeen, this`confirmed, this`last, this`lastShown, this`lastText, this`trace
      ensures Valid() && messages == old(messages) + 1 && lastText == text
      ensures var tag := LabelOf(compacted, messages, text);
              && lastShown == (mode == Full || tag.Confirmation? || tag.Plan?)
              && trace == old(trace) + MessageItems(messages, tag, text, lastShown, Body(tag, text))
              && planSeen == (old(planSeen) || tag.Plan?)
    {
      hide TraceAgrees, LabelOf, Body, MessageItems, Honest, PlanCame, CountReceived;
      HonestMessage(trace, compacted, text, mode == Full || LabelOf(compacted, messages + 1, text).Confirmation?
                                            || LabelOf(compacted, messages + 1, text).Plan?);
      var tag := LabelOf(compacted, messages + 1, text);
      var shown := mode == Full || tag.Confirmation? || tag.Plan?;
      MessageHandled(trace, Now(), tag, text, shown, Body(tag, text));
      trace := trace + MessageItems(messages + 1, tag, text, shown, Body(tag, text));
      messages, planSeen, confirmed := messages + 1, planSeen || tag.Plan?, confirmed || !tag.CompactionAck?;
      last, lastShown, lastText := "message", shown, text;
    }

    /** onEvent for a tool activity */
    method OnActivity(activity: string)
      requires Valid() && !stopped && !ended
      modifies this`last, this`commands, this`violated, this`trace
      ensures Valid() && commands == old(commands) + 1
      ensures trace == old(trace) + if !confirmed && !old(violated) then [Violation(activity)] else []
    {
      hide Honest, PlanCame, CountReceived;
      HonestOther(trace, compacted, Violation(activity));
      last := activity;
      commands := commands + 1;
      if !confirmed && !violated {
        NoticeGiven(trace, Now(), Violation(activity));
        violated := true;
        trace := trace + [Violation(activity)];
      }
    }

    /** watchConfirmation, when its timer fires; this can win even after the stop channel closed. */
    method WatchdogFires()
      requires Valid() && watching && !ended
      modifies this`watching, this`warned, this`trace
      ensures Valid() && !watching
      ensures trace == old(trace) + if !confirmed && !old(warned) && !violated then [Warning] else []
    {
      hide Honest, PlanCame, CountReceived;
      HonestOther(trace, compacted, Warning);
      if !confirmed && !warned && !violated {
        NoticeGiven(trace, Now(), Warning);
        warned := true;
        trace := trace + [Warning];
      }
      watching := false;
    }

    /** watchConfirmation, when it sees the stop channel closed */
    method WatchdogStops()
      requires Valid() && watching && stopped
      modifies this`watching
      ensures Valid() && !watching
    {
      watching := false;
    }

    method Beat()
      requires Valid() && beating && !ended
      modifies this`trace
      ensures Valid() && trace == old(trace) + [Heartbeat(bytes, messages, commands, last)]
    {
      hide Honest, PlanCame, CountReceived;
      HeartbeatGiven(trace, Now(), Heartbeat(bytes, messages, commands, last));
      HonestOther(trace, compacted, Heartbeat(bytes, messages, commands, last));
      trace := trace + [Heartbeat(bytes, messages, commands, last)];
    }

    method BeatStops()
      requires Valid() && beating && stopped
      modifies this`beating
      ensures Valid() && !beating
    {
      beating := false;
    }

    /** finish and abort: close the stop channel */
    method Stop()
      requires Valid() && !stopped
      modifies this`stopped
      ensures Valid() && stopped
    {
      stopped := true;
    }

    /** finish, once both goroutines have ended */
    method Finish(r: TurnResult)
      requires Valid() && stopped && !watching && !beating && !ended
      modifies this`ended, this`trace
      ensures Valid() && ended
      ensures trace == old(trace) + FinishLines(mode, planFirst, planSeen, lastShown, r.response)
      ensures planFirst ==> (PlanMissing in trace <==> !PlanCame(trace)) && Gate in trace
      ensures !planFirst && messages > 0 ==> FinalShownExactly(trace, messages, mode, r.response)
    {
      hide TraceAgrees, FinalShownExactly, NotDone, FinishLines, Honest, PlanCame, CountReceived;
      ghost var before := trace;
      if !planFirst && messages > 0 {
        FinalMessageExact(trace, Now(), mode, planSeen, r.response);
      }
      TurnEnds(trace, Now());
      NoEndLineYet(trace, Now());
      ended := true;
      if planFirst {
        if !planSeen {
          PrintLine(PlanMissing);
        }
        PrintLine(Gate);
      } else if mode == Stats {
        PrintLine(Reply(if lastShown then AlreadyShown else Text(r.response)));
      }
      PrintLine(Done);
      LinesOneByOne(before, mode, planFirst, planSeen, lastShown, r.response);
    }

    method PrintLine(item: Item)
      requires Valid() && ended && NotDone(trace) && (item.PlanMissing? || item.Gate? || item.Reply? || item.Done?)
      modifies this`trace
      ensures Valid() && trace == old(trace) + [item] && (!item.Done? ==> NotDone(trace))
    {
      hide TraceAgrees, NotDone, Honest, PlanCame, CountReceived;
      HonestOther(trace, compacted, item);
      EndLineGiven(trace, Now(), item);
      trace := trace + [item];
    }
  }

  lemma NoEndLineYet(trace: seq<Item>, v: View)
    requires TraceAgrees(trace, v) && !v.ended
    ensures PlanMissing !in trace
  {
    assert forall i | 0 <= i < |trace| :: Explained(v, trace[i]);
  }

  lemma LinesOneByOne(trace: seq<Item>, mode: Mode, planFirst: bool, planSeen: bool, lastShown: bool, response: string)
    ensures trace + FinishLines(mode, planFirst, planSeen, lastShown, response)
         == (if planFirst then (if planSeen then trace else trace + [PlanMissing]) + [Gate]
             else if mode == Stats then trace + [Reply(if lastShown then AlreadyShown else Text(response))]
             else trace) + [Done]
  {
  }

  /** One step of some goroutine. */
  datatype Step =
    | ReadBytes(n: int)
    | ReadMessage(text: string)
    | ReadActivity(activity: string)
    | WatchdogTimer
    | WatchdogStop
    | HeartbeatTimer
    | HeartbeatStop
    | CloseStop
    | PrintEnd(r: TurnResult)

  /** Any interleaving: a step that is not possible at its place does not happen.  The reader of
      events is the goroutine that later closes the stop channel and prints the end. */
  method RunTurn(mode: Mode, compacted: bool, planFirst: bool, steps: seq<Step>)
    returns (trace: seq<Item>, messages: nat, ended: bool, response: string)
    ensures NoticesOnce(trace) && NoNoticeAfterMessage(trace) && DoneIsLast(trace)
    // messages are numbered, labelled and shown by what was received
    ensures Honest(trace, compacted) && messages == CountReceived(trace) && NoNoticeAfterAnswer(trace, compacted)
    ensures ended && planFirst ==> (PlanMissing in trace <==> !PlanCame(trace)) && Gate in trace
    ensures ended ==> trace != [] && trace[|trace| - 1].Done?
    ensures ended && !planFirst && messages > 0 ==> FinalShownExactly(trace, messages, mode, response)
  {
    hide FinalShownExactly, TraceAgrees, Honest, PlanCame, CountReceived, NoNoticeAfterAnswer, NoticesOnce,
      NoNoticeAfterMessage, DoneIsLast;
    var t := new TurnStream(mode, compacted, planFirst);
    response := "";
    for i := 0 to |steps|
      invariant fresh(t) && t.Valid() && t.mode == mode && t.planFirst == planFirst && t.compacted == compacted
      invariant t.ended ==> t.trace != [] && t.trace[|t.trace| - 1].Done?
      invariant t.ended && planFirst ==> (PlanMissing in t.trace <==> !PlanCame(t.trace)) && Gate in t.trace
      invariant t.ended && !planFirst && t.messages > 0 ==> FinalShownExactly(t.trace, t.messages, mode, response)
    {
      match steps[i]
      case ReadBytes(n) => if !t.stopped { t.AddBytes(n); }
      case ReadMessage(text) => if !t.stopped && !t.ended { t.OnMessage(text); }
      case ReadActivity(activity) => if !t.stopped && !t.ended { t.OnActivity(activity); }
      case WatchdogTimer => if t.watching && !t.ended { t.WatchdogFires(); }
      case WatchdogStop => if t.watching && t.stopped { t.WatchdogStops(); }
      case HeartbeatTimer => if t.beating && !t.ended { t.Beat(); }
      case HeartbeatStop => if t.beating && t.stopped { t.BeatStops(); }
      case CloseStop => if !t.stopped { t.Stop(); }
      case PrintEnd(r) => if t.stopped && !t.watching && !t.beating && !t.ended {
        t.Finish(r);
        response := r.response;
      }
    }
    trace, messages, ended := t.trace, t.messages, t.ended;
    TraceFacts(trace, t.Now());
    NoticesByNumber(trace, compacted);
  }

  lemma TraceFacts(trace: seq<Item>, v: View)
    requires TraceAgrees(trace, v)
    ensures NoticesOnce(trace) && NoNoticeAfterMessage(trace) && DoneIsLast(trace)
  {
  }
}
