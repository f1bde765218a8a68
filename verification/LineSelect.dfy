/**
 How `harnez read -L` reads its range and selects lines (internal/readcard/read.go), and that the
 suggested command shows the lines that the stopped read asked for.
 */
module LineSelect {
  import opened Decimal
  import opened ReadGuard
  import opened ReadRedirect

  datatype Bounds = Bounds(start: int64, end: int64)

  predicate HasAt(s: string, sep: string, i: nat) {
    i + |sep| <= |s| && s[i..i + |sep|] == sep
  }

  /** `strings.Index`, from `i` on. */
  function IndexFrom(s: string, sep: string, i: nat): (r: Option<nat>)
    requires i <= |s|
    ensures r.Some? ==> i <= r.value && HasAt(s, sep, r.value)
    ensures forall k: nat | i <= k && (r.Some? ==> k < r.value) :: !HasAt(s, sep, k)
    decreases |s| - i
  {
    if HasAt(s, sep, i) then Some(i) else if i == |s| then None else IndexFrom(s, sep, i + 1)
  }

  const SEPARATORS := [":", "..", "-"]

  /** The first of the separators that occurs, and where. */
  function FirstSeparator(s: string, separators: seq<string>): (r: Option<(nat, nat)>)
    ensures r.Some? ==> r.value.0 + r.value.1 <= |s|
  {
    if separators == [] then None
    else
      var i := IndexFrom(s, separators[0], 0);
      if i.Some? then Some((i.value, |separators[0]|)) else FirstSeparator(s, separators[1..])
  }

  /** A bound; nothing written stands for `default`. */
  function ParseBound(text: string, default: int64): Option<int64> {
    var t := TrimSpace(text);
    if t == "" then Some(default) else Atoi(t)
  }

  function AtLeastOne(n: int64): int64 {
    if n < 1 then 1 else n
  }

  function ParseLineRangeBounds(text: string): Option<Bounds> {
    var s := TrimSpace(text);
    if s == "" then Some(Bounds(1, -1))
    else
      var sep := FirstSeparator(s, SEPARATORS);
      if sep.None? then
        var n := Atoi(s);
        if n.None? then None else Some(Bounds(AtLeastOne(n.value), AtLeastOne(n.value)))
      else
        var start, end := ParseBound(s[..sep.value.0], 1), ParseBound(s[sep.value.0 + sep.value.1..], -1);
        if start.None? || end.None? then None
        else
          var first := AtLeastOne(start.value);
          Some(Bounds(first, if 0 < end.value < first then first else end.value))
  }

  function BoundsWindow(b: Bounds): Window {
    Window(b.start as int, if b.end > 0 then Some(b.end as int) else None)
  }

  /** Selects lines while scanning; a bounded read stops at its last line. */
  method SelectLines(lines: seq<string>, b: Bounds) returns (selected: seq<string>)
    requires b.start >= 1
    ensures selected == Slice(lines, BoundsWindow(b))
  {
    selected := [];
    var start, end := b.start as int, b.end as int;
    var total := 0;
    while total < |lines|
      invariant 0 <= total <= |lines| && (end > 0 ==> total < end)
      invariant selected == if start <= total then lines[start - 1..total] else []
    {
      total := total + 1;
      if total >= start {
        selected := selected + [lines[total - 1]];
      }
      if end > 0 && total >= end {
        break;
      }
    }
  }

  lemma IndexOfFirst(s: string, sep: string, i: nat, k: nat)
    requires i <= k <= |s| && HasAt(s, sep, k) && forall j: nat | i <= j < k :: !HasAt(s, sep, j)
    ensures IndexFrom(s, sep, i) == Some(k)
  {
  }

  lemma TrimmedText(s: string)
    requires s != "" ==> !IsSpace(s[0]) && !IsSpace(s[|s| - 1])
    ensures TrimSpace(s) == s
  {
  }

  lemma DigitIsNoSpace(c: char)
    requires IsDigit(c) || c == ':'
    ensures !IsSpace(c)
  {
  }

  /** The suggested range is parsed back as the requested one, with an open end when that has none
      or ends before it starts. */
  lemma RangeWordParses(r: ReadRange)
    ensures var first := AtLeastOne(r.startLine);
            ParseLineRangeBounds(RangeWord(r)) == Some(Bounds(first, if r.endLine >= first then r.endLine else -1))
  {
    var first := AtLeastOne(r.startLine);
    var left, right := Itoa(first), if r.endLine >= first then Itoa(r.endLine) else "";
    ValueOfDigits(first as nat);
    if right != "" {
      ValueOfDigits(r.endLine as nat);
    }
    hide ParseLineRangeBounds, Digits, Value;
    RangeForms(left, ":", right);
  }

  // ----- What a range may look like

  /** Decimal digits, perhaps none, of a value that fits. */
  predicate IsBound(text: string) {
    AllDigits(text) && Value(text) <= MAX
  }

  lemma BoundParses(text: string, default: int64)
    requires IsBound(text)
    ensures ParseBound(text, default) == Some(if text == "" then default else Value(text) as int64)
  {
    if text != "" {
      DigitIsNoSpace(text[0]);
      DigitIsNoSpace(text[|text| - 1]);
    }
    hide IsSpace, TrimSpace;
    TrimmedText(text);
  }

  lemma FirstOfMatch(s: string)
    ensures forall j: nat, sep | sep != "" && HasAt(s, sep, j) :: j < |s| && s[j] == sep[0]
  {
    forall j: nat, sep | sep != "" && HasAt(s, sep, j)
      ensures j < |s| && s[j] == sep[0]
    {
      assert s[j..j + |sep|][0] == s[j];
    }
  }

  lemma SeparatorFound(left: string, sep: string, right: string)
    requires AllDigits(left) && AllDigits(right) && (sep == ":" || sep == ".." || sep == "-")
    ensures FirstSeparator(left + sep + right, SEPARATORS) == Some((|left|, |sep|))
  {
    var word := left + sep + right;
    assert SEPARATORS[1..] == ["..", "-"] && ["..", "-"][1..] == ["-"];
    assert forall j | 0 <= j < |word| :: IsDigit(word[j]) || word[j] == sep[0];
    assert word[|left|..|left| + |sep|] == sep;
    forall j: nat, other | other in [":", "..", "-"] && HasAt(word, other, j)
      ensures other == sep && j == |left|
    {
      assert word[j..j + |other|][0] == word[j] == other[0];
    }
    forall other | other in [":", "..", "-"]
      ensures IndexFrom(word, other, 0) == if other == sep then Some(|left|) else None
    {
      if other == sep {
        IndexOfFirst(word, sep, 0, |left|);
      }
    }
    hide IndexFrom, HasAt;
    assert FirstSeparator(word, ["-"]) == if sep == "-" then Some((|left|, 1)) else FirstSeparator(word, []);
    assert FirstSeparator(word, ["..", "-"]) == if sep == ".." then Some((|left|, 2)) else FirstSeparator(word, ["-"]);
  }

  /** A bound that is left out is open, lines are counted from 1, and an end before the start is the start. */
  lemma RangeForms(left: string, sep: string, right: string)
    requires IsBound(left) && IsBound(right) && (sep == ":" || sep == ".." || sep == "-")
    ensures
      var start := if left == "" || Value(left) == 0 then 1 else Value(left) as int64;
      var end: int64 := if right == "" then -1 else Value(right) as int64;
      ParseLineRangeBounds(left + sep + right) == Some(Bounds(start, if 0 < end < start then start else end))
  {
    hide IsSpace, TrimSpace, ParseBound, FirstSeparator, Value, SEPARATORS;
    SeparatorFound(left, sep, right);
    BoundParses(left, 1);
    BoundParses(right, -1);
    RangeIsTrimmed(left, sep, right);
    assert (left + sep + right)[..|left|] == left && (left + sep + right)[|left| + |sep|..] == right;
  }

  lemma RangeIsTrimmed(left: string, sep: string, right: string)
    requires AllDigits(left) && AllDigits(right) && (sep == ":" || sep == ".." || sep == "-")
    ensures TrimSpace(left + sep + right) == left + sep + right != ""
  {
    var word := left + sep + right;
    assert forall j | 0 <= j < |word| :: IsDigit(word[j]) || word[j] == sep[0];
    assert !IsSpace(word[0]) && !IsSpace(word[|word| - 1]);
    hide IsSpace, TrimSpace;
    TrimmedText(word);
  }

  /** No range is the whole file, and a number is one line. */
  lemma RangeOfOne(text: string)
    requires IsBound(text)
    ensures ParseLineRangeBounds(text) ==
      if text == "" then Some(Bounds(1, -1))
      else
        var n := if Value(text) == 0 then 1 else Value(text) as int64;
        Some(Bounds(n, n))
  {
    if text != "" {
      DigitIsNoSpace(text[0]);
      DigitIsNoSpace(text[|text| - 1]);
      assert SEPARATORS[1..] == ["..", "-"] && ["..", "-"][1..] == ["-"];
      FirstOfMatch(text);
      hide HasAt, IsSpace, TrimSpace;
      TrimmedText(text);
      assert FirstSeparator(text, ["-"]).None?;
      assert FirstSeparator(text, ["..", "-"]).None?;
    }
  }

  /** The lines `harnez read` shows for the suggested range. */
  function RedirectWindow(r: ReadRange): Window {
    var first := AtLeastOne(r.startLine);
    BoundsWindow(Bounds(first, if r.endLine >= first then r.endLine else -1))
  }

  /** The suggestion shows the requested lines of every file exactly when the request does not end
      before it starts; then it is read to the end of the file. */
  lemma RedirectShowsRequest(r: ReadRange)
    requires r.hasRange
    ensures (forall lines: seq<string> :: Slice(lines, RedirectWindow(r)) == Slice(lines, WindowOf(r)))
       <==> !(0 < r.endLine < r.startLine)
  {
    if 0 < r.endLine < r.startLine {
      var lines := seq(r.startLine as int, _ => "");
      assert |Slice(lines, RedirectWindow(r))| == 1 && |Slice(lines, WindowOf(r))| == 0;
    }
  }

  /** A read by offset and limit, or by start and end line, that the guard stops because of a file is
      redirected to the same lines of it. */
  lemma StoppedReadKeepsLines(args: Args, lines: seq<string>)
    requires (ByOffset(args) || ByLines(args)) && |lines| <= MAX
    requires RangeOf(args).hasRange && !(0 < RangeOf(args).endLine < RangeOf(args).startLine)
    ensures Slice(lines, RedirectWindow(RangeOf(args))) == Slice(lines, ClientWindow(args))
  {
    RangeIsWhatClientReads(args, |lines|);
    RedirectShowsRequest(RangeOf(args));
    hide RangeOf, ClientWindow, RedirectWindow, ByOffset, ByLines;
    assert Slice(lines, RedirectWindow(RangeOf(args))) == Slice(lines, WindowOf(RangeOf(args)));
  }
}
