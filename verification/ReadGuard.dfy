/**
 The read guard of the pre-tool hook (cmd/harnez/hook.go): which lines a read tool is asked for,
 whether the guard stops it, and the `harnez read` command it suggests instead.
 */
module ReadGuard {
  import opened Decimal
  import ShellWords

  datatype Option<+T> = None | Some(value: T)

  const MAX := 0x7FFF_FFFF_FFFF_FFFF
  newtype int64 = x: int | -0x8000_0000_0000_0000 <= x <= 0x7FFF_FFFF_FFFF_FFFF

  /** `max_lines` of spec/reading_discipline.yaml. */
  const MAX_LINES: int64 := 100

  /** Decoded tool arguments; a JSON number is an integer by the time it is looked at. */
  datatype Arg =
    | Int(n: int64) | Str(s: string) | Ints(ns: seq<int64>) | Strs(ss: seq<string>) | List(items: seq<Arg>) | Other
  type Args = map<string, Arg>

  type Bytes = s: string | |s| <= MAX witness ""

  // ----- Arguments

  predicate IsSpace(c: char) {
    c in "\t\n\r " || c as int in {0x0B, 0x0C, 0x85, 0xA0, 0x1680, 0x2028, 0x2029, 0x202F, 0x205F, 0x3000}
      || 0x2000 <= c as int <= 0x200A
  }

  function TrimSpace(s: string): string
    decreases |s|
  {
    if s == "" then s
    else if IsSpace(s[0]) then TrimSpace(s[1..])
    else if IsSpace(s[|s| - 1]) then TrimSpace(s[..|s| - 1])
    else s
  }

  function Atoi(s: string): Option<int64> {
    var digits := if s != "" && (s[0] == '+' || s[0] == '-') then s[1..] else s;
    if digits == "" || !AllDigits(digits) then None
    else
      var n: int := if s[0] == '-' then -(Value(digits) as int) else Value(digits);
      if -MAX - 1 <= n <= MAX then Some(n as int64) else None
  }

  function ParseLineNumber(arg: Option<Arg>): Option<int64> {
    match arg
    case Some(Int(n)) => Some(n)
    case Some(Str(s)) => Atoi(TrimSpace(s))
    case _ => None
  }

  function Get(args: Args, key: string): Option<Arg> {
    if key in args then Some(args[key]) else None
  }

  /** A line number that counts: positive, or 0 when there is none. */
  function Positive(args: Args, key: string): (n: int64)
    ensures n >= 0
  {
    var n := ParseLineNumber(Get(args, key));
    if n.Some? && n.value > 0 then n.value else 0
  }

  const START_KEYS := ["StartLine", "start_line", "startLine"]
  const END_KEYS := ["EndLine", "end_line", "endLine"]
  const VIEW_KEYS := ["view_range", "viewRange"]
  const PATH_KEYS :=
    ["AbsolutePath", "file_path", "path", "FilePath", "Path", "target_file", "TargetFile", "file", "File"]
  const PATHS_KEYS := ["paths", "files", "Paths", "Files"]

  datatype ReadRange = ReadRange(hasRange: bool, startLine: int64, endLine: int64)

  const NO_RANGE := ReadRange(false, 0, 0)

  /** The first of the spellings that carries a positive line number. */
  function FirstPositive(args: Args, keys: seq<string>): (n: int64)
    ensures n >= 0
  {
    if keys == [] then 0 else if Positive(args, keys[0]) > 0 then Positive(args, keys[0])
      else FirstPositive(args, keys[1..])
  }

  function ViewRange(arg: Option<Arg>): Option<ReadRange> {
    match arg
    case Some(List(items)) =>
      if |items| != 2 then None
      else
        var s, e := ParseLineNumber(Some(items[0])), ParseLineNumber(Some(items[1]));
        if s.Some? && e.Some? then Some(ReadRange(true, s.value, e.value)) else None
    case Some(Ints(ns)) => if |ns| == 2 then Some(ReadRange(true, ns[0], ns[1])) else None
    case _ => None
  }

  function FirstViewRange(args: Args, keys: seq<string>): Option<ReadRange> {
    if keys == [] then None
    else
      var r := ViewRange(Get(args, keys[0]));
      if r.Some? then r else FirstViewRange(args, keys[1..])
  }

  /** The last line of a read that starts at `offset`; 0 when there is no limit or it is beyond 64 bits. */
  function LimitedEnd(offset: int64, limit: int64): int64
    requires offset > 0
  {
    if limit > 0 && limit <= MAX as int64 - offset then offset + limit - 1 else 0
  }

  function RangeOf(args: Args): ReadRange {
    var offset, limit := Positive(args, "offset"), Positive(args, "limit");
    var view := FirstViewRange(args, VIEW_KEYS);
    var start, end := FirstPositive(args, START_KEYS), FirstPositive(args, END_KEYS);
    if offset > 0 then ReadRange(true, offset, LimitedEnd(offset, limit))
    else if limit > 0 then ReadRange(true, 1, limit)
    else if view.Some? then view.value
    else ReadRange(start > 0 || end > 0, start, end)
  }

  method FindPositive(args: Args, keys: seq<string>) returns (found: bool, n: int64)
    ensures n == FirstPositive(args, keys) && found == (n > 0)
  {
    found, n := false, 0;
    for i := 0 to |keys|
      invariant !found && n == 0 && FirstPositive(args, keys) == FirstPositive(args, keys[i..])
    {
      assert keys[i..][0] == keys[i] && keys[i..][1..] == keys[i + 1..];
      if keys[i] in args {
        var v := ParseLineNumber(Some(args[keys[i]]));
        if v.Some? && v.value > 0 {
          return true, v.value;
        }
      }
    }
  }

  method FindViewRange(args: Args, keys: seq<string>) returns (r: Option<ReadRange>)
    ensures r == FirstViewRange(args, keys)
  {
    r := None;
    for i := 0 to |keys|
      invariant r.None? && FirstViewRange(args, keys) == FirstViewRange(args, keys[i..])
    {
      assert keys[i..][0] == keys[i] && keys[i..][1..] == keys[i + 1..];
      r := ViewRange(Get(args, keys[i]));
      if r.Some? {
        return;
      }
    }
  }

  method ExtractReadRange(args: Args) returns (r: ReadRange)
    ensures r == RangeOf(args)
  {
    var offset := ParseLineNumber(Get(args, "offset"));
    var limit := ParseLineNumber(Get(args, "limit"));
    if offset.Some? && offset.value > 0 {
      r := ReadRange(true, offset.value, 0);
      if limit.Some? && limit.value > 0 && limit.value <= MAX as int64 - offset.value {
        r := r.(endLine := offset.value + limit.value - 1);
      }
      return;
    }
    if limit.Some? && limit.value > 0 {
      return ReadRange(true, 1, limit.value);
    }
    var view := FindViewRange(args, VIEW_KEYS);
    if view.Some? {
      return view.value;
    }
    var hasStart, start := FindPositive(args, START_KEYS);
    var hasEnd, end := FindPositive(args, END_KEYS);
    return ReadRange(hasStart || hasEnd, start, end);
  }

  function PathOf(arg: Option<Arg>): seq<string> {
    if arg.Some? && arg.value.Str? && TrimSpace(arg.value.s) != "" then [TrimSpace(arg.value.s)] else []
  }

  /** The path under the first single-path key that has one. */
  function FirstPath(args: Args, keys: seq<string>): seq<string> {
    if keys == [] then []
    else if PathOf(Get(args, keys[0])) != [] then PathOf(Get(args, keys[0]))
    else FirstPath(args, keys[1..])
  }

  function TrimmedPaths(items: seq<Arg>): seq<string> {
    if items == [] then [] else TrimmedPaths(items[..|items| - 1]) + PathOf(Some(items[|items| - 1]))
  }

  function AsItems(arg: Option<Arg>): seq<Arg> {
    match arg
    case Some(Strs(ss)) => seq(|ss|, i requires 0 <= i < |ss| => Str(ss[i]))
    case Some(List(items)) => items
    case _ => []
  }

  function ListedPaths(args: Args, keys: seq<string>): seq<string> {
    if keys == [] then []
    else ListedPaths(args, keys[..|keys| - 1]) + TrimmedPaths(AsItems(Get(args, keys[|keys| - 1])))
  }

  function PathsOf(args: Args): seq<string> {
    FirstPath(args, PATH_KEYS) + ListedPaths(args, PATHS_KEYS)
  }

  method FindPath(args: Args, keys: seq<string>) returns (paths: seq<string>)
    ensures paths == FirstPath(args, keys)
  {
    paths := [];
    for i := 0 to |keys|
      invariant paths == [] && FirstPath(args, keys) == FirstPath(args, keys[i..])
    {
      assert keys[i..][0] == keys[i] && keys[i..][1..] == keys[i + 1..];
      paths := PathOf(Get(args, keys[i]));
      if paths != [] {
        return;
      }
    }
  }

  method ListPaths(args: Args, keys: seq<string>) returns (paths: seq<string>)
    ensures paths == ListedPaths(args, keys)
  {
    hide PathOf, AsItems, Get;
    paths := [];
    for i := 0 to |keys|
      invariant paths == ListedPaths(args, keys[..i])
    {
      assert keys[..i + 1][..i] == keys[..i];
      var items := AsItems(Get(args, keys[i]));
      var listed := [];
      for j := 0 to |items|
        invariant listed == TrimmedPaths(items[..j])
      {
        assert items[..j + 1][..j] == items[..j];
        listed := listed + PathOf(Some(items[j]));
      }
      assert items[..|items|] == items;
      paths := paths + listed;
    }
    assert keys[..|keys|] == keys;
  }

  method ExtractFilePaths(args: Args) returns (paths: seq<string>)
    ensures paths == PathsOf(args)
  {
    var first := FindPath(args, PATH_KEYS);
    var listed := ListPaths(args, PATHS_KEYS);
    return first + listed;
  }

  // ----- Lines

  /** `bytes.Count(data, "\n")`. */
  function Newlines(data: string): (n: nat)
    ensures n <= |data|
  {
    if data == "" then 0 else (if data[0] == '\n' then 1 else 0) + Newlines(data[1..])
  }

  /** The lines of a text; a final newline does not begin another one. */
  function Lines(data: string): (lines: seq<string>)
    ensures lines == [] <==> data == ""
    ensures |lines| <= |data|
  {
    if data == "" then []
    else if data[0] == '\n' then [""] + Lines(data[1..])
    else if |data| == 1 then [data]
    else
      var rest := Lines(data[1..]);
      [[data[0]] + rest[0]] + rest[1..]
  }

  lemma {:induction false} LinesByNewlines(data: string)
    ensures |Lines(data)| == Newlines(data) + if data != "" && data[|data| - 1] != '\n' then 1 else 0
  {
    if |data| > 1 {
      LinesByNewlines(data[1..]);
    }
  }

  lemma {:induction false} NewlinesButLast(data: string)
    requires data != "" && data[|data| - 1] != '\n'
    ensures Newlines(data) < |data|
  {
    if |data| > 1 {
      NewlinesButLast(data[1..]);
    }
  }

  method CountFileLines(data: Bytes) returns (n: int64)
    ensures n as int == |Lines(data)|
  {
    LinesByNewlines(data);
    if |data| == 0 {
      return 0;
    }
    n := Newlines(data) as int64;
    if data[|data| - 1] != '\n' {
      NewlinesButLast(data);
      n := n + 1;
    }
  }

  /** Lines `first` to `last`, counted from 1; without `last`, to the end. */
  datatype Window = Window(first: int, last: Option<int>)

  function Low(w: Window): nat {
    if w.first < 1 then 0 else w.first - 1
  }

  function High(w: Window, total: nat): int {
    if w.last.None? || w.last.value > total then total else w.last.value
  }

  /** How many of `total` lines a window shows. */
  function Shown(w: Window, total: nat): (n: nat)
    ensures n <= total
  {
    if Low(w) < High(w, total) then High(w, total) - Low(w) else 0
  }

  function Slice(lines: seq<string>, w: Window): (r: seq<string>)
    ensures |r| == Shown(w, |lines|)
  {
    if Low(w) < High(w, |lines|) then lines[Low(w)..High(w, |lines|)] else []
  }

  // ----- The guard

  predicate LongRange(r: ReadRange) {
    r.hasRange && r.startLine > 0 && r.endLine >= r.startLine && r.endLine - r.startLine + 1 >= MAX_LINES
  }

  /** The guard's check of one file of `total` lines. */
  predicate TooLong(r: ReadRange, total: int64)
    requires total >= 0
  {
    if total < MAX_LINES then false
    else if !r.hasRange then true
    else if r.startLine > 0 && r.endLine >= r.startLine then r.endLine - r.startLine + 1 >= MAX_LINES
    else if r.startLine > 0 && r.endLine == 0 then total - r.startLine + 1 >= MAX_LINES
    else if r.endLine > 0 && r.startLine == 0 then r.endLine >= MAX_LINES
    else false
  }

  /** A range as a window: a bound of 0 is absent, a negative last line means the end of the file. */
  function WindowOf(r: ReadRange): Window {
    Window(r.startLine as int, if r.endLine <= 0 then None else Some(r.endLine as int))
  }

  predicate Sound(r: ReadRange) {
    r.startLine >= 0 && r.endLine >= 0 && (r.hasRange <==> r.startLine > 0 || r.endLine > 0)
  }

  /** For a range without negative bounds the guard stops exactly the reads of 100 lines or more. */
  lemma TooLongIff(r: ReadRange, total: int64)
    requires Sound(r) && total >= 0 && !LongRange(r)
    ensures TooLong(r, total) <==> Shown(WindowOf(r), total as int) >= MAX_LINES as int
  {
  }

  /** The bounds for which no file gets past the guard with 100 lines or more. */
  predicate Covered(r: ReadRange) {
    if r.startLine > 0 then r.endLine >= 0 || r.startLine > MAX as int64 - MAX_LINES + 1
    else r.endLine > 0 && (r.startLine == 0 || r.endLine < MAX_LINES)
  }

  predicate Escapes(r: ReadRange, total: int64)
    requires total >= 0
  {
    !LongRange(r) && !TooLong(r, total) && Shown(WindowOf(r), total as int) >= MAX_LINES as int
  }

  /** Of the ranges that `view_range` can carry, exactly the covered ones are bounded by the guard. */
  lemma GuardedExactlyWhenCovered(r: ReadRange)
    requires r.hasRange
    ensures (forall total: int64 | total >= 0 :: !Escapes(r, total)) <==> Covered(r)
  {
    if !Covered(r) {
      var total := if r.startLine > 0 then r.startLine + (MAX_LINES - 1) else MAX_LINES;
      assert Escapes(r, total);
    }
  }

  /** `view_range: [1, -1]` reads every line of a file of any length. */
  lemma ViewToEndEscapes(total: int64)
    requires total >= MAX_LINES
    ensures Escapes(ReadRange(true, 1, -1), total)
  {
  }

  function Lower(s: string): string {
    seq(|s|, i requires 0 <= i < |s| => if 'A' <= s[i] <= 'Z' then s[i] - 'A' + 'a' else s[i])
  }

  predicate IsReadTool(name: string) {
    Lower(TrimSpace(name)) in {"read", "view_file", "view", "read_file", "readfile", "readmultiplefiles",
      "read_multiple_files"}
  }

  /** `filepath.Ext`: from the last dot of the last path element. */
  function Ext(path: string): string {
    if path == "" || path[|path| - 1] == '/' then ""
    else if path[|path| - 1] == '.' then "."
    else
      var front := Ext(path[..|path| - 1]);
      if front == "" then "" else front + [path[|path| - 1]]
  }

  predicate IsBinaryMedia(path: string) {
    Lower(Ext(path)) in {".png", ".jpg", ".jpeg", ".webp", ".gif", ".bmp", ".ico", ".svg", ".pdf", ".mp4", ".webm",
      ".mp3", ".wav"}
  }

  predicate IsAbs(path: string) {
    path != "" && path[0] == '/'
  }

  /** The readable files by absolute path; others cannot be counted. */
  type Files = map<string, Bytes>

  function GuardTarget(path: string, baseDir: string, join: (string, string) -> string): string {
    if !IsAbs(path) && baseDir != "" then join(baseDir, path) else path
  }

  predicate IsText(target: string, files: Files) {
    !IsBinaryMedia(target) && target in files
  }

  function LineCount(data: Bytes): int64 {
    |Lines(data)| as int64
  }

  predicate Violates(toolName: string, args: Args, baseDir: string, files: Files, join: (string, string) -> string) {
    && IsReadTool(toolName)
    && (LongRange(RangeOf(args))
        || exists p | p in PathsOf(args) && IsText(GuardTarget(p, baseDir, join), files) ::
             TooLong(RangeOf(args), LineCount(files[GuardTarget(p, baseDir, join)])))
  }

  method EvaluateReadToolViolation(toolName: string, args: Args, baseDir: string, files: Files,
                                   join: (string, string) -> string)
    returns (violation: bool)
    ensures violation == Violates(toolName, args, baseDir, files, join)
  {
    hide IsReadTool, LongRange, TooLong, RangeOf, PathsOf, Lines, IsBinaryMedia, GuardTarget;
    if !IsReadTool(toolName) {
      return false;
    }
    var rng := ExtractReadRange(args);
    if LongRange(rng) {
      return true;
    }
    var paths := ExtractFilePaths(args);
    for i := 0 to |paths|
      invariant forall p | p in paths[..i] && IsText(GuardTarget(p, baseDir, join), files) ::
                  !TooLong(rng, LineCount(files[GuardTarget(p, baseDir, join)]))
    {
      var target := GuardTarget(paths[i], baseDir, join);
      assert paths[i] in PathsOf(args);
      if IsText(target, files) {
        var total := CountFileLines(files[target]);
        if TooLong(rng, total) {
          return true;
        }
      }
    }
    return false;
  }

  // ----- What the client's tool delivers

  predicate Lacks(args: Args, keys: seq<string>) {
    forall k | k in keys :: k !in args
  }

  /** A read bounded by `offset` and `limit` only. */
  predicate ByOffset(args: Args) {
    Lacks(args, VIEW_KEYS) && Lacks(args, START_KEYS) && Lacks(args, END_KEYS)
  }

  /** A read bounded by `StartLine` and `EndLine`, in any of their spellings, only. */
  predicate ByLines(args: Args) {
    Lacks(args, VIEW_KEYS) && Lacks(args, ["offset", "limit"])
  }

  /** `limit` lines from `offset` on, in unbounded integers. */
  function OffsetWindow(args: Args): Window {
    var offset, limit := Positive(args, "offset") as int, Positive(args, "limit") as int;
    var first := if offset > 0 then offset else 1;
    Window(first, if limit > 0 then Some(first + limit - 1) else None)
  }

  function LinesWindow(args: Args): Window {
    var start, end := FirstPositive(args, START_KEYS) as int, FirstPositive(args, END_KEYS) as int;
    Window(if start > 0 then start else 1, if end > 0 then Some(end) else None)
  }

  function ClientWindow(args: Args): Window {
    if ByOffset(args) then OffsetWindow(args) else LinesWindow(args)
  }

  lemma {:induction false} LackedKeys(args: Args, keys: seq<string>)
    requires Lacks(args, keys)
    ensures FirstPositive(args, keys) == 0 && FirstViewRange(args, keys).None?
  {
    if keys != [] {
      assert keys[0] in keys;
      assert forall k | k in keys[1..] :: k in keys;
      LackedKeys(args, keys[1..]);
    }
  }

  /** The extracted range is sound and shows what the client's tool shows, in files of any length. */
  lemma RangeIsWhatClientReads(args: Args, total: nat)
    requires (ByOffset(args) || ByLines(args)) && total <= MAX
    ensures Sound(RangeOf(args))
    ensures Low(WindowOf(RangeOf(args))) == Low(ClientWindow(args))
    ensures Shown(WindowOf(RangeOf(args)), total) == Shown(ClientWindow(args), total)
    ensures Shown(ClientWindow(args), total) > 0 ==>
              High(WindowOf(RangeOf(args)), total) == High(ClientWindow(args), total)
  {
    LackedKeys(args, VIEW_KEYS);
    if ByOffset(args) {
      LackedKeys(args, START_KEYS);
      LackedKeys(args, END_KEYS);
    } else {
      assert "offset" in ["offset", "limit"] && "limit" in ["offset", "limit"];
      assert Positive(args, "offset") == 0 && Positive(args, "limit") == 0;
    }
    hide Positive, FirstPositive, FirstViewRange, VIEW_KEYS, START_KEYS, END_KEYS, Lacks;
  }

  /** The guard stops a read exactly when it asks for a range of 100 lines or more, or would show
      100 lines or more of a text file. */
  lemma GuardBoundsReads(toolName: string, args: Args, baseDir: string, files: Files, join: (string, string) -> string)
    requires IsReadTool(toolName) && (ByOffset(args) || ByLines(args))
    ensures Violates(toolName, args, baseDir, files, join)
       <==> (LongRange(RangeOf(args))
             || exists p | p in PathsOf(args) && IsText(GuardTarget(p, baseDir, join), files) ::
                  |Slice(Lines(files[GuardTarget(p, baseDir, join)]), ClientWindow(args))| >= MAX_LINES as int)
  {
    RangeIsWhatClientReads(args, 0);
    hide IsReadTool, LongRange, TooLong, RangeOf, PathsOf, Lines, IsText, GuardTarget, Sound, ClientWindow, Shown,
      Slice, ByOffset, ByLines, WindowOf;
    forall p | p in PathsOf(args) && IsText(GuardTarget(p, baseDir, join), files) && !LongRange(RangeOf(args))
      ensures GuardTarget(p, baseDir, join) in files
      ensures TooLong(RangeOf(args), LineCount(files[GuardTarget(p, baseDir, join)]))
         <==> |Slice(Lines(files[GuardTarget(p, baseDir, join)]), ClientWindow(args))| >= MAX_LINES as int
    {
      TextIsFile(GuardTarget(p, baseDir, join), files);
      var data := files[GuardTarget(p, baseDir, join)];
      RangeIsWhatClientReads(args, |Lines(data)|);
      TooLongIff(RangeOf(args), LineCount(data));
    }
  }

  lemma TextIsFile(target: string, files: Files)
    requires IsText(target, files)
    ensures target in files
  {
  }

  /** An allowed read shows fewer than 100 lines of each text file. */
  lemma AllowedReadsAreShort(toolName: string, args: Args, baseDir: string, files: Files,
                             join: (string, string) -> string, p: string)
    requires IsReadTool(toolName) && (ByOffset(args) || ByLines(args))
    requires !Violates(toolName, args, baseDir, files, join)
    requires p in PathsOf(args) && IsText(GuardTarget(p, baseDir, join), files)
    ensures |Slice(Lines(files[GuardTarget(p, baseDir, join)]), ClientWindow(args))| < MAX_LINES as int
  {
    GuardBoundsReads(toolName, args, baseDir, files, join);
  }
}
