/**
 The arguments of the read tools, by their literal names (cmd/harnez/hook.go): which of them bound
 a read, which name its files, and which files the guard looks at.
 */
module ReadArguments {
  import opened Decimal
  import opened ReadGuard

  // ----- Line numbers

  /** The argument is this line number, as a number or as decimal text with space around it. */
  predicate Says(args: Args, key: string, n: int64) {
    key in args && (args[key] == Int(n) || (args[key].Str? && n >= 0 && TrimSpace(args[key].s) == Digits(n as nat)))
  }

  /** Decimal digits with at most one sign, of a value that fits. */
  lemma AtoiMeans(s: string, n: int64)
    ensures Atoi(s) == Some(n) <==>
      exists d | d != "" && AllDigits(d) ::
        ((s == d || s == "+" + d) && n as int == Value(d)) || (s == "-" + d && n as int == -(Value(d) as int))
  {
    if Atoi(s) == Some(n) {
      var d := if s[0] == '+' || s[0] == '-' then s[1..] else s;
      assert s == d || s == [s[0]] + d;
      assert d != "" && AllDigits(d);
    }
    if d :| d != "" && AllDigits(d)
            && (((s == d || s == "+" + d) && n as int == Value(d))
                || (s == "-" + d && n as int == -(Value(d) as int))) {
      assert IsDigit(d[0]);
      assert s == d || s[1..] == d;
    }
  }

  lemma SaysPositive(args: Args, key: string, n: int64)
    requires Says(args, key, n) && n > 0
    ensures Positive(args, key) == n
  {
    if args[key].Str? {
      ValueOfDigits(n as nat);
    }
  }

  lemma FirstOfThree(args: Args, a: string, b: string, c: string)
    ensures FirstPositive(args, [a, b, c]) ==
      if Positive(args, a) > 0 then Positive(args, a)
      else if Positive(args, b) > 0 then Positive(args, b) else Positive(args, c)
  {
    assert [a, b, c][1..] == [b, c] && [b, c][1..] == [c] && [c][1..] == [];
    hide Positive;
    assert FirstPositive(args, [c]) == Positive(args, c);
    assert FirstPositive(args, [b, c]) == if Positive(args, b) > 0 then Positive(args, b) else Positive(args, c);
  }

  lemma NoView(args: Args)
    requires "view_range" !in args && "viewRange" !in args
    ensures FirstViewRange(args, VIEW_KEYS).None?
  {
    assert VIEW_KEYS[1..] == ["viewRange"] && ["viewRange"][1..] == [];
    assert FirstViewRange(args, ["viewRange"]).None?;
  }

  /** Without any other bound, the first and the last line come from these six arguments. */
  lemma LineArguments(args: Args, n: int64)
    requires "offset" !in args && "limit" !in args && "view_range" !in args && "viewRange" !in args && n > 0
    ensures
      || Says(args, "StartLine", n)
      || (Says(args, "start_line", n) && "StartLine" !in args)
      || (Says(args, "startLine", n) && "StartLine" !in args && "start_line" !in args) ==>
      RangeOf(args).hasRange && RangeOf(args).startLine == n
    ensures
      || Says(args, "EndLine", n)
      || (Says(args, "end_line", n) && "EndLine" !in args)
      || (Says(args, "endLine", n) && "EndLine" !in args && "end_line" !in args) ==>
      RangeOf(args).hasRange && RangeOf(args).endLine == n
    ensures "StartLine" !in args && "start_line" !in args && "startLine" !in args ==> RangeOf(args).startLine == 0
    ensures "EndLine" !in args && "end_line" !in args && "endLine" !in args ==> RangeOf(args).endLine == 0
  {
    NoView(args);
    FirstOfThree(args, "StartLine", "start_line", "startLine");
    FirstOfThree(args, "EndLine", "end_line", "endLine");
    forall key | Says(args, key, n)
      ensures Positive(args, key) == n
    {
      SaysPositive(args, key, n);
    }
    hide Says;
  }

  /** `limit` lines from `offset` on, or from the first; a last line beyond 64 bits is dropped. */
  lemma OffsetArguments(args: Args, n: int64, m: int64)
    requires n > 0 && m > 0
    ensures Says(args, "offset", n) && "limit" !in args ==> RangeOf(args) == ReadRange(true, n, 0)
    ensures Says(args, "offset", n) && Says(args, "limit", m) ==>
      RangeOf(args) == ReadRange(true, n, if n as int + m as int <= MAX then n + (m - 1) else 0)
    ensures "offset" !in args && Says(args, "limit", m) ==> RangeOf(args) == ReadRange(true, 1, m)
  {
    if Says(args, "offset", n) {
      SaysPositive(args, "offset", n);
    }
    if Says(args, "limit", m) {
      SaysPositive(args, "limit", m);
    }
    hide Says;
  }

  /** Two bounds in one argument are taken as they are. */
  lemma ViewArguments(args: Args, key: string, a: int64, b: int64)
    requires "offset" !in args && "limit" !in args && key in args
    requires key == "view_range" || (key == "viewRange" && "view_range" !in args)
    requires args[key] == Ints([a, b]) || args[key] == List([Int(a), Int(b)])
    ensures RangeOf(args) == ReadRange(true, a, b)
  {
    assert VIEW_KEYS[1..] == ["viewRange"];
    assert ViewRange(Some(args[key])) == Some(ReadRange(true, a, b));
    assert FirstViewRange(args, VIEW_KEYS) ==
      if "view_range" in args && ViewRange(Some(args["view_range"])).Some? then ViewRange(Some(args["view_range"]))
      else FirstViewRange(args, ["viewRange"]);
    assert key == "viewRange" ==> FirstViewRange(args, ["viewRange"]) == ViewRange(Some(args[key]));
    hide ViewRange;
  }

  /** A request is long by itself when it asks for 100 lines or more. */
  lemma LongRequests(args: Args)
    ensures ByOffset(args) ==>
      (LongRange(RangeOf(args)) <==>
        Positive(args, "limit") >= 100 && Positive(args, "offset") as int + Positive(args, "limit") as int <= MAX)
    ensures ByLines(args) ==>
      (LongRange(RangeOf(args)) <==>
        var start, end := FirstPositive(args, ["StartLine", "start_line", "startLine"]),
                          FirstPositive(args, ["EndLine", "end_line", "endLine"]);
        start > 0 && end as int - start as int + 1 >= 100)
  {
    LackedKeysOf(args);
    hide Positive, FirstPositive, FirstViewRange, Lacks;
  }

  lemma LackedKeysOf(args: Args)
    ensures ByOffset(args) ==>
      FirstViewRange(args, VIEW_KEYS).None? && FirstPositive(args, START_KEYS) == 0
        && FirstPositive(args, END_KEYS) == 0
    ensures ByLines(args) ==>
      FirstViewRange(args, VIEW_KEYS).None? && Positive(args, "offset") == 0 && Positive(args, "limit") == 0
  {
    if ByOffset(args) {
      LackedKeys(args, VIEW_KEYS);
      LackedKeys(args, START_KEYS);
      LackedKeys(args, END_KEYS);
    }
    if ByLines(args) {
      LackedKeys(args, VIEW_KEYS);
      assert "offset" in ["offset", "limit"] && "limit" in ["offset", "limit"];
    }
    hide FirstPositive, FirstViewRange;
  }

  // ----- Paths

  predicate IsPathKey(key: string) {
    || key == "AbsolutePath" || key == "file_path" || key == "path" || key == "FilePath" || key == "Path"
    || key == "target_file" || key == "TargetFile" || key == "file" || key == "File"
  }

  predicate IsListKey(key: string) {
    key == "paths" || key == "files" || key == "Paths" || key == "Files"
  }

  /** The argument is a text that is more than space, and this is what is left without the space around it. */
  predicate NamesPath(arg: Arg, p: string) {
    arg.Str? && p != "" && p == TrimSpace(arg.s)
  }

  predicate ListsPath(arg: Arg, p: string) {
    || (arg.Strs? && exists s | s in arg.ss :: NamesPath(Str(s), p))
    || (arg.List? && exists item | item in arg.items :: NamesPath(item, p))
  }

  lemma {:induction false} FirstPathFrom(args: Args, keys: seq<string>)
    ensures FirstPath(args, keys) == [] <==> forall key, p | key in keys && key in args :: !NamesPath(args[key], p)
    ensures FirstPath(args, keys) != [] ==>
      && |FirstPath(args, keys)| == 1
      && exists key | key in keys && key in args :: NamesPath(args[key], FirstPath(args, keys)[0])
  {
    if keys != [] {
      FirstPathFrom(args, keys[1..]);
      assert keys == [keys[0]] + keys[1..];
      if keys[0] in args && args[keys[0]].Str? && TrimSpace(args[keys[0]].s) != "" {
        assert NamesPath(args[keys[0]], TrimSpace(args[keys[0]].s));
      }
    }
  }

  lemma {:induction false} TrimmedFrom(items: seq<Arg>, p: string)
    ensures p in TrimmedPaths(items) <==> exists item | item in items :: NamesPath(item, p)
  {
    if items != [] {
      var init, last := items[..|items| - 1], items[|items| - 1];
      TrimmedFrom(init, p);
      assert items == init + [last];
      assert p in PathOf(Some(last)) <==> NamesPath(last, p);
      assert p in TrimmedPaths(items) <==> p in TrimmedPaths(init) || p in PathOf(Some(last));
      hide TrimmedPaths, PathOf, NamesPath;
    }
  }

  lemma ItemsOf(arg: Arg, p: string)
    ensures p in TrimmedPaths(AsItems(Some(arg))) <==> ListsPath(arg, p)
  {
    TrimmedFrom(AsItems(Some(arg)), p);
    hide NamesPath;
    if arg.Strs? {
      var items := AsItems(Some(arg));
      assert forall i | 0 <= i < |arg.ss| :: items[i] == Str(arg.ss[i]);
      if s :| s in arg.ss && NamesPath(Str(s), p) {
        var i :| 0 <= i < |arg.ss| && arg.ss[i] == s;
        assert items[i] in items;
      }
    }
  }

  lemma {:induction false} ListedFrom(args: Args, keys: seq<string>, p: string)
    ensures p in ListedPaths(args, keys) <==> exists key | key in keys && key in args :: ListsPath(args[key], p)
  {
    if keys != [] {
      var init, last := keys[..|keys| - 1], keys[|keys| - 1];
      ListedFrom(args, init, p);
      LastListed(args, last, p);
      assert keys == init + [last];
      assert p in ListedPaths(args, keys) <==>
        p in ListedPaths(args, init) || p in TrimmedPaths(AsItems(Get(args, last)));
      hide ListsPath, ListedPaths, TrimmedPaths, AsItems, Get;
    }
  }

  lemma LastListed(args: Args, key: string, p: string)
    ensures p in TrimmedPaths(AsItems(Get(args, key))) <==> key in args && ListsPath(args[key], p)
  {
    if key in args {
      ItemsOf(args[key], p);
    }
    hide ListsPath;
  }

  /** The guard looks at the one path of the nine single arguments, and at every path of the four lists. */
  lemma PathArguments(args: Args, p: string)
    ensures (exists key | IsListKey(key) && key in args :: ListsPath(args[key], p)) ==> p in PathsOf(args)
    ensures forall key | IsPathKey(key) && key in args && NamesPath(args[key], p)
                         && (forall other | IsPathKey(other) && other in args :: other == key) :: p in PathsOf(args)
    ensures p in PathsOf(args) ==>
      || (exists key | IsPathKey(key) && key in args :: NamesPath(args[key], p))
      || (exists key | IsListKey(key) && key in args :: ListsPath(args[key], p))
  {
    FirstPathFrom(args, PATH_KEYS);
    ListedFrom(args, PATHS_KEYS, p);
    KeysMean();
    hide FirstPath, ListedPaths, PATH_KEYS, PATHS_KEYS, IsPathKey, IsListKey, ListsPath;
  }

  lemma KeysMean()
    ensures forall key :: key in PATH_KEYS <==> IsPathKey(key)
    ensures forall key :: key in PATHS_KEYS <==> IsListKey(key)
  {
  }

  // ----- Names

  /** Trimming cuts the space off both ends and nothing else. */
  lemma TrimMeans(s: string) returns (i: nat, j: nat)
    ensures i <= j <= |s| && TrimSpace(s) == s[i..j]
    ensures (forall k | 0 <= k < i :: IsSpace(s[k])) && (forall k | j <= k < |s| :: IsSpace(s[k]))
    ensures i < j ==> !IsSpace(s[i]) && !IsSpace(s[j - 1])
    decreases |s|
  {
    hide IsSpace;
    i, j := 0, |s|;
    if s != "" && IsSpace(s[0]) {
      i, j := TrimMeans(s[1..]);
      assert s[1..][i..j] == s[i + 1..j + 1];
      i, j := i + 1, j + 1;
      assert forall k | 1 <= k < |s| :: s[k] == s[1..][k - 1];
    } else if s != "" && IsSpace(s[|s| - 1]) {
      i, j := TrimMeans(s[..|s| - 1]);
      assert s[..|s| - 1][i..j] == s[i..j];
    }
  }

  /** The letters A to Z become a to z, and nothing else changes. */
  lemma LowerMeans(s: string)
    ensures |Lower(s)| == |s|
    ensures forall i | 0 <= i < |s| ::
      Lower(s)[i] as int == if 65 <= s[i] as int <= 90 then s[i] as int + 32 else s[i] as int
  {
  }

  /** The name is this one, whatever its case and the space around it. */
  ghost predicate Named(name: string, tool: string) {
    exists i, j | 0 <= i < j <= |name| ::
      && Lower(name[i..j]) == tool && !IsSpace(name[i]) && !IsSpace(name[j - 1])
      && (forall k | 0 <= k < i :: IsSpace(name[k])) && (forall k | j <= k < |name| :: IsSpace(name[k]))
  }

  lemma TrimTo(s: string, i: nat, j: nat)
    requires i < j <= |s| && !IsSpace(s[i]) && !IsSpace(s[j - 1])
    requires (forall k | 0 <= k < i :: IsSpace(s[k])) && (forall k | j <= k < |s| :: IsSpace(s[k]))
    ensures TrimSpace(s) == s[i..j]
  {
    var a, b := TrimMeans(s);
    hide IsSpace, TrimSpace;
    assert a <= i && j <= b;
  }

  lemma NamedMeans(name: string, tool: string)
    requires tool != ""
    ensures Named(name, tool) <==> Lower(TrimSpace(name)) == tool
  {
    LowerMeans(TrimSpace(name));
    var i, j := TrimMeans(name);
    hide IsSpace, Lower;
    if i', j' :| 0 <= i' < j' <= |name|
                 && Lower(name[i'..j']) == tool && !IsSpace(name[i']) && !IsSpace(name[j' - 1])
                 && (forall k | 0 <= k < i' :: IsSpace(name[k])) && (forall k | j' <= k < |name| :: IsSpace(name[k])) {
      TrimTo(name, i', j');
    }
  }

  /** The read tools, whatever the case of the name and the space around it. */
  lemma ReadTools(name: string)
    ensures IsReadTool(name) <==>
      || Named(name, "read") || Named(name, "view_file") || Named(name, "view") || Named(name, "read_file")
      || Named(name, "readfile") || Named(name, "readmultiplefiles") || Named(name, "read_multiple_files")
  {
    NamedMeans(name, "read");
    NamedMeans(name, "view_file");
    NamedMeans(name, "view");
    NamedMeans(name, "read_file");
    NamedMeans(name, "readfile");
    NamedMeans(name, "readmultiplefiles");
    NamedMeans(name, "read_multiple_files");
    hide Named, Lower, TrimSpace;
  }

  lemma {:induction false} ExtIsSuffix(path: string)
    ensures |Ext(path)| <= |path| && path[|path| - |Ext(path)|..] == Ext(path)
  {
    if path != "" {
      ExtIsSuffix(path[..|path| - 1]);
      assert path == path[..|path| - 1] + [path[|path| - 1]];
    }
  }

  lemma {:induction false} ExtFromDot(path: string, k: nat)
    requires k < |path| && path[k] == '.' && forall i | k < i < |path| :: path[i] != '.' && path[i] != '/'
    ensures Ext(path) == path[k..]
  {
    if k < |path| - 1 {
      var init := path[..|path| - 1];
      ExtFromDot(init, k);
      assert path[k..] == init[k..] + [path[|path| - 1]];
    }
  }

  /** A dot and then neither dots nor slashes. */
  predicate IsExtension(ext: string) {
    ext != "" && ext[0] == '.' && forall i | 1 <= i < |ext| :: ext[i] != '.' && ext[i] != '/'
  }

  /** The path ends like this, whatever the case of its letters. */
  predicate EndsLike(path: string, ext: string) {
    |ext| <= |path| && Lower(path[|path| - |ext|..]) == ext
  }

  lemma ExtOfEnding(path: string, ext: string)
    requires IsExtension(ext) && EndsLike(path, ext)
    ensures Ext(path) == path[|path| - |ext|..]
  {
    hide Ext;
    var k := |path| - |ext|;
    assert Lower(path[k..])[0] == ext[0] && path[k..][0] == path[k];
    forall i | k < i < |path|
      ensures path[i] != '.' && path[i] != '/'
    {
      assert Lower(path[k..])[i - k] == ext[i - k] && path[k..][i - k] == path[i];
    }
    ExtFromDot(path, k);
  }

  lemma LikeItsExtension(path: string, ext: string)
    requires IsExtension(ext)
    ensures EndsLike(path, ext) <==> Lower(Ext(path)) == ext
  {
    ExtIsSuffix(path);
    assert |Lower(Ext(path))| == |Ext(path)|;
    if EndsLike(path, ext) {
      ExtOfEnding(path, ext);
    }
    hide Lower, Ext, IsExtension;
  }

  /** The files that are not text are those that end like one of these, whatever the case. */
  lemma MediaByEnding(path: string)
    ensures IsBinaryMedia(path) <==>
      || EndsLike(path, ".png") || EndsLike(path, ".jpg") || EndsLike(path, ".jpeg") || EndsLike(path, ".webp")
      || EndsLike(path, ".gif") || EndsLike(path, ".bmp") || EndsLike(path, ".ico") || EndsLike(path, ".svg")
      || EndsLike(path, ".pdf") || EndsLike(path, ".mp4") || EndsLike(path, ".webm") || EndsLike(path, ".mp3")
      || EndsLike(path, ".wav")
  {
    LikeItsExtension(path, ".png");
    LikeItsExtension(path, ".jpg");
    LikeItsExtension(path, ".jpeg");
    LikeItsExtension(path, ".webp");
    LikeItsExtension(path, ".gif");
    LikeItsExtension(path, ".bmp");
    LikeItsExtension(path, ".ico");
    LikeItsExtension(path, ".svg");
    LikeItsExtension(path, ".pdf");
    LikeItsExtension(path, ".mp4");
    LikeItsExtension(path, ".webm");
    LikeItsExtension(path, ".mp3");
    LikeItsExtension(path, ".wav");
    hide EndsLike, Lower, Ext;
  }
}
