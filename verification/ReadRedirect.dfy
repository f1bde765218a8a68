/**
 The command the read guard suggests (cmd/harnez/hook.go) and how it is read back: the shell splits
 it, `harnez read` parses the range and selects the lines (internal/readcard/read.go).
 */
module ReadRedirect {
  import opened Decimal
  import opened ReadGuard
  import ShellWords

  function RedirectTarget(path: string, baseDir: string, join: (string, string) -> string): string {
    if IsAbs(path) then path else join(baseDir, path)
  }

  /** An absolute path is kept and a relative one joined to the base directory; only the guard leaves it relative
      when there is none. */
  lemma TargetsMean(path: string, baseDir: string, join: (string, string) -> string)
    ensures "/" <= path ==>
      GuardTarget(path, baseDir, join) == path && RedirectTarget(path, baseDir, join) == path
    ensures !("/" <= path) ==> RedirectTarget(path, baseDir, join) == join(baseDir, path)
    ensures !("/" <= path) ==>
      GuardTarget(path, baseDir, join) == if baseDir == "" then path else join(baseDir, path)
  {
  }

  function RedirectTargets(paths: seq<string>, baseDir: string, join: (string, string) -> string): seq<string> {
    seq(|paths|, i requires 0 <= i < |paths| => RedirectTarget(paths[i], baseDir, join))
  }

  /** `Itoa` of a number that is not negative. */
  function Itoa(n: int64): string
    requires n >= 0
  {
    Digits(n as nat)
  }

  /** The range as `-L` takes it. */
  function RangeWord(r: ReadRange): string {
    var start := if r.startLine < 1 then 1 else r.startLine;
    Itoa(start) + ":" + if r.endLine >= start then Itoa(r.endLine) else ""
  }

  function CommandWords(r: ReadRange): seq<string> {
    if r.hasRange then ["harnez", "read", "-n", "-L", RangeWord(r), "--"] else ["harnez", "read", "--"]
  }

  lemma {:induction false} DigitsArePlain(n: nat)
    ensures Digits(n) != "" && forall c | c in Digits(n) :: ShellWords.IsPlain(c)
  {
    forall c | c in Digits(n)
      ensures ShellWords.IsPlain(c)
    {
      DigitIsPlain(c);
    }
  }

  lemma DigitIsPlain(c: char)
    requires IsDigit(c)
    ensures ShellWords.IsPlain(c)
  {
  }

  lemma RangeWordIsPlain(r: ReadRange)
    ensures RangeWord(r) != "" && forall c | c in RangeWord(r) :: ShellWords.IsPlain(c)
  {
    var start := if r.startLine < 1 then 1 else r.startLine;
    DigitsArePlain(start as nat);
    if r.endLine >= start {
      DigitsArePlain(r.endLine as nat);
    }
    assert ShellWords.IsPlain(':');
    hide ShellWords.IsPlain, Itoa;
    assert forall c | c in RangeWord(r) :: c in Itoa(start) || c == ':' || (r.endLine >= start && c in Itoa(r.endLine));
    hide RangeWord;
  }

  lemma CommandIsPlain(r: ReadRange)
    ensures ShellWords.PlainWords(CommandWords(r))
  {
    RangeWordIsPlain(r);
    LiteralsArePlain();
    hide ShellWords.IsPlain, RangeWord;
  }

  lemma LiteralsArePlain()
    ensures forall c | c in "harnez" :: ShellWords.IsPlain(c)
    ensures forall c | c in "read" :: ShellWords.IsPlain(c)
    ensures forall c | c in "-n" :: ShellWords.IsPlain(c)
    ensures forall c | c in "-L" :: ShellWords.IsPlain(c)
    ensures forall c | c in "--" :: ShellWords.IsPlain(c)
  {
    LettersArePlain();
    hide ShellWords.IsPlain;
  }

  lemma LettersArePlain()
    ensures forall c | 'a' <= c <= 'z' || c == 'L' || c == '-' :: ShellWords.IsPlain(c)
  {
  }

  method AppendPaths(head: string, paths: seq<string>, baseDir: string, join: (string, string) -> string)
    returns (command: string)
    ensures command == head + ShellWords.JoinPaths(RedirectTargets(paths, baseDir, join))
  {
    hide ShellWords.JoinPaths, ShellWords.Escape, RedirectTarget;
    command := head;
    ghost var targets := RedirectTargets(paths, baseDir, join);
    ShellWords.JoinNothing();
    assert targets[..0] == [];
    for i := 0 to |paths|
      invariant command == head + ShellWords.JoinPaths(targets[..i])
    {
      var path := RedirectTarget(paths[i], baseDir, join);
      command := command + " '" + ShellWords.Escape(path) + "'";
      assert targets[..i + 1] == targets[..i] + [path];
      JoinMore(targets[..i], path);
      Reassociate(head, ShellWords.JoinPaths(targets[..i]), ShellWords.Escape(path));
    }
    assert targets[..|paths|] == targets;
  }

  lemma Reassociate(head: string, joined: string, escaped: string)
    ensures head + joined + " '" + escaped + "'" == head + (joined + " " + ("'" + escaped + "'"))
  {
  }

  method RedirectCommand(args: Args, baseDir: string, join: (string, string) -> string) returns (command: string)
    ensures ShellWords.Split(command, ShellWords.Bare, ShellWords.None)
         == ShellWords.Some(CommandWords(RangeOf(args)) + RedirectTargets(PathsOf(args), baseDir, join))
  {
    hide ShellWords.Split, RangeOf, PathsOf, RangeWord, ShellWords.PlainWords, RedirectTargets, CommandWords,
      ShellWords.JoinWords;
    command := "harnez read --";
    var rng := ExtractReadRange(args);
    if rng.hasRange {
      var start := if rng.startLine < 1 then 1 else rng.startLine;
      var end := "";
      if rng.endLine >= start {
        end := Itoa(rng.endLine);
      }
      command := "harnez read -n -L " + Itoa(start) + ":" + end + " --";
      RangeWordText(rng, Itoa(start), end);
      assert "harnez read -n -L " + Itoa(start) + ":" + end + " --" ==
        "harnez read -n -L " + (Itoa(start) + ":" + end) + " --";
    }
    CommandText(rng, command);
    var paths := ExtractFilePaths(args);
    command := AppendPaths(command, paths, baseDir, join);
    ghost var targets := RedirectTargets(paths, baseDir, join);
    CommandIsPlain(rng);
    SomeWords(rng);
    ShellWords.SplitCommand(CommandWords(rng), targets);
  }

  lemma SomeWords(r: ReadRange)
    ensures CommandWords(r) != []
  {
    hide RangeWord;
  }

  lemma RangeWordText(r: ReadRange, start: string, end: string)
    requires start == Itoa(if r.startLine < 1 then 1 else r.startLine)
    requires end == if r.endLine >= (if r.startLine < 1 then 1 else r.startLine) then Itoa(r.endLine) else ""
    ensures RangeWord(r) == start + ":" + end
  {
  }

  lemma CommandText(r: ReadRange, command: string)
    requires command == if r.hasRange then "harnez read -n -L " + RangeWord(r) + " --" else "harnez read --"
    ensures command == ShellWords.JoinWords(CommandWords(r))
  {
    ShellWords.JoinFirst(["--"]);
    if r.hasRange {
      var word := RangeWord(r);
      JoinStep(word, ["--"]);
      JoinStep("-L", [word, "--"]);
      JoinStep("-n", ["-L", word, "--"]);
      JoinStep("read", ["-n", "-L", word, "--"]);
      JoinStep("harnez", ["read", "-n", "-L", word, "--"]);
      hide RangeWord, ShellWords.JoinWords;
      FlattenWords("harnez", "read", "-n", "-L", word, "--");
      FlatPrefix();
      hide *;
      assert " " + "--" == " --";
    } else {
      JoinStep("read", ["--"]);
      JoinStep("harnez", ["read", "--"]);
    }
  }

  lemma FlattenWords(a: string, b: string, c: string, d: string, word: string, e: string)
    ensures a + (" " + (b + (" " + (c + (" " + (d + (" " + (word + (" " + e)))))))))
         == (a + " " + b + " " + c + " " + d + " ") + word + (" " + e)
  {
  }

  lemma FlatPrefix()
    ensures "harnez" + " " + "read" + " " + "-n" + " " + "-L" + " " == "harnez read -n -L "
  {
  }

  lemma JoinStep(word: string, words: seq<string>)
    requires words != []
    ensures ShellWords.JoinWords([word] + words) == word + (" " + ShellWords.JoinWords(words))
  {
    ShellWords.JoinFirst([word] + words);
    assert ([word] + words)[1..] == words;
  }

  lemma {:induction false} JoinMore(paths: seq<string>, path: string)
    ensures ShellWords.JoinPaths(paths + [path]) == ShellWords.JoinPaths(paths) + " " + ShellWords.Quote(path)
    decreases |paths|
  {
    hide ShellWords.Quote;
    var quoted := ShellWords.Quote(path);
    if paths == [] {
      assert paths + [path] == [path] && [path][1..] == [];
      assert " " + quoted + "" == "" + " " + quoted;
    } else {
      JoinMore(paths[1..], path);
      assert (paths + [path])[1..] == paths[1..] + [path] && (paths + [path])[0] == paths[0];
      var first, rest := " " + ShellWords.Quote(paths[0]), ShellWords.JoinPaths(paths[1..]);
      assert first + (rest + " " + quoted) == first + rest + " " + quoted;
    }
  }
}
