/**
 Field splitting with the quoting rules of the Shell Command Language (POSIX.1-2017, XCU sections
 2.2.1 to 2.2.3), for commands without expansions: `Split` has no result when an unquoted
 metacharacter or an expansion inside double quotes would make the shell do more than quote removal.
 */
module ShellWords {

  datatype Option<+T> = None | Some(value: T)
  datatype Quoting = Bare | Single | Double

  const METACHARACTERS := "|&;<>()$`*?[#~=%{}!^\n"
  const DOUBLE_QUOTE_ESCAPES := "$`\"\\"

  predicate IsBlank(c: char) {
    c == ' ' || c == '\t'
  }

  predicate IsPlain(c: char) {
    !IsBlank(c) && c != '\'' && c != '"' && c != '\\' && c !in METACHARACTERS
  }

  function Text(word: Option<string>): string {
    if word.Some? then word.value else ""
  }

  function Before(word: Option<string>, words: Option<seq<string>>): Option<seq<string>> {
    if words.None? then None else if word.None? then words else Some([word.value] + words.value)
  }

  /** The words of `s`, where `word` is what has been read of the current one. */
  function Split(s: string, quoting: Quoting, word: Option<string>): Option<seq<string>>
    decreases |s|
  {
    if s == "" then
      if quoting.Bare? then Before(word, Some([])) else None
    else
      var c, rest := s[0], s[1..];
      match quoting
      case Bare =>
        if IsBlank(c) then Before(word, Split(rest, Bare, None))
        else if c == '\'' then Split(rest, Single, Some(Text(word)))
        else if c == '"' then Split(rest, Double, Some(Text(word)))
        else if c == '\\' then
          if rest == "" then None
          else if rest[0] == '\n' then Split(rest[1..], Bare, word)
          else Split(rest[1..], Bare, Some(Text(word) + [rest[0]]))
        else if c in METACHARACTERS then None
        else Split(rest, Bare, Some(Text(word) + [c]))
      case Single =>
        if c == '\'' then Split(rest, Bare, word)
        else Split(rest, Single, Some(Text(word) + [c]))
      case Double =>
        if c == '"' then Split(rest, Bare, word)
        else if c == '$' || c == '`' then None
        else if c == '\\' && rest != "" && rest[0] == '\n' then Split(rest[1..], Double, word)
        else if c == '\\' && rest != "" && rest[0] in DOUBLE_QUOTE_ESCAPES
          then Split(rest[1..], Double, Some(Text(word) + [rest[0]]))
        else Split(rest, Double, Some(Text(word) + [c]))
  }

  /** `strings.ReplaceAll(path, "'", "'\"'\"'")`. */
  function Escape(path: string): string {
    if path == "" then ""
    else (if path[0] == '\'' then "'\"'\"'" else [path[0]]) + Escape(path[1..])
  }

  /** The command `readRedirect` builds for one path. */
  function Quote(path: string): string {
    "'" + Escape(path) + "'"
  }

  lemma SplitQuotedQuote(rest: string, w: string)
    ensures Split("'\"'\"'" + rest, Single, Some(w)) == Split(rest, Single, Some(w + "'"))
  {
    var s0 := "'\"'\"'" + rest;
    var s1 := "\"'\"'" + rest;
    var s2 := "'\"'" + rest;
    var s3 := "\"'" + rest;
    var s4 := "'" + rest;
    assert s0[1..] == s1 && s1[1..] == s2 && s2[1..] == s3 && s3[1..] == s4 && s4[1..] == rest;
    assert Split(s0, Single, Some(w)) == Split(s1, Bare, Some(w));
    assert Split(s1, Bare, Some(w)) == Split(s2, Double, Some(w));
    assert Split(s2, Double, Some(w)) == Split(s3, Double, Some(w + ['\'']));
    assert Split(s3, Double, Some(w + ['\''])) == Split(s4, Bare, Some(w + ['\'']));
    assert Split(s4, Bare, Some(w + ['\''])) == Split(rest, Single, Some(w + ['\'']));
  }

  lemma SplitLiteral(c: char, rest: string, w: string)
    requires c != '\''
    ensures Split([c] + rest, Single, Some(w)) == Split(rest, Single, Some(w + [c]))
  {
    assert ([c] + rest)[1..] == rest;
  }

  lemma SplitClose(rest: string, word: Option<string>)
    ensures Split("'" + rest, Single, word) == Split(rest, Bare, word)
  {
    assert ("'" + rest)[1..] == rest;
  }

  /** An escaped path reads back as itself, whatever characters it has. */
  lemma {:induction false} SplitEscaped(path: string, rest: string, w: string)
    ensures Split(Escape(path) + "'" + rest, Single, Some(w)) == Split(rest, Bare, Some(w + path))
    decreases |path|
  {
    hide Split;
    if path == "" {
      assert Escape(path) + "'" + rest == "'" + rest && w + path == w;
      SplitClose(rest, Some(w));
    } else {
      var tail := Escape(path[1..]) + "'" + rest;
      if path[0] == '\'' {
        assert Escape(path) + "'" + rest == "'\"'\"'" + tail;
        SplitQuotedQuote(tail, w);
        SplitEscaped(path[1..], rest, w + "'");
        assert w + "'" + path[1..] == w + path;
      } else {
        assert Escape(path) + "'" + rest == [path[0]] + tail;
        SplitLiteral(path[0], tail, w);
        SplitEscaped(path[1..], rest, w + [path[0]]);
        assert w + [path[0]] + path[1..] == w + path;
      }
    }
  }

  lemma SplitQuoted(path: string, rest: string)
    ensures Split(Quote(path) + rest, Bare, None) == Split(rest, Bare, Some(path))
  {
    var inner := Escape(path) + "'" + rest;
    assert Quote(path) + rest == "'" + inner && ("'" + inner)[1..] == inner;
    SplitEscaped(path, rest, "");
    assert "" + path == path;
  }

  lemma {:induction false} SplitPlain(text: string, rest: string, w: string)
    requires forall c | c in text :: IsPlain(c)
    ensures text != "" || w != "" ==>
      Split(text + rest, Bare, if w == "" then None else Some(w)) == Split(rest, Bare, Some(w + text))
    decreases |text|
  {
    if text == "" {
      assert text + rest == rest && w + text == w;
    } else {
      assert text[0] in text && (text + rest)[1..] == text[1..] + rest;
      assert Text(if w == "" then None else Some(w)) == w;
      SplitPlain(text[1..], rest, w + [text[0]]);
      assert w + [text[0]] + text[1..] == w + text;
    }
  }

  /** Plain words and quoted paths, one blank before each path. */
  function JoinPaths(paths: seq<string>): string {
    if paths == [] then "" else " " + Quote(paths[0]) + JoinPaths(paths[1..])
  }

  lemma JoinNothing()
    ensures JoinPaths([]) == ""
  {
  }

  lemma {:induction false} SplitPaths(paths: seq<string>, word: Option<string>)
    ensures Split(JoinPaths(paths), Bare, word) == Before(word, Some(paths))
    decreases |paths|
  {
    if paths != [] {
      var tail := JoinPaths(paths[1..]);
      var quoted := Quote(paths[0]) + tail;
      assert JoinPaths(paths) == " " + quoted && (" " + quoted)[1..] == quoted;
      SplitQuoted(paths[0], tail);
      SplitPaths(paths[1..], Some(paths[0]));
      assert [paths[0]] + paths[1..] == paths;
    }
  }

  /** Words separated by single blanks. */
  function JoinWords(words: seq<string>): string {
    if words == [] then "" else if |words| == 1 then words[0] else words[0] + " " + JoinWords(words[1..])
  }

  predicate PlainWords(words: seq<string>) {
    forall w | w in words :: w != "" && forall c | c in w :: IsPlain(c)
  }

  lemma BeforeSome(word: string, words: seq<string>)
    ensures Before(Some(word), Some(words)) == Some([word] + words)
  {
  }

  lemma SplitBlank(word: string, rest: string)
    ensures Split(" " + rest, Bare, Some(word)) == Before(Some(word), Split(rest, Bare, None))
  {
    assert (" " + rest)[1..] == rest;
  }

  lemma JoinFirst(words: seq<string>)
    requires words != []
    ensures JoinWords(words) == if |words| == 1 then words[0] else words[0] + (" " + JoinWords(words[1..]))
  {
  }

  /** A plain word in front of a blank. */
  lemma SplitFirst(w: string, rest: string, words: seq<string>)
    requires w != "" && (forall c | c in w :: IsPlain(c)) && Split(rest, Bare, None) == Some(words)
    ensures Split(w + (" " + rest), Bare, None) == Some([w] + words)
  {
    SplitPlain(w, " " + rest, "");
    SplitBlank(w, rest);
    BeforeSome(w, words);
    hide Split, Before, IsPlain;
    assert "" + w == w;
  }

  /** A plain word in front of the paths. */
  lemma SplitLast(w: string, paths: seq<string>)
    requires w != "" && forall c | c in w :: IsPlain(c)
    ensures Split(w + JoinPaths(paths), Bare, None) == Some([w] + paths)
  {
    SplitPlain(w, JoinPaths(paths), "");
    SplitPaths(paths, Some(w));
    BeforeSome(w, paths);
    hide Split, Before, IsPlain, JoinPaths;
    assert "" + w == w;
  }

  lemma {:induction false} SplitCommand(words: seq<string>, paths: seq<string>)
    requires PlainWords(words) && words != []
    ensures Split(JoinWords(words) + JoinPaths(paths), Bare, None) == Some(words + paths)
    decreases |words|
  {
    JoinFirst(words);
    hide Split, IsPlain, JoinWords, JoinPaths;
    var w := words[0];
    assert w in words;
    if |words| == 1 {
      SplitLast(w, paths);
      assert words == [w];
    } else {
      assert forall x | x in words[1..] :: x in words;
      SplitCommand(words[1..], paths);
      var tail := JoinWords(words[1..]) + JoinPaths(paths);
      SplitFirst(w, tail, words[1..] + paths);
      Associate(w, JoinWords(words[1..]), JoinPaths(paths));
      assert [w] + (words[1..] + paths) == words + paths;
    }
  }

  lemma Associate(w: string, a: string, b: string)
    ensures w + (" " + a) + b == w + (" " + (a + b))
  {
  }
}
