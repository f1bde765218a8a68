/**
 The files that `harnez issues mv` and `harnez index --check` work on: file operations, the
 reference edits (internal/issues/references.go) and the generated index files with their snapshot
 (internal/index/index.go, internal/issues/maintenance/rebase.go).

 Every file operation may fail.  A write that fails leaves the file as it was or with arbitrary
 content.  What the code computes from texts alone (the header line, the references, the rendered
 indexes) enters as functions in `Rules`.
 */
module TicketDisk {
  import opened TicketFiles

  datatype Indexes = Indexes(readme: string, backlog: string, closed: string)

  datatype Rules = Rules(
    header: (string, string) -> Option<string>,        // rewrite the number in the header line
    references: (string, Path, Path) -> string,        // rewrite references to a moved file
    scanned: (Path, string) -> bool,                   // whether references in this file are looked for
    render: map<Path, string> -> Option<Indexes>,      // the generated indexes; None: refused
    renderDocs: map<Path, string> -> Option<string>)

  const DOCS := Path(Elsewhere("docs"), "README.md")
  const DEFAULT_README := "# Issues\n\n| # | File | Title | Status |\n|---|------|-------|--------|\n"

  function Lookup(files: map<Path, string>, p: Path): Option<string> {
    if p in files then Some(files[p]) else None
  }

  predicate SameBut(a: map<Path, string>, b: map<Path, string>, paths: set<Path>) {
    a - paths == b - paths
  }

  lemma SameButAt(a: map<Path, string>, b: map<Path, string>, paths: set<Path>, p: Path)
    requires SameBut(a, b, paths) && p !in paths
    ensures Lookup(a, p) == Lookup(b, p)
  {
    assert (p in a - paths) == (p in b - paths);
    if p in a {
      assert (a - paths)[p] == (b - paths)[p];
    }
  }

  lemma SameButFromLookups(a: map<Path, string>, b: map<Path, string>, paths: set<Path>)
    requires forall p | p !in paths :: Lookup(a, p) == Lookup(b, p)
    ensures SameBut(a, b, paths)
  {
    forall p
      ensures p in a - paths <==> p in b - paths
      ensures p in a - paths ==> (a - paths)[p] == (b - paths)[p]
    {
      if p !in paths {
        assert Lookup(a, p) == Lookup(b, p);
      }
    }
  }

  // ----- Reference edits

  datatype Edit = Edit(path: Path, before: string, after: string)

  function PathsOf(edits: seq<Edit>): set<Path> {
    set e | e in edits :: e.path
  }

  function Data(e: Edit, restore: bool): string {
    if restore then e.before else e.after
  }

  function Written(files: map<Path, string>, edits: seq<Edit>, restore: bool): map<Path, string> {
    if edits == [] then files
    else
      var e := edits[|edits| - 1];
      Written(files, edits[..|edits| - 1], restore)[e.path := Data(e, restore)]
  }

  function RewrittenText(rules: Rules, p: Path, text: string, from: Path, to: Path): string {
    if rules.scanned(p, text) then rules.references(text, from, to) else text
  }

  /** The edits of every file but the moved one whose text mentions it. */
  ghost predicate Planned(edits: seq<Edit>, files: map<Path, string>, rules: Rules, from: Path, to: Path) {
    && (forall i, j | 0 <= i < j < |edits| :: edits[i].path != edits[j].path)
    && (forall e | e in edits :: e.path in files && e.path != from && e.before == files[e.path]
                                 && e.after == RewrittenText(rules, e.path, e.before, from, to))
    && (forall p | p in files && p != from && RewrittenText(rules, p, files[p], from, to) != files[p] ::
        p in PathsOf(edits))
  }

  lemma {:induction false} WrittenElsewhere(files: map<Path, string>, edits: seq<Edit>, restore: bool, p: Path)
    requires p !in PathsOf(edits)
    ensures Lookup(Written(files, edits, restore), p) == Lookup(files, p)
  {
    if edits != [] {
      var front := edits[..|edits| - 1];
      assert edits[|edits| - 1] in edits;
      assert forall e | e in front :: e in edits;
      WrittenElsewhere(files, front, restore, p);
    }
  }

  lemma {:induction false} WrittenThere(files: map<Path, string>, edits: seq<Edit>, restore: bool, i: nat)
    requires i < |edits| && forall i, j | 0 <= i < j < |edits| :: edits[i].path != edits[j].path
    ensures Lookup(Written(files, edits, restore), edits[i].path) == Some(Data(edits[i], restore))
  {
    if i < |edits| - 1 {
      WrittenThere(files, edits[..|edits| - 1], restore, i);
    }
  }

  /** Writing the old texts back leaves no trace of an interrupted rewrite. */
  lemma RestoreUndoes(now: map<Path, string>, orig: map<Path, string>, edits: seq<Edit>, rules: Rules, from: Path,
                      to: Path, more: set<Path>)
    requires Planned(edits, orig, rules, from, to) && SameBut(now, orig, PathsOf(edits) + more)
    ensures SameBut(Written(now, edits, true), orig, more - PathsOf(edits))
  {
    var back := Written(now, edits, true);
    forall p | p !in more - PathsOf(edits)
      ensures Lookup(back, p) == Lookup(orig, p)
    {
      if p in PathsOf(edits) {
        var i :| 0 <= i < |edits| && edits[i].path == p;
        WrittenThere(now, edits, true, i);
      } else {
        WrittenElsewhere(now, edits, true, p);
        SameButAt(now, orig, PathsOf(edits) + more, p);
      }
    }
    SameButFromLookups(back, orig, more - PathsOf(edits));
  }

  // ----- What a move is for

  /** The files after a move, before the indexes are regenerated. */
  function Renumbered(files: map<Path, string>, rules: Rules, from: Path, to: Path, content: string)
    : map<Path, string> {
    map p | p in files.Keys - {from} + {to} ::
      if p == to then content else RewrittenText(rules, p, files[p], from, to)
  }

  lemma RewriteRenumbers(files: map<Path, string>, rules: Rules, from: Path, to: Path, content: string,
                         edits: seq<Edit>)
    requires Planned(edits, files, rules, from, to) && to !in files
    ensures Written((files - {from})[to := content], edits, false) == Renumbered(files, rules, from, to, content)
  {
    var start := (files - {from})[to := content];
    var result := Written(start, edits, false);
    var wanted := Renumbered(files, rules, from, to, content);
    forall p
      ensures Lookup(result, p) == Lookup(wanted, p)
    {
      if p in PathsOf(edits) {
        var i :| 0 <= i < |edits| && edits[i].path == p;
        assert edits[i] in edits;
        WrittenThere(start, edits, false, i);
      } else {
        WrittenElsewhere(start, edits, false, p);
      }
    }
    SameButFromLookups(result, wanted, {});
    assert result - {} == result && wanted - {} == wanted;
  }

  function TextOr(files: map<Path, string>, p: Path, default: string): string {
    if p in files then files[p] else default
  }

  function PutIf(files: map<Path, string>, p: Path, text: string, write: bool): map<Path, string> {
    if write then files[p := text] else files
  }

  /** The index files after a regeneration; a file whose text would not change is left alone. */
  function Regenerated(files: map<Path, string>, r: Indexes): map<Path, string> {
    PutIf(PutIf(PutIf(files, README, r.readme, TextOr(files, README, DEFAULT_README) != r.readme),
                BACKLOG, r.backlog, TextOr(files, BACKLOG, "") != r.backlog),
          CLOSED, r.closed, TextOr(files, CLOSED, "") != r.closed)
  }

  type Snapshot = map<Path, Option<string>>

  ghost predicate SnapshotOf(snapshot: Snapshot, files: map<Path, string>) {
    snapshot.Keys == INDEXES && forall p | p in INDEXES :: snapshot[p] == Lookup(files, p)
  }

  datatype ReadResult = Text(text: string) | Missing | ReadError
  datatype RemoveResult = Removed | NotThere | RemoveError
  datatype CreateResult = Created | Exists | CreateError

  class Disk {
    var files: map<Path, string>
    const rules: Rules

    constructor (files: map<Path, string>, rules: Rules)
      ensures this.files == files && this.rules == rules
    {
      this.files, this.rules := files, rules;
    }

    method ReadFile(p: Path) returns (r: ReadResult)
      ensures r.Text? ==> Lookup(files, p) == Some(r.text)
      ensures r.Missing? ==> p !in files
    {
      if * {
        r := ReadError;
      } else {
        r := if p in files then Text(files[p]) else Missing;
      }
    }

    method WriteFile(p: Path, text: string) returns (ok: bool)
      modifies this`files
      ensures ok ==> files == old(files)[p := text]
      ensures !ok ==> files == old(files) || files.Keys == old(files).Keys + {p}
      ensures SameBut(files, old(files), {p})
    {
      ok := *;
      if ok {
        files := files[p := text];
      } else if * {
        var junk: string := *;
        files := files[p := junk];
      }
    }

    method Remove(p: Path) returns (r: RemoveResult)
      modifies this`files
      ensures files == if r.Removed? then old(files) - {p} else old(files)
      ensures r.Removed? ==> p in old(files)
      ensures r.NotThere? ==> p !in old(files)
    {
      if * {
        r := RemoveError;
      } else if p in files {
        r, files := Removed, files - {p};
      } else {
        r := NotThere;
      }
    }

    /** Opens with O_CREATE and O_EXCL. */
    method CreateExclusive(p: Path) returns (r: CreateResult)
      modifies this`files
      ensures r.Created? ==> p !in old(files) && files == old(files)[p := ""]
      ensures !r.Created? ==> files == old(files)
    {
      if p in files {
        r := Exists;
      } else if * {
        r := CreateError;
      } else {
        r, files := Created, files[p := ""];
      }
    }

    method PlanReferences(from: Path, to: Path) returns (edits: Option<seq<Edit>>)
      ensures edits.Some? ==> Planned(edits.value, files, rules, from, to)
    {
      var plan: seq<Edit> := [];
      var pending := files.Keys - {from};
      while pending != {}
        invariant pending <= files.Keys - {from}
        invariant PathsOf(plan) <= files.Keys - {from} - pending
        invariant forall i, j | 0 <= i < j < |plan| :: plan[i].path != plan[j].path
        invariant forall e | e in plan :: e.path in files && e.path != from && e.before == files[e.path]
                                          && e.after == RewrittenText(rules, e.path, e.before, from, to)
        invariant forall p | p in files && p != from && p !in pending
                             && RewrittenText(rules, p, files[p], from, to) != files[p] :: p in PathsOf(plan)
      {
        var p :| p in pending;
        var before := ReadFile(p);
        if !before.Text? {
          return None;
        }
        var after := RewrittenText(rules, p, before.text, from, to);
        if after != before.text {
          PathsOfMore(plan, Edit(p, before.text, after));
          plan := plan + [Edit(p, before.text, after)];
        }
        pending := pending - {p};
      }
      return Some(plan);
    }

    method WriteReferences(edits: seq<Edit>, restore: bool) returns (ok: bool)
      modifies this`files
      ensures ok ==> files == Written(old(files), edits, restore)
      ensures SameBut(files, old(files), PathsOf(edits))
    {
      var i := 0;
      while i < |edits|
        invariant 0 <= i <= |edits|
        invariant files == Written(old(files), edits[..i], restore)
        invariant SameBut(files, old(files), PathsOf(edits))
      {
        ghost var before := files;
        assert edits[i] in edits;
        ok := WriteFile(edits[i].path, Data(edits[i], restore));
        SameButMore(files, before, old(files), {edits[i].path}, PathsOf(edits));
        if !ok {
          return;
        }
        assert edits[..i + 1][..i] == edits[..i];
        i := i + 1;
      }
      assert edits[..i] == edits;
      return true;
    }

    /** `UpdateIssuesReadme`: the README, then the backlog, then the closed index. */
    method UpdateIndexes() returns (changed: Option<bool>)
      modifies this`files
      ensures SameBut(files, old(files), INDEXES)
      ensures changed.Some? ==>
        rules.render(old(files)).Some? && files == Regenerated(old(files), rules.render(old(files)).value)
      ensures changed.Some? ==> changed.value == (files != old(files))
    {
      var orig := ReadFile(README);
      if orig.ReadError? {
        return None;
      }
      var rendered := rules.render(files);
      if rendered.None? {
        return None;
      }
      var write := TextOr(files, README, DEFAULT_README) != rendered.value.readme;
      var any := write;
      var ok := WriteIf(README, rendered.value.readme, write);
      SameButMore(files, old(files), old(files), {README}, INDEXES);
      if !ok {
        return None;
      }
      ghost var one := files;
      IndexesDiffer();
      SameButAt(one, old(files), {README}, BACKLOG);
      var backlog := ReadFile(BACKLOG);
      if backlog.ReadError? {
        return None;
      }
      write := TextOr(files, BACKLOG, "") != rendered.value.backlog;
      any := any || write;
      ok := WriteIf(BACKLOG, rendered.value.backlog, write);
      SameButMore(files, one, old(files), {BACKLOG}, INDEXES);
      if !ok {
        return None;
      }
      ghost var two := files;
      SameButAt(one, old(files), {README}, CLOSED);
      SameButAt(two, one, {BACKLOG}, CLOSED);
      var closed := ReadFile(CLOSED);
      if closed.ReadError? {
        return None;
      }
      write := TextOr(files, CLOSED, "") != rendered.value.closed;
      any := any || write;
      ok := WriteIf(CLOSED, rendered.value.closed, write);
      SameButMore(files, two, old(files), {CLOSED}, INDEXES);
      if !ok {
        return None;
      }
      ChangedWhenWritten(old(files), rendered.value);
      return Some(any);
    }

    method SnapshotIndexes() returns (snapshot: Option<Snapshot>)
      ensures snapshot.Some? ==> SnapshotOf(snapshot.value, files)
    {
      IndexesDiffer();
      var readme := ReadFile(README);
      var backlog := ReadFile(BACKLOG);
      var closed := ReadFile(CLOSED);
      if readme.ReadError? || backlog.ReadError? || closed.ReadError? {
        return None;
      }
      return Some(map[README := Lookup(files, README), BACKLOG := Lookup(files, BACKLOG),
        CLOSED := Lookup(files, CLOSED)]);
    }

    /** Goes through the snapshot in the arbitrary order of a Go map and stops at the first error. */
    method RestoreIndexes(snapshot: Snapshot) returns (ok: bool)
      requires snapshot.Keys == INDEXES
      modifies this`files
      ensures ok ==> SnapshotOf(snapshot, files)
      ensures SameBut(files, old(files), INDEXES)
    {
      var pending := snapshot.Keys;
      while pending != {}
        invariant pending <= INDEXES
        invariant forall p | p in INDEXES && p !in pending :: snapshot[p] == Lookup(files, p)
        invariant SameBut(files, old(files), INDEXES)
      {
        ghost var before := files;
        var p :| p in pending;
        if snapshot[p].Some? {
          ok := WriteFile(p, snapshot[p].value);
        } else {
          var r := Remove(p);
          ok := !r.RemoveError?;
        }
        SameButMore(files, before, old(files), {p}, INDEXES);
        if !ok {
          return;
        }
        pending := pending - {p};
      }
      return true;
    }

    method WriteIf(p: Path, text: string, write: bool) returns (ok: bool)
      modifies this`files
      ensures ok ==> files == PutIf(old(files), p, text, write)
      ensures SameBut(files, old(files), {p})
    {
      ok := true;
      if write {
        ok := WriteFile(p, text);
      }
    }
  }

  lemma ChangedWhenWritten(files: map<Path, string>, r: Indexes)
    ensures Regenerated(files, r) != files
       <==> TextOr(files, README, DEFAULT_README) != r.readme || TextOr(files, BACKLOG, "") != r.backlog
            || TextOr(files, CLOSED, "") != r.closed
    ensures Lookup(Regenerated(files, r), README)
         == if TextOr(files, README, DEFAULT_README) != r.readme then Some(r.readme) else Lookup(files, README)
    ensures Lookup(Regenerated(files, r), BACKLOG)
         == if TextOr(files, BACKLOG, "") != r.backlog then Some(r.backlog) else Lookup(files, BACKLOG)
    ensures Lookup(Regenerated(files, r), CLOSED)
         == if TextOr(files, CLOSED, "") != r.closed then Some(r.closed) else Lookup(files, CLOSED)
  {
    IndexesDiffer();
    hide README, BACKLOG, CLOSED, DEFAULT_README;
    var after := Regenerated(files, r);
    if TextOr(files, README, DEFAULT_README) != r.readme {
      assert README in after && after[README] == r.readme;
    }
    if TextOr(files, BACKLOG, "") != r.backlog {
      assert BACKLOG in after && after[BACKLOG] == r.backlog;
    }
    if TextOr(files, CLOSED, "") != r.closed {
      assert CLOSED in after && after[CLOSED] == r.closed;
    }
  }

  lemma IndexesDiffer()
    ensures README != BACKLOG && README != CLOSED && BACKLOG != CLOSED
  {
    assert "README.md"[0] != "BACKLOG.md"[0] && "README.md"[0] != "CLOSED.md"[0] && "BACKLOG.md"[0] != "CLOSED.md"[0];
  }

  lemma PathsOfMore(edits: seq<Edit>, e: Edit)
    ensures PathsOf(edits + [e]) == PathsOf(edits) + {e.path}
  {
    forall p
      ensures p in PathsOf(edits + [e]) <==> p in PathsOf(edits) + {e.path}
    {
      if p in PathsOf(edits) {
        var x :| x in edits && x.path == p;
        assert x in edits + [e];
      }
      assert e in edits + [e];
    }
  }

  lemma SameButMore(a: map<Path, string>, b: map<Path, string>, c: map<Path, string>, p: set<Path>, q: set<Path>)
    requires SameBut(a, b, p) && SameBut(b, c, q) && p <= q
    ensures SameBut(a, c, q)
  {
    forall x | x !in q
      ensures Lookup(a, x) == Lookup(c, x)
    {
      SameButAt(a, b, p, x);
      SameButAt(b, c, q, x);
    }
    SameButFromLookups(a, c, q);
  }
}
