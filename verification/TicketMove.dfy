/**
 `harnez issues mv` (cmd/harnez/issues.go) and `harnez index --check` (cmd/harnez/index.go) as
 sequences of fallible file operations.
 */
module TicketMove {
  import opened Decimal
  import opened TicketFiles
  import opened TicketDisk

  datatype Query = ByNumber(number: string) | ByName(text: string)

  /** The new number: none given, or the integer that was given if it was one. */
  datatype Request = NextFree | Asked(n: Option<int>)

  datatype Reason = NotFound | Ambiguous | GitHubId
    | NoScan | NoClaims | BadNumber | Unreadable | Taken | NoHeader | NoPlan
                  | NotGuarded | DestinationExists | NoSnapshot

  datatype Stage = CheckWrite | CheckUpdate | Create | Write | Close | RemoveOld | References | Update | Commit

  datatype Outcome =
    | Refused(reason: Reason)
    | Noop
    | Checked(readmeUpdated: bool)
    | Moved(readmeUpdated: bool)
    | Failed(stage: Stage)

  function RelPath(p: Path): string {
    if p.folder.Archive? then "archive/" + p.base else p.base
  }

  predicate Matches(p: Path, query: Query)
    requires IsTicket(p)
  {
    match query
    case ByNumber(number) => Number(p) == number
    case ByName(text) => RelPath(p) == text || p.base == text || p.base == text + ".md"
  }

  /** A number names the tickets of that number; a name is a file name with or without `.md`, or the path of an
      archived ticket. */
  lemma MatchesUnfolds(p: Path, query: Query)
    requires IsTicket(p)
    ensures Matches(p, query) <==>
      match query
      case ByNumber(number) => Number(p) == number
      case ByName(text) =>
        p.base == text || p.base == text + ".md" || (p.folder.Archive? && "archive/" + p.base == text)
  {
  }

  /** Walks the two ticket directories; a file that cannot be read fails the scan. */
  method Scan(disk: Disk) returns (tickets: Option<seq<Path>>)
    ensures tickets.Some? ==> forall p :: p in tickets.value <==> p in TicketsIn(disk.files.Keys)
    ensures tickets.Some? ==> forall i, j | 0 <= i < j < |tickets.value| :: tickets.value[i] != tickets.value[j]
  {
    hide IsTicket;
    var found: seq<Path> := [];
    var pending := disk.files.Keys;
    while pending != {}
      invariant pending <= disk.files.Keys
      invariant forall p :: p in found <==> p in TicketsIn(disk.files.Keys - pending)
      invariant forall i, j | 0 <= i < j < |found| :: found[i] != found[j]
    {
      var p :| p in pending;
      assert p !in TicketsIn(disk.files.Keys - pending);
      if IsTicket(p) {
        var text := disk.ReadFile(p);
        if !text.Text? {
          return None;
        }
        found := found + [p];
      }
      pending := pending - {p};
    }
    return Some(found);
  }

  /** Finds the one ticket that a query names. */
  method FindTicket(disk: Disk, query: Query) returns (r: Option<Path>, reason: Reason)
    ensures r.Some? ==> r.value in TicketsIn(disk.files.Keys) && Matches(r.value, query)
    ensures r.Some? ==> forall p | p in TicketsIn(disk.files.Keys) && Matches(p, query) :: p == r.value
    ensures r.None? ==> reason in {NoScan, NotFound, Ambiguous}
    ensures r.None? && reason.NotFound? ==> forall p | p in TicketsIn(disk.files.Keys) :: !Matches(p, query)
    ensures r.None? && reason.Ambiguous? ==>
              exists p, q | p in TicketsIn(disk.files.Keys) && q in TicketsIn(disk.files.Keys) && p != q ::
                Matches(p, query) && Matches(q, query)
  {
    hide IsTicket, Matches;
    reason := NoScan;
    var tickets := Scan(disk);
    if tickets.None? {
      return None, reason;
    }
    var matches: seq<Path> := [];
    for i := 0 to |tickets.value|
      invariant forall p | p in matches :: p in TicketsIn(disk.files.Keys) && Matches(p, query)
      invariant forall j | 0 <= j < i :: tickets.value[j] in TicketsIn(disk.files.Keys)
                                          && (Matches(tickets.value[j], query) ==> tickets.value[j] in matches)
      invariant forall p | p in matches :: p in tickets.value[..i]
      invariant forall j, k | 0 <= j < k < |matches| :: matches[j] != matches[k]
    {
      var p := tickets.value[i];
      assert p in tickets.value;
      var matched := match query
        case ByNumber(number) => Number(p) == number
        case ByName(text) =>
          || (if p.folder.Archive? then "archive/" + p.base == text else p.base == text)
          || p.base == text || p.base == text + ".md";
      MatchesUnfolds(p, query);
      if matched {
        assert p !in tickets.value[..i];
        matches := matches + [p];
      }
    }
    forall p | p in TicketsIn(disk.files.Keys) && Matches(p, query)
      ensures p in matches
    {
      assert p in tickets.value;
    }
    if |matches| == 1 {
      return Some(matches[0]), reason;
    }
    if matches == [] {
      return None, NotFound;
    }
    assert matches[0] in matches && matches[1] in matches && matches[0] != matches[1];
    return None, Ambiguous;
  }

  // ----- Planning

  datatype Plan = Plan(from: Path, to: Path, number: string, content: string, newContent: string, edits: seq<Edit>)
  datatype Planning = Ready(plan: Plan) | Unplanned(outcome: Outcome)

  /** What a plan promises about the files it was made from and the numbers claimed elsewhere. */
  ghost predicate GoodPlan(plan: Plan, files: map<Path, string>, rules: Rules, claims: set<Path>) {
    && plan.from in TicketsIn(files.Keys) && IsLocal(Number(plan.from)) && plan.number != Number(plan.from)
    && plan.number != [] && (IsLocal(plan.number) || plan.number[0] == '-')
    && (forall p | p in TicketsIn(files.Keys + claims) :: Number(p) != plan.number)
    && plan.to == Target(plan.from, plan.number) && plan.content == files[plan.from]
    && rules.header(plan.content, plan.number).Some?
    && plan.newContent == rules.references(rules.header(plan.content, plan.number).value, plan.from, plan.to)
    && Planned(plan.edits, files, rules, plan.from, plan.to)
  }

  /** The requested number, or the successor of the largest one taken. */
  method NewNumber(request: Request, taken: seq<Path>) returns (number: Option<string>)
    requires forall p | p in taken :: IsTicket(p)
    ensures number.None? <==> request.Asked? && (request.n.None? || request.n.value < 0)
    ensures number.Some? && request.Asked? ==> number.value == Pad3(request.n.value)
    ensures number.Some? && request.NextFree? ==> number.value == NextNumber(taken)
    ensures number.Some? ==> number.value != [] && (IsLocal(number.value) || number.value[0] == '-')
    ensures number.Some? && request.NextFree? && IsLocal(number.value) ==>
              forall p | p in taken :: AtoiOf(Number(p)) != AtoiOf(number.value)
  {
    match request
    case NextFree =>
      if MaxNumber(taken) < MAX_INT64 {
        NextNumberIsFree(taken);
      }
      return Some(NextNumber(taken));
    case Asked(n) =>
      if n.None? || n.value < 0 {
        return None;
      }
      ValueOfPad3(n.value);
      return Some(Pad3(n.value));
  }

  /** The plan is for the ticket and the number that were asked for. */
  ghost predicate Asks(plan: Plan, query: Query, request: Request, taken: set<Path>) {
    && IsTicket(plan.from) && Matches(plan.from, query)
    && (request.Asked? ==> request.n.Some? && request.n.value >= 0 && plan.number == Pad3(request.n.value))
    && (request.NextFree? && IsLocal(plan.number) ==>
          forall p | p in TicketsIn(taken) :: AtoiOf(Number(p)) != AtoiOf(plan.number))
  }

  method PlanMove(disk: Disk, query: Query, request: Request, claims: Option<seq<Path>>) returns (r: Planning)
    requires claims.Some? ==> forall p | p in claims.value :: IsTicket(p)
    ensures r.Ready? ==> claims.Some? && GoodPlan(r.plan, disk.files, disk.rules, set p | p in claims.value)
    ensures r.Ready? ==> Asks(r.plan, query, request, disk.files.Keys + set p | p in claims.value)
    ensures r.Unplanned? ==> r.outcome.Refused? || r.outcome.Noop?
    ensures r == Unplanned(Refused(Taken)) && request.Asked? ==>
              request.n.Some? && request.n.value >= 0 && claims.Some?
              && exists p | p in TicketsIn(disk.files.Keys + set q | q in claims.value) ::
                 Number(p) == Pad3(request.n.value)
    ensures r == Unplanned(Noop) && request.Asked? ==>
              request.n.Some? && request.n.value >= 0
              && exists p | p in TicketsIn(disk.files.Keys) && Matches(p, query) :: Number(p) == Pad3(request.n.value)
  {
    hide IsTicket, Matches, NextNumber, Target, IsLocal, Planned, AtoiOf;
    var f, reason := FindTicket(disk, query);
    if f.None? {
      return Unplanned(Refused(reason));
    }
    var from := f.value;
    if HasPrefix(Number(from), "GH") {
      return Unplanned(Refused(GitHubId));
    }
    LocalOrGitHub(from);
    var tickets := Scan(disk);
    if tickets.None? {
      return Unplanned(Refused(NoScan));
    }
    if claims.None? {
      return Unplanned(Refused(NoClaims));
    }
    var taken := tickets.value + claims.value;
    TakenAreTickets(disk.files.Keys, tickets.value, claims.value);
    var number := NewNumber(request, taken);
    if number.None? {
      return Unplanned(Refused(BadNumber));
    }
    var content := disk.ReadFile(from);
    if !content.Text? {
      return Unplanned(Refused(Unreadable));
    }
    if Number(from) == number.value {
      return Unplanned(Noop);
    }
    if exists p :: p in taken && Number(p) == number.value && p != from {
      return Unplanned(Refused(Taken));
    }
    var to := Target(from, number.value);
    var header := disk.rules.header(content.text, number.value);
    if header.None? {
      return Unplanned(Refused(NoHeader));
    }
    var edits := disk.PlanReferences(from, to);
    if edits.None? {
      return Unplanned(Refused(NoPlan));
    }
    var newContent := disk.rules.references(header.value, from, to);
    return Ready(Plan(from, to, number.value, content.text, newContent, edits.value));
  }

  lemma LocalOrGitHub(p: Path)
    requires IsTicket(p)
    ensures IsLocal(Number(p)) <==> !HasPrefix(Number(p), "GH")
  {
    var k := DigitRun(p.base);
    if k >= 3 && IsSlug(p.base[k..]) {
      assert IsDigit(p.base[..k][0]);
    } else {
      assert Number(p)[..2] == "GH";
    }
  }

  lemma TakenAreTickets(paths: set<Path>, tickets: seq<Path>, claims: seq<Path>)
    requires forall p :: p in tickets <==> p in TicketsIn(paths)
    requires forall p | p in claims :: IsTicket(p)
    ensures forall p | p in tickets + claims :: IsTicket(p)
    ensures forall p :: p in tickets + claims <==> p in TicketsIn(paths + set q | q in claims)
  {
    hide IsTicket;
  }

  // ----- Checking and applying a plan

  /** Deletes the new file and puts everything else back; errors are ignored by the caller. */
  method Rollback(disk: Disk, plan: Plan, ghost orig: map<Path, string>, ghost more: set<Path>) returns (restored: bool)
    requires Planned(plan.edits, orig, disk.rules, plan.from, plan.to)
    requires plan.from in orig && orig[plan.from] == plan.content && plan.to !in orig
    requires plan.from !in more && plan.to !in more
    requires SameBut(disk.files, orig, PathsOf(plan.edits) + (more + {plan.from, plan.to}))
    modifies disk`files
    ensures restored ==> SameBut(disk.files, orig, more - PathsOf(plan.edits))
  {
    hide Planned, SameBut;
    ghost var now := disk.files;
    var references := disk.WriteReferences(plan.edits, true);
    if references {
      RestoreUndoes(now, orig, plan.edits, disk.rules, plan.from, plan.to, more + {plan.from, plan.to});
    }
    ghost var then_ := disk.files;
    var written := disk.WriteFile(plan.from, plan.content);
    ghost var after := disk.files;
    var removed := disk.Remove(plan.to);
    restored := references && written && !removed.RemoveError?;
    if restored {
      forall p | p !in more - PathsOf(plan.edits)
        ensures Lookup(disk.files, p) == Lookup(orig, p)
      {
        if p != plan.from && p != plan.to {
          SameButAt(then_, orig, (more + {plan.from, plan.to}) - PathsOf(plan.edits), p);
        }
      }
      SameButFromLookups(disk.files, orig, more - PathsOf(plan.edits));
    }
  }

  /** `--check`: simulate, regenerate the indexes, restore. */
  method CheckMove(disk: Disk, plan: Plan, ghost claims: set<Path>) returns (outcome: Outcome, restored: bool)
    requires GoodPlan(plan, disk.files, disk.rules, claims)
    modifies disk`files
    ensures outcome.Refused? ==> disk.files == old(disk.files)
    ensures outcome == Failed(CheckWrite) ==> SameBut(disk.files, old(disk.files), {plan.to})
    ensures !outcome.Refused? && outcome != Failed(CheckWrite) && restored ==> disk.files == old(disk.files) - {plan.to}
    ensures outcome.Refused? || outcome.Checked? || outcome in {Failed(CheckWrite), Failed(CheckUpdate)}
  {
    ghost var orig := disk.files;
    PlanTarget(plan, disk.files, disk.rules, claims);
    hide SameBut, IsTicket, Planned, GoodPlan, INDEXES;
    var stat := disk.ReadFile(plan.to);
    if stat.Text? {
      return Refused(DestinationExists), true;
    }
    var snapshot := disk.SnapshotIndexes();
    if snapshot.None? {
      return Refused(NoSnapshot), true;
    }
    var written := disk.WriteFile(plan.to, plan.newContent);
    if !written {
      return Failed(CheckWrite), true;
    }
    var removed := disk.Remove(plan.from);
    ghost var before := disk.files;
    var update := disk.UpdateIndexes();
    ghost var after := disk.files;
    var old_ := disk.WriteFile(plan.from, plan.content);
    var gone := disk.Remove(plan.to);
    ghost var last := disk.files;
    SnapshotCovers(snapshot.value, orig);
    var indexes := disk.RestoreIndexes(snapshot.value);
    restored := old_ && !gone.RemoveError? && indexes;
    if restored {
      CheckRestores(plan, orig, before, after, last, disk.files, snapshot.value);
    }
    outcome := if update.None? then Failed(CheckUpdate) else Checked(update.value);
  }

  /** Simulation and restoration: `before` the indexes were regenerated, `after` it, `last` when the
      two ticket files were put back, and `final`. */
  lemma CheckRestores(plan: Plan, orig: map<Path, string>, before: map<Path, string>, after: map<Path, string>,
                      last: map<Path, string>, final: map<Path, string>, snapshot: Snapshot)
    requires plan.from in orig && orig[plan.from] == plan.content
    requires plan.from !in INDEXES && plan.to !in INDEXES && plan.to != plan.from
    requires before - {plan.from, plan.to} == orig - {plan.from, plan.to}
    requires SameBut(after, before, INDEXES) && last == after[plan.from := plan.content] - {plan.to}
    requires SnapshotOf(snapshot, orig) && SnapshotOf(snapshot, final) && SameBut(final, last, INDEXES)
    ensures final == orig - {plan.to}
  {
    assert SameBut(before, orig, {plan.from, plan.to});
    hide SameBut, SnapshotOf, INDEXES;
    forall p
      ensures Lookup(final, p) == Lookup(orig - {plan.to}, p)
    {
      if p in INDEXES {
        SnapshotAt(snapshot, orig, p);
        SnapshotAt(snapshot, final, p);
      } else {
        SameButAt(final, last, INDEXES, p);
        SameButAt(after, before, INDEXES, p);
        if p != plan.from && p != plan.to {
          SameButAt(before, orig, {plan.from, plan.to}, p);
        }
      }
    }
    SameLookups(final, orig - {plan.to});
  }

  lemma PlanTarget(plan: Plan, files: map<Path, string>, rules: Rules, claims: set<Path>)
    requires GoodPlan(plan, files, rules, claims)
    ensures plan.from in files && files[plan.from] == plan.content && plan.from !in INDEXES
    ensures plan.to !in INDEXES && plan.to != plan.from
    ensures Planned(plan.edits, files, rules, plan.from, plan.to)
  {
    IndexesAreNoTickets();
    TargetNumber(plan.from, plan.number);
    SlugOf(plan.from, plan.number);
  }

  lemma SnapshotCovers(snapshot: Snapshot, files: map<Path, string>)
    requires SnapshotOf(snapshot, files)
    ensures snapshot.Keys == INDEXES
  {
  }

  lemma SnapshotAt(snapshot: Snapshot, files: map<Path, string>, p: Path)
    requires SnapshotOf(snapshot, files) && p in INDEXES
    ensures p in snapshot && snapshot[p] == Lookup(files, p)
  {
  }

  lemma SameLookups(a: map<Path, string>, b: map<Path, string>)
    requires forall p :: Lookup(a, p) == Lookup(b, p)
    ensures a == b
  {
    SameButFromLookups(a, b, {});
    assert a - {} == a && b - {} == b;
  }

  lemma SameButOne(a: map<Path, string>, b: map<Path, string>, orig: map<Path, string>, p: Path)
    requires SameBut(a, b, {p}) && b == orig[p := ""] && p !in orig
    ensures a - {p} == orig
  {
    assert b - {p} == orig;
  }

  /** Deletes the claimed file. */
  method Unclaim(disk: Disk, to: Path, ghost orig: map<Path, string>) returns (restored: bool)
    requires disk.files - {to} == orig && to !in orig
    modifies disk`files
    ensures restored ==> disk.files == orig
  {
    var removed := disk.Remove(to);
    restored := !removed.RemoveError?;
    assert to !in disk.files ==> disk.files - {to} == disk.files;
  }

  ghost predicate Done(files: map<Path, string>, plan: Plan, orig: map<Path, string>, rules: Rules) {
    var moved := Renumbered(orig, rules, plan.from, plan.to, plan.newContent);
    rules.render(moved).Some? && files == Regenerated(moved, rules.render(moved).value)
  }

  method RewriteAndIndex(disk: Disk, plan: Plan, ghost orig: map<Path, string>, commit: bool)
    returns (outcome: Outcome, restored: bool)
    requires Planned(plan.edits, orig, disk.rules, plan.from, plan.to)
    requires plan.from in orig && orig[plan.from] == plan.content && plan.to !in orig
    requires plan.from !in INDEXES && plan.to !in INDEXES && plan.to != plan.from
    requires disk.files == (orig - {plan.from})[plan.to := plan.newContent]
    modifies disk`files
    ensures outcome == Failed(References) && restored ==> disk.files == orig
    ensures outcome == Failed(Update) && restored ==> SameBut(disk.files, orig, INDEXES - PathsOf(plan.edits))
    ensures outcome.Moved? || outcome == Failed(Commit) ==> Done(disk.files, plan, orig, disk.rules)
    ensures outcome.Moved? ==>
              outcome.readmeUpdated == (disk.files != Renumbered(orig, disk.rules, plan.from, plan.to, plan.newContent))
    ensures outcome.Moved?
      || (outcome.Failed? && (outcome.stage.References? || outcome.stage.Update? || outcome.stage.Commit?))
  {
    hide SameBut, Planned, INDEXES, Regenerated, Renumbered, PathsOf, Done;
    ghost var start := disk.files;
    MovedFiles(start, orig, plan);
    var references := disk.WriteReferences(plan.edits, false);
    ghost var written := disk.files;
    SameButJoin(written, start, orig, PathsOf(plan.edits), {plan.from, plan.to},
                PathsOf(plan.edits) + ({} + {plan.from, plan.to}));
    if !references {
      restored := Rollback(disk, plan, orig, {});
      if restored {
        NothingLeft(disk.files, orig, {} - PathsOf(plan.edits));
      }
      return Failed(References), restored;
    }
    RewriteRenumbers(orig, disk.rules, plan.from, plan.to, plan.newContent, plan.edits);
    ghost var moved := disk.files;
    var update := disk.UpdateIndexes();
    if update.None? {
      SameButJoin(disk.files, moved, orig, INDEXES, PathsOf(plan.edits) + ({} + {plan.from, plan.to}),
                  PathsOf(plan.edits) + (INDEXES + {plan.from, plan.to}));
      restored := Rollback(disk, plan, orig, INDEXES);
      return Failed(Update), restored;
    }
    WhenDone(disk.files, plan, orig, disk.rules);
    var committed: bool := *;
    if commit && !committed {
      return Failed(Commit), true;
    }
    return Moved(update.value), true;
  }

  lemma WhenDone(files: map<Path, string>, plan: Plan, orig: map<Path, string>, rules: Rules)
    requires var moved := Renumbered(orig, rules, plan.from, plan.to, plan.newContent);
             rules.render(moved).Some? && files == Regenerated(moved, rules.render(moved).value)
    ensures Done(files, plan, orig, rules)
  {
    hide Renumbered, Regenerated;
  }

  lemma MovedFiles(start: map<Path, string>, orig: map<Path, string>, plan: Plan)
    requires start == (orig - {plan.from})[plan.to := plan.newContent] && plan.to !in orig
    ensures SameBut(start, orig, {plan.from, plan.to})
  {
  }

  lemma NothingLeft(a: map<Path, string>, b: map<Path, string>, none: set<Path>)
    requires SameBut(a, b, none) && none == {}
    ensures a == b
  {
    assert a - {} == a && b - {} == b;
  }

  lemma SameButJoin(a: map<Path, string>, b: map<Path, string>, c: map<Path, string>, p: set<Path>, q: set<Path>,
                    r: set<Path>)
    requires SameBut(a, b, p) && SameBut(b, c, q) && p <= r && q <= r
    ensures SameBut(a, c, r)
  {
    forall x | x !in r
      ensures Lookup(a, x) == Lookup(c, x)
    {
      SameButAt(a, b, p, x);
      SameButAt(b, c, q, x);
    }
    SameButFromLookups(a, c, r);
  }

  /** The move itself: claim the new name, write it, remove the old file, rewrite the references,
      regenerate the indexes, commit; each failure before the commit rolls back. */
  method ApplyMove(disk: Disk, plan: Plan, commit: bool, ghost claims: set<Path>)
    returns (outcome: Outcome, restored: bool)
    requires GoodPlan(plan, disk.files, disk.rules, claims)
    modifies disk`files
    ensures outcome.Refused? ==> disk.files == old(disk.files)
    ensures outcome.Failed? && outcome.stage != Commit && outcome.stage != Update && restored ==>
      disk.files == old(disk.files)
    ensures outcome == Failed(Update) && restored ==>
      SameBut(disk.files, old(disk.files), INDEXES - PathsOf(plan.edits))
    ensures outcome.Moved? || outcome == Failed(Commit) ==>
              plan.to !in old(disk.files) && Done(disk.files, plan, old(disk.files), disk.rules)
    ensures outcome.Moved? ==>
              outcome.readmeUpdated
              == (disk.files != Renumbered(old(disk.files), disk.rules, plan.from, plan.to, plan.newContent))
    ensures outcome.Refused? || outcome.Moved?
      || (outcome.Failed? && !outcome.stage.CheckWrite? && !outcome.stage.CheckUpdate?)
  {
    ghost var orig := disk.files;
    PlanTarget(plan, disk.files, disk.rules, claims);
    hide SameBut, Planned, GoodPlan, INDEXES, Regenerated, Renumbered, Done;
    var guarded: bool := *;
    if commit && !guarded {
      return Refused(NotGuarded), true;
    }
    var created := disk.CreateExclusive(plan.to);
    if created.Exists? {
      return Refused(DestinationExists), true;
    }
    if created.CreateError? {
      return Failed(Create), true;
    }
    var written := disk.WriteFile(plan.to, plan.newContent);
    SameButOne(disk.files, orig[plan.to := ""], orig, plan.to);
    if !written {
      restored := Unclaim(disk, plan.to, orig);
      return Failed(Write), restored;
    }
    if * {
      restored := Unclaim(disk, plan.to, orig);
      return Failed(Close), restored;
    }
    var removed := disk.Remove(plan.from);
    if !removed.Removed? {
      restored := Unclaim(disk, plan.to, orig);
      return Failed(RemoveOld), restored;
    }
    outcome, restored := RewriteAndIndex(disk, plan, orig, commit);
  }

  // ----- The command

  /** Two tickets of one number after the move were two tickets of one number before it. */
  ghost predicate NoNewCollision(before: set<Path>, after: set<Path>, claims: set<Path>) {
    && (forall p, q | p in TicketsIn(after) && q in TicketsIn(after) && p != q && Number(p) == Number(q) ::
          p in TicketsIn(before) && q in TicketsIn(before))
    && (forall p, q | p in TicketsIn(after) && q in TicketsIn(claims) && Number(p) == Number(q) ::
        p in TicketsIn(before))
  }

  lemma RegeneratedKeys(files: map<Path, string>, r: Indexes)
    ensures SameBut(Regenerated(files, r), files, INDEXES)
    ensures TicketsIn(Regenerated(files, r).Keys) == TicketsIn(files.Keys)
  {
    IndexesAreNoTickets();
    hide IsTicket;
  }

  /** The moved ticket takes its new number; every other ticket keeps its own. */
  lemma MovedTickets(plan: Plan, orig: map<Path, string>, files: map<Path, string>, rules: Rules, claims: set<Path>)
    requires GoodPlan(plan, orig, rules, claims) && plan.to !in orig && Done(files, plan, orig, rules)
    ensures TicketsIn(files.Keys)
         == TicketsIn(orig.Keys) - {plan.from} + if IsLocal(plan.number) then {plan.to} else {}
    ensures NoNewCollision(orig.Keys, files.Keys, claims)
  {
    var moved := Renumbered(orig, rules, plan.from, plan.to, plan.newContent);
    RegeneratedKeys(moved, rules.render(moved).value);
    TargetNumber(plan.from, plan.number);
    hide Regenerated, IsTicket, Number, Target, Planned, IsLocal, TicketsIn;
    assert moved.Keys == orig.Keys - {plan.from} + {plan.to};
    TicketsAfter(orig.Keys, plan.from, plan.to);
    FreeNumberKeepsApart(orig.Keys, files.Keys, claims, plan);
  }

  lemma TicketsAfter(paths: set<Path>, from: Path, to: Path)
    ensures TicketsIn(paths - {from} + {to}) == TicketsIn(paths) - {from} + if IsTicket(to) then {to} else {}
  {
    hide IsTicket;
  }

  lemma FreeNumberKeepsApart(before: set<Path>, after: set<Path>, claims: set<Path>, plan: Plan)
    requires TicketsIn(after) <= TicketsIn(before) + {plan.to}
    requires plan.to in TicketsIn(after) ==> Number(plan.to) == plan.number
    requires forall p | p in TicketsIn(before + claims) :: Number(p) != plan.number
    ensures NoNewCollision(before, after, claims)
  {
    hide IsTicket, Number;
    assert TicketsIn(before) <= TicketsIn(before + claims) && TicketsIn(claims) <= TicketsIn(before + claims);
  }

  method IssuesMv(disk: Disk, query: Query, request: Request, claims: Option<seq<Path>>, check: bool, commit: bool)
    returns (outcome: Outcome, plan: Option<Plan>, restored: bool)
    requires claims.Some? ==> forall p | p in claims.value :: IsTicket(p)
    modifies disk`files
    ensures outcome.Refused? || outcome.Noop? ==> disk.files == old(disk.files)
    ensures !outcome.Refused? && !outcome.Noop? ==>
              && plan.Some? && claims.Some?
              && GoodPlan(plan.value, old(disk.files), disk.rules, set p | p in claims.value)
              && Asks(plan.value, query, request, old(disk.files).Keys + set p | p in claims.value)
    // Failures before the commit, and every return of a check.
    ensures outcome.Failed? && outcome.stage !in {Commit, Update, CheckWrite, CheckUpdate} && restored ==>
              disk.files == old(disk.files)
    ensures outcome == Failed(Update) && restored ==>
              SameBut(disk.files, old(disk.files), INDEXES - PathsOf(plan.value.edits))
    ensures outcome == Failed(CheckWrite) ==> SameBut(disk.files, old(disk.files), {plan.value.to})
    ensures (outcome.Checked? || outcome == Failed(CheckUpdate)) && restored ==>
              disk.files == old(disk.files) - {plan.value.to}
    ensures check ==> !outcome.Moved? && outcome != Failed(Commit)
    // Success.
    ensures outcome.Moved? || outcome == Failed(Commit) ==>
              && plan.value.to !in old(disk.files) && Done(disk.files, plan.value, old(disk.files), disk.rules)
              && NoNewCollision(old(disk.files).Keys, disk.files.Keys, set p | p in claims.value)
    ensures outcome.Moved? ==>
              outcome.readmeUpdated
              == (disk.files != Renumbered(old(disk.files), disk.rules, plan.value.from, plan.value.to,
                plan.value.newContent))
  {
    hide GoodPlan, Asks, SameBut, Done, Renumbered, Regenerated, NoNewCollision, IsTicket, INDEXES, PathsOf;
    var planning := PlanMove(disk, query, request, claims);
    if planning.Unplanned? {
      return planning.outcome, None, true;
    }
    plan := Some(planning.plan);
    ghost var orig := disk.files;
    ghost var claimed := set p | p in claims.value;
    if check {
      outcome, restored := CheckMove(disk, plan.value, claimed);
    } else {
      outcome, restored := ApplyMove(disk, plan.value, commit, claimed);
      if outcome.Moved? || outcome == Failed(Commit) {
        MovedTickets(plan.value, orig, disk.files, disk.rules, claimed);
      }
    }
  }

  // ----- index --check

  datatype CheckOutcome = Clean | Drift | IndexError | DocsError

  predicate IssuesUpToDate(files: map<Path, string>, rules: Rules) {
    var r := rules.render(files);
    r.Some? && Lookup(files, README) == Some(r.value.readme)
    && Lookup(files, BACKLOG) == Some(r.value.backlog) && Lookup(files, CLOSED) == Some(r.value.closed)
  }

  predicate DocsUpToDate(files: map<Path, string>, rules: Rules) {
    var r := rules.renderDocs(files);
    r.Some? && Lookup(files, DOCS) == r
  }

  lemma SameButSelf(a: map<Path, string>, paths: set<Path>)
    ensures SameBut(a, a, paths)
  {
  }

  lemma RestoredIndexes(snapshot: Snapshot, orig: map<Path, string>, final: map<Path, string>)
    requires SnapshotOf(snapshot, orig) && SnapshotOf(snapshot, final) && SameBut(final, orig, INDEXES)
    ensures final == orig
  {
    hide SameBut, SnapshotOf, INDEXES;
    forall p
      ensures Lookup(final, p) == Lookup(orig, p)
    {
      if p in INDEXES {
        SnapshotAt(snapshot, orig, p);
        SnapshotAt(snapshot, final, p);
      } else {
        SameButAt(final, orig, INDEXES, p);
      }
    }
    SameLookups(final, orig);
  }

  /** The three comparisons find a difference exactly when an index is not what would be generated. */
  lemma DriftIsDifference(files: map<Path, string>, after: map<Path, string>, rules: Rules)
    requires rules.render(files).Some? && after == Regenerated(files, rules.render(files).value)
    requires README in after && BACKLOG in after && CLOSED in after
    ensures IssuesUpToDate(files, rules)
       <==> (Lookup(files, README) == Lookup(after, README) && Lookup(files, BACKLOG) == Lookup(after, BACKLOG)
             && Lookup(files, CLOSED) == Lookup(after, CLOSED))
  {
    ChangedWhenWritten(files, rules.render(files).value);
    hide Regenerated, README, BACKLOG, CLOSED, DEFAULT_README;
  }

  /** Regenerates the issue indexes, compares them with the snapshot and restores it. */
  method CheckIssues(disk: Disk) returns (drift: Option<bool>)
    modifies disk`files
    ensures drift.Some? ==> disk.files == old(disk.files)
    ensures drift.Some? ==> (drift.value <==> !IssuesUpToDate(disk.files, disk.rules))
    ensures SameBut(disk.files, old(disk.files), INDEXES)
  {
    ghost var orig := disk.files;
    hide SameBut, Regenerated, IssuesUpToDate, SnapshotOf;
    SameButSelf(orig, INDEXES);
    var snapshot := disk.SnapshotIndexes();
    if snapshot.None? {
      return None;
    }
    SnapshotCovers(snapshot.value, orig);
    var updated := disk.UpdateIndexes();
    ghost var after := disk.files;
    if updated.None? {
      var _ := disk.RestoreIndexes(snapshot.value);
      SameButJoin(disk.files, after, orig, INDEXES, INDEXES, INDEXES);
      return None;
    }
    var names := [README, BACKLOG, CLOSED];
    var differs := false;
    for i := 0 to 3
      invariant disk.files == after
      invariant forall j | 0 <= j < i :: names[j] in after
      invariant differs <==> exists j | 0 <= j < i :: Lookup(orig, names[j]) != Lookup(after, names[j])
    {
      SnapshotAt(snapshot.value, orig, names[i]);
      var generated := disk.ReadFile(names[i]);
      var shown := true;
      if generated.Text? && snapshot.value[names[i]] != Some(generated.text) {
        differs, shown := true, *;
      }
      if !generated.Text? || !shown {
        var _ := disk.RestoreIndexes(snapshot.value);
        SameButJoin(disk.files, after, orig, INDEXES, INDEXES, INDEXES);
        return None;
      }
    }
    assert names[0] in after && names[1] in after && names[2] in after;
    DriftIsDifference(orig, after, disk.rules);
    var restored := disk.RestoreIndexes(snapshot.value);
    SameButJoin(disk.files, after, orig, INDEXES, INDEXES, INDEXES);
    if !restored {
      return None;
    }
    RestoredIndexes(snapshot.value, orig, disk.files);
    return Some(differs);
  }

  /** Regenerates the docs index in place, compares and writes the old text back.  An error after
      the write leaves the regenerated text behind. */
  method CheckDocs(disk: Disk) returns (drift: Option<bool>)
    modifies disk`files
    ensures drift.Some? ==> disk.files == old(disk.files)
    ensures drift.Some? ==> (drift.value <==> !DocsUpToDate(disk.files, disk.rules))
    ensures SameBut(disk.files, old(disk.files), {DOCS})
  {
    hide DOCS;
    var orig := disk.ReadFile(DOCS);
    if !orig.Text? {
      return None;
    }
    var rendered := disk.rules.renderDocs(disk.files);
    if rendered.None? {
      return None;
    }
    if rendered.value == orig.text {
      return Some(false);
    }
    var ok := disk.WriteFile(DOCS, rendered.value);
    if !ok {
      return None;
    }
    var shown := *;
    if !shown {
      return None;
    }
    ok := disk.WriteFile(DOCS, orig.text);
    if !ok {
      return None;
    }
    assert disk.files == old(disk.files);
    return Some(true);
  }

  /** `index --check` changes nothing unless it reports an error, and reports drift exactly when
      some index differs from what would be generated. */
  method IndexCheck(disk: Disk, hasIssues: bool, hasDocs: bool) returns (outcome: CheckOutcome)
    modifies disk`files
    ensures outcome.Clean? || outcome.Drift? ==> disk.files == old(disk.files)
    ensures outcome.Clean? || outcome.Drift? ==>
              (outcome.Clean? <==> (hasIssues ==> IssuesUpToDate(disk.files, disk.rules))
                                   && (hasDocs ==> DocsUpToDate(disk.files, disk.rules)))
    ensures outcome.IndexError? ==> SameBut(disk.files, old(disk.files), INDEXES)
    ensures outcome.DocsError? ==> SameBut(disk.files, old(disk.files), {DOCS})
  {
    hide SameBut, IssuesUpToDate, DocsUpToDate;
    var drift := false;
    if hasIssues {
      var issues := CheckIssues(disk);
      if issues.None? {
        return IndexError;
      }
      drift := issues.value;
    }
    if hasDocs {
      var docs := CheckDocs(disk);
      if docs.None? {
        return DocsError;
      }
      drift := drift || docs.value;
    }
    return if drift then Drift else Clean;
  }
}
