/**
 Ticket files and their numbers (internal/issues/issues.go, internal/issues/remote.go): which file
 names are tickets, what a renumbered file is called, and which numbers a new name may take.
 */
module TicketFiles {
  import opened Decimal

  datatype Option<+T> = None | Some(value: T)

  /** A path below the project directory; tickets live in `Issues` and `Archive` only. */
  datatype Folder = Issues | Archive | Elsewhere(name: string)
  datatype Path = Path(folder: Folder, base: string)

  const MAX_INT64 := 0x7FFF_FFFF_FFFF_FFFF

  const README := Path(Issues, "README.md")
  const BACKLOG := Path(Issues, "BACKLOG.md")
  const CLOSED := Path(Issues, "CLOSED.md")
  const INDEXES := {README, BACKLOG, CLOSED}

  function DigitRun(s: string): (k: nat)
    ensures k <= |s| && AllDigits(s[..k]) && (k < |s| ==> !IsDigit(s[k]))
  {
    if s == [] || !IsDigit(s[0]) then 0
    else
      var k := DigitRun(s[1..]);
      assert s[..k + 1] == [s[0]] + s[1..][..k];
      k + 1
  }

  /** `-.*\.md$`: the rest of a ticket's file name after its number. */
  predicate IsSlug(s: string) {
    |s| >= 4 && s[0] == '-' && s[|s| - 3..] == ".md" && '\n' !in s
  }

  /** The number that the file-name pattern `^(\d{3,}|GH[1-9]\d*)-.*\.md$` captures. */
  function NumberOf(base: string): Option<string> {
    var k := DigitRun(base);
    if k >= 3 && IsSlug(base[k..]) then Some(base[..k])
    else if |base| >= 3 && base[..2] == "GH" && base[2] != '0' then
      var g := 2 + DigitRun(base[2..]);
      if g > 2 && IsSlug(base[g..]) then Some(base[..g]) else None
    else None
  }

  predicate IsTicket(p: Path) {
    !p.folder.Elsewhere? && NumberOf(p.base).Some?
  }

  function Number(p: Path): string
    requires IsTicket(p)
  {
    NumberOf(p.base).value
  }

  function TicketsIn(paths: set<Path>): set<Path> {
    set p | p in paths && IsTicket(p)
  }

  predicate HasPrefix(s: string, prefix: string) {
    prefix <= s
  }

  /** The new file name: the new number before the old slug. */
  function Renamed(base: string, number: string, newNumber: string): string {
    if HasPrefix(base, number + "-") then newNumber + "-" + base[|number| + 1..]
    else if HasPrefix(base, number) then newNumber + base[|number|..]
    else newNumber + "-" + base
  }

  function Target(from: Path, newNumber: string): Path
    requires IsTicket(from)
  {
    Path(from.folder, Renamed(from.base, Number(from), newNumber))
  }

  // ----- Numbers as integers

  predicate IsLocal(number: string) {
    |number| >= 3 && AllDigits(number)
  }

  /** Atoi of a number: GitHub ids and numbers beyond 64 bits are errors. */
  function AtoiOf(number: string): Option<nat> {
    if IsLocal(number) && Value(number) <= MAX_INT64 then Some(Value(number)) else None
  }

  function MaxNumber(taken: seq<Path>): (max: nat)
    requires forall p | p in taken :: IsTicket(p)
    ensures max <= MAX_INT64
    ensures forall p | p in taken && AtoiOf(Number(p)).Some? :: AtoiOf(Number(p)).value <= max
  {
    if taken == [] then 0
    else
      var most := MaxNumber(taken[..|taken| - 1]);
      var n := AtoiOf(Number(taken[|taken| - 1]));
      assert taken == taken[..|taken| - 1] + [taken[|taken| - 1]];
      if n.Some? && n.value > most then n.value else most
  }

  /** `%03d` of the successor of the largest number, which wraps around in 64 bits. */
  function NextNumber(taken: seq<Path>): string
    requires forall p | p in taken :: IsTicket(p)
  {
    var max := MaxNumber(taken);
    if max == MAX_INT64 then "-" + Digits(MAX_INT64 + 1) else Pad3(max + 1)
  }

  lemma {:induction false} RunOfPrefix(number: string, rest: string)
    requires AllDigits(number) && (rest != [] ==> !IsDigit(rest[0]))
    ensures DigitRun(number + rest) == |number|
  {
    if number == [] {
      assert number + rest == rest;
    } else {
      RunOfPrefix(number[1..], rest);
      assert (number + rest)[1..] == number[1..] + rest;
    }
  }

  /** What a ticket's file is called: a number of three or more digits, or GH and a number without leading zeros,
      then a dash, a line of text and `.md`. */
  ghost predicate IsTicketName(base: string, number: string) {
    && (exists text :: base == number + "-" + text + ".md" && '\n' !in text)
    && ((|number| >= 3 && AllDigits(number)) || IsGitHubId(number))
  }

  ghost predicate IsGitHubId(number: string) {
    exists first, more :: number == "GH" + [first] + more && '1' <= first <= '9' && AllDigits(more)
  }

  lemma SlugMeans(s: string)
    ensures IsSlug(s) <==> exists text :: s == "-" + text + ".md" && '\n' !in text
  {
    if IsSlug(s) {
      var text := s[1..|s| - 3];
      assert s == "-" + text + ".md";
      assert '\n' !in text;
    }
    if text :| s == "-" + text + ".md" && '\n' !in text {
      assert s[|s| - 3..] == ".md";
      assert '\n' !in "-" && '\n' !in ".md";
    }
  }

  lemma TicketNames(base: string, number: string)
    ensures NumberOf(base) == Some(number) <==> IsTicketName(base, number)
  {
    if NumberOf(base) == Some(number) {
      NumberMeans(base, number);
    }
    if IsTicketName(base, number) {
      NameHasNumber(base, number);
    }
    hide NumberOf, IsTicketName;
  }

  lemma NumberMeans(base: string, number: string)
    requires NumberOf(base) == Some(number)
    ensures IsTicketName(base, number)
  {
    SplitAtNumber(base);
    NumberForm(base, number);
    hide NumberOf, IsSlug, IsGitHubId;
    SlugMeans(base[|number|..]);
    var text :| base[|number|..] == "-" + text + ".md" && '\n' !in text;
    assert base == number + base[|number|..];
    Joined(number, text);
  }

  lemma NumberForm(base: string, number: string)
    requires NumberOf(base) == Some(number)
    ensures (|number| >= 3 && AllDigits(number)) || IsGitHubId(number)
  {
    hide IsSlug;
    if !(|number| >= 3 && AllDigits(number)) {
      var tail := base[2..];
      var k := DigitRun(tail);
      assert number == base[..2 + k] && AllDigits(tail[..k]) && k > 0;
      assert number == "GH" + [base[2]] + number[3..];
      assert AllDigits(number[3..]) by {
        assert forall i | 0 <= i < |number| - 3 :: number[3..][i] == tail[..k][i + 1];
      }
      assert base[2] == tail[..k][0] && IsDigit(base[2]);
    }
  }

  lemma Joined(number: string, text: string)
    ensures number + ("-" + text + ".md") == number + "-" + text + ".md"
  {
  }

  lemma NameHasNumber(base: string, number: string)
    requires IsTicketName(base, number)
    ensures NumberOf(base) == Some(number)
  {
    hide NumberOf, IsSlug, IsGitHubId;
    var text :| base == number + "-" + text + ".md" && '\n' !in text;
    var slug := "-" + text + ".md";
    Joined(number, text);
    SlugMeans(slug);
    if |number| >= 3 && AllDigits(number) {
      NumberBeforeSlug(number, slug);
    } else {
      GitHubIdBeforeSlug(number, slug);
    }
  }

  lemma GitHubIdBeforeSlug(number: string, slug: string)
    requires IsGitHubId(number) && IsSlug(slug)
    ensures NumberOf(number + slug) == Some(number)
  {
    var first, more :| number == "GH" + [first] + more && '1' <= first <= '9' && AllDigits(more);
    var base := number + slug;
    assert base[2..] == ([first] + more) + slug && base[..2] == "GH" && base[2] == first;
    assert DigitRun(base) == 0;
    RunOfPrefix([first] + more, slug);
    assert base[|number|..] == slug && base[..|number|] == number;
  }

  /** A file name with a local number in front of a slug is a ticket of that number. */
  lemma NumberBeforeSlug(number: string, slug: string)
    requires IsLocal(number) && IsSlug(slug)
    ensures NumberOf(number + slug) == Some(number)
  {
    RunOfPrefix(number, slug);
    assert (number + slug)[|number|..] == slug && (number + slug)[..|number|] == number;
  }

  lemma SplitAtNumber(base: string)
    requires NumberOf(base).Some?
    ensures var k := |NumberOf(base).value|;
            k < |base| && base[..k] == NumberOf(base).value && base[k] == '-' && IsSlug(base[k..])
  {
  }

  /** A ticket's name is its number and a slug; of the three ways to rename it only the first applies. */
  lemma RenamedKeepsSlug(from: Path, newNumber: string)
    requires IsTicket(from)
    ensures |Number(from)| < |from.base|
    ensures var slug := from.base[|Number(from)|..];
            && IsSlug(slug) && from.base == Number(from) + slug
            && Target(from, newNumber) == Path(from.folder, newNumber + slug)
  {
    SplitAtNumber(from.base);
    hide NumberOf, IsSlug;
    RenamedTail(from.base, Number(from), newNumber);
  }

  lemma RenamedTail(base: string, number: string, newNumber: string)
    requires |number| < |base| && base[..|number|] == number && base[|number|] == '-'
    ensures base == number + base[|number|..]
    ensures Renamed(base, number, newNumber) == newNumber + base[|number|..]
  {
    assert base[..|number| + 1] == number + "-";
    assert base[|number|..] == "-" + base[|number| + 1..];
    assert newNumber + "-" + base[|number| + 1..] == newNumber + ("-" + base[|number| + 1..]);
  }

  /** A wrapped successor is written with a sign and matches neither form of the pattern. */
  lemma SignedIsNoTicket(base: string)
    requires base != [] && base[0] == '-'
    ensures NumberOf(base).None?
  {
    assert DigitRun(base) == 0;
    assert |base| >= 3 ==> base[..2][0] == '-' && "GH"[0] == 'G';
  }

  /** The renamed file is a ticket of the new number, unless the successor wrapped around. */
  lemma TargetNumber(from: Path, newNumber: string)
    requires IsTicket(from) && newNumber != [] && (IsLocal(newNumber) || newNumber[0] == '-')
    ensures Target(from, newNumber) !in INDEXES && Target(from, newNumber).folder == from.folder
    ensures IsTicket(Target(from, newNumber)) <==> IsLocal(newNumber)
    ensures IsLocal(newNumber) ==> Number(Target(from, newNumber)) == newNumber
  {
    RenamedKeepsSlug(from, newNumber);
    SlugOf(from, newNumber);
    hide Target, NumberOf, IsSlug, INDEXES;
    var slug := from.base[|Number(from)|..];
    var base := newNumber + slug;
    assert base[|newNumber|] == '-';
    DashedIsNoIndex(Target(from, newNumber));
    if IsLocal(newNumber) {
      NumberBeforeSlug(newNumber, slug);
    } else {
      SignedIsNoTicket(base);
    }
  }

  lemma SlugOf(from: Path, newNumber: string)
    requires IsTicket(from)
    ensures |from.base| > |Number(from)| && from.base[|Number(from)|] == '-'
    ensures newNumber != Number(from) ==> Target(from, newNumber) != from
  {
    RenamedKeepsSlug(from, newNumber);
    hide Target, NumberOf;
    var slug := from.base[|Number(from)|..];
    if newNumber + slug == Number(from) + slug {
      assert (newNumber + slug)[..|newNumber|] == newNumber && (Number(from) + slug)[..|Number(from)|] == Number(from);
    }
  }

  lemma DashedIsNoIndex(p: Path)
    requires '-' in p.base
    ensures p !in INDEXES
  {
    assert '-' !in "README.md" && '-' !in "BACKLOG.md" && '-' !in "CLOSED.md";
  }

  lemma IndexesAreNoTickets()
    ensures forall p | p in INDEXES :: !IsTicket(p)
  {
    LetterIsNoTicket("README.md");
    LetterIsNoTicket("BACKLOG.md");
    LetterIsNoTicket("CLOSED.md");
    hide NumberOf;
  }

  lemma LetterIsNoTicket(base: string)
    requires base != [] && base[0] in "RBC"
    ensures NumberOf(base).None?
  {
    assert DigitRun(base) == 0;
    assert |base| >= 3 ==> base[..2][0] != "GH"[0];
  }

  /** The automatic number is free, also when numbers are compared as integers. */
  lemma NextNumberIsFree(taken: seq<Path>)
    requires forall p | p in taken :: IsTicket(p)
    requires MaxNumber(taken) < MAX_INT64
    ensures IsLocal(NextNumber(taken)) && AtoiOf(NextNumber(taken)).Some?
    ensures forall p | p in taken :: Number(p) != NextNumber(taken) && AtoiOf(Number(p)) != AtoiOf(NextNumber(taken))
  {
    ValueOfPad3(MaxNumber(taken) + 1);
  }

  /** The automatic number is one more than the largest that is taken, or 1; the successor of the largest integer
      wraps to the smallest. */
  lemma NextNumberIsNext(taken: seq<Path>)
    requires forall p | p in taken :: IsTicket(p)
    ensures MaxNumber(taken) < MAX_INT64 ==>
      var next := Value(NextNumber(taken));
      && NextNumber(taken) == Pad3(next)
      && (forall p | p in taken && AtoiOf(Number(p)).Some? :: AtoiOf(Number(p)).value < next)
      && (if exists p :: p in taken && AtoiOf(Number(p)).Some? && AtoiOf(Number(p)).value > 0
          then exists p :: p in taken && AtoiOf(Number(p)) == Some(next - 1) else next == 1)
    ensures MaxNumber(taken) == MAX_INT64 ==> NextNumber(taken) == "-" + Digits(0x8000_0000_0000_0000)
  {
    MaxIsTaken(taken);
    ValueOfPad3(MaxNumber(taken) + 1);
    hide Pad3, Value, AtoiOf, MaxNumber, Digits, Number, IsTicket;
  }

  lemma {:induction false} MaxIsTaken(taken: seq<Path>)
    requires forall p | p in taken :: IsTicket(p)
    ensures MaxNumber(taken) > 0 ==> exists p :: p in taken && AtoiOf(Number(p)) == Some(MaxNumber(taken))
  {
    if taken != [] {
      MaxIsTaken(taken[..|taken| - 1]);
      assert taken[|taken| - 1] in taken && forall p | p in taken[..|taken| - 1] :: p in taken;
    }
    hide AtoiOf, Number, IsTicket;
  }

  /** The number a caller asks for is compared as text.  It collides as an integer with a taken
      number exactly when that number is spelled with more leading zeros than `%03d` writes. */
  lemma CollisionNeedsLeadingZeros(taken: seq<Path>, n: nat)
    requires forall p | p in taken :: IsTicket(p) && Number(p) != Pad3(n)
    requires n <= MAX_INT64
    ensures (exists p :: p in taken && AtoiOf(Number(p)) == Some(n))
       <==> (exists p :: p in taken && IsOverlong(Number(p)) && Value(Number(p)) == n)
  {
    ValueOfPad3(n);
    forall p | p in taken && IsLocal(Number(p)) && Value(Number(p)) == n
      ensures IsOverlong(Number(p))
    {
      Pad3IsCanonical(Number(p));
    }
  }

  predicate IsOverlong(number: string) {
    IsLocal(number) && |number| > 3 && number[0] == '0'
  }

  /** Such a collision: 7 is accepted beside a file numbered 0007. */
  lemma OverlongNumberCollides()
    ensures var p := Path(Issues, "0" + Pad3(7) + "-a.md");
            IsTicket(p) && Number(p) != Pad3(7) && AtoiOf(Number(p)) == AtoiOf(Pad3(7)) == Some(7)
  {
    ValueOfPad3(7);
    LeadingZero(Pad3(7));
    hide Pad3, Value, IsSlug;
    assert IsSlug("-a.md") by { LiteralSlug(); }
    NumberBeforeSlug("0" + Pad3(7), "-a.md");
  }

  lemma LiteralSlug()
    ensures IsSlug("-a.md")
  {
    assert "-a.md"[2..] == ".md";
  }
}
