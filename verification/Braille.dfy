/**
 The reversible 8-dot Braille conversion of scripts/md-to-braille8.py: the encoder, the
 decoder, the split of a document into heading-led sections and the section-by-section check.

 A Python string is a `string` here (a sequence of Unicode scalar values), an exception is
 an `Err`.  Dot masks are integers below 256: setting dot 7 of a six-dot mask adds 64, and
 `mask & DOT_8` is a comparison with 128.
 */
module BrailleCodec {

  datatype CodecError =
    | UnterminatedEscape
    | EscapeBeforeNonCell
    | InvalidDot8(index: nat)
    | NotADigitCell
    | UnknownCell(index: nat)
    | DecodingChanged
    | ReencodingChanged

  datatype Result<+T> = Ok(value: T) | Err(error: CodecError)

  datatype Option<+T> = None | Some(value: T)

  const BRAILLE_BASE := 0x2800
  const DOT_7 := 64
  const DOT_8 := 128
  const BRAILLE_ESCAPE: char := Cell(DOT_7 + DOT_8)
  const KELVIN_SIGN: char := '\U{212A}'

  function Cell(mask: int): char
    requires 0 <= mask < 256
  {
    (BRAILLE_BASE + mask) as char
  }

  predicate IsCell(c: char) {
    BRAILLE_BASE <= c as int <= BRAILLE_BASE + 0xFF
  }

  predicate IsLetter(c: char) {
    'a' <= c <= 'z'
  }

  predicate IsDigit(c: char) {
    '0' <= c <= '9'
  }

  /** The standard six-dot alphabet. */
  function LetterMask(letter: char): (mask: int)
    requires IsLetter(letter)
    ensures 0 < mask < DOT_7
  {
    match letter
    case 'a' => 1
    case 'b' => 3
    case 'c' => 9
    case 'd' => 25
    case 'e' => 17
    case 'f' => 11
    case 'g' => 27
    case 'h' => 19
    case 'i' => 10
    case 'j' => 26
    case 'k' => 5
    case 'l' => 7
    case 'm' => 13
    case 'n' => 29
    case 'o' => 21
    case 'p' => 15
    case 'q' => 31
    case 'r' => 23
    case 's' => 14
    case 't' => 30
    case 'u' => 37
    case 'v' => 39
    case 'w' => 58
    case 'x' => 45
    case 'y' => 61
    case _ => 53
  }

  /** Digits borrow the letters a-j: 1 is a, ..., 9 is i, 0 is j. */
  function DigitLetter(digit: char): (letter: char)
    requires IsDigit(digit)
    ensures 'a' <= letter <= 'j'
  {
    if digit == '0' then 'j' else (digit as int - '1' as int + 'a' as int) as char
  }

  /** The entry of the letter table that `character.lower()` hits.  Besides a-z and A-Z only
      U+212A KELVIN SIGN has a lower case inside a-z. */
  function LowerLetter(c: char): (letter: Option<char>)
    ensures letter.Some? ==> IsLetter(letter.value)
  {
    if IsLetter(c) then Some(c)
    else if 'A' <= c <= 'Z' then Some((c as int + 32) as char)
    else if c == KELVIN_SIGN then Some('k')
    else None
  }

  /** `letter.upper()` for a letter of the table. */
  function Upper(letter: char): char
    requires IsLetter(letter)
  {
    (letter as int - 32) as char
  }

  // ----- Encoding

  function Braille8(c: char): string {
    if IsDigit(c) then
      [Cell(DOT_8), Cell(LetterMask(DigitLetter(c)))]
    else
      match LowerLetter(c)
      case None => [c]
      case Some(letter) => [Cell(LetterMask(letter) + if IsLetter(c) then 0 else DOT_7)]
  }

  /** The code word of one source character. */
  function CodeWord(c: char): (word: string)
    ensures 1 <= |word| <= 2
  {
    if IsCell(c) then [BRAILLE_ESCAPE, c] else Braille8(c)
  }

  function Encode(text: string): string {
    if text == [] then [] else CodeWord(text[0]) + Encode(text[1..])
  }

  lemma {:induction false} EncodeAppend(a: string, b: string)
    ensures Encode(a + b) == Encode(a) + Encode(b)
  {
    hide CodeWord;
    if a == [] {
      assert a + b == b;
    } else {
      var rest := a[1..] + b;
      assert a + b == [a[0]] + rest;
      EncodeAppend(a[1..], b);
      assert Encode(a + b) == CodeWord(a[0]) + Encode(rest);
    }
  }

  method Translate(text: string) returns (result: string)
    ensures result == Encode(text)
  {
    result := [];
    for i := 0 to |text|
      invariant result == Encode(text[..i])
    {
      assert text[..i + 1] == text[..i] + [text[i]];
      EncodeAppend(text[..i], [text[i]]);
      if IsCell(text[i]) {
        result := result + [BRAILLE_ESCAPE, text[i]];
      } else {
        result := result + Braille8(text[i]);
      }
    }
    assert text[..|text|] == text;
  }

  // ----- The alphabet

  // A cell is U+2800 plus one bit for each raised dot.
  const DOT_1 := 1
  const DOT_2 := 2
  const DOT_3 := 4
  const DOT_4 := 8
  const DOT_5 := 16
  const DOT_6 := 32

  /** The dots of the letters a to j; they use the upper four of a six-dot cell only. */
  ghost function FirstSeries(letter: char): nat
    requires 'a' <= letter <= 'j'
  {
    match letter
    case 'a' => DOT_1
    case 'b' => DOT_1 + DOT_2
    case 'c' => DOT_1 + DOT_4
    case 'd' => DOT_1 + DOT_4 + DOT_5
    case 'e' => DOT_1 + DOT_5
    case 'f' => DOT_1 + DOT_2 + DOT_4
    case 'g' => DOT_1 + DOT_2 + DOT_4 + DOT_5
    case 'h' => DOT_1 + DOT_2 + DOT_5
    case 'i' => DOT_2 + DOT_4
    case _ => DOT_2 + DOT_4 + DOT_5
  }

  /** The text is encoded to one cell with these dots. */
  ghost predicate HasDots(text: string, dots: nat) {
    |Encode(text)| == 1 && Encode(text)[0] as int == 0x2800 + dots
  }

  lemma EncodeOne(c: char)
    ensures Encode([c]) == CodeWord(c)
  {
    assert CodeWord(c) + [] == CodeWord(c);
  }

  /** a to j, and k to t, which add dot 3 to them. */
  lemma FirstTwoSeries(c: char)
    requires 'a' <= c <= 'j'
    ensures HasDots([c], FirstSeries(c)) && HasDots([(c as int + 10) as char], FirstSeries(c) + DOT_3)
  {
    EncodeOne(c);
    EncodeOne((c as int + 10) as char);
    hide Encode;
  }

  /** u, v, x, y and z add dots 3 and 6 to a to e, and w adds dot 6 to j. */
  lemma ThirdSeries()
    ensures HasDots("u", FirstSeries('a') + DOT_3 + DOT_6) && HasDots("v", FirstSeries('b') + DOT_3 + DOT_6)
    ensures HasDots("x", FirstSeries('c') + DOT_3 + DOT_6) && HasDots("y", FirstSeries('d') + DOT_3 + DOT_6)
    ensures HasDots("z", FirstSeries('e') + DOT_3 + DOT_6) && HasDots("w", FirstSeries('j') + DOT_6)
  {
    EncodeOne('u');
    EncodeOne('v');
    EncodeOne('w');
    EncodeOne('x');
    EncodeOne('y');
    EncodeOne('z');
    hide Encode;
  }

  /** A letter is one six-dot cell; its capital adds dot 7, and so does U+212A to k. */
  lemma CapitalsAddDot7(c: char)
    requires 'a' <= c <= 'z'
    ensures |Encode([c])| == 1 && '\U{2801}' <= Encode([c])[0] <= '\U{283f}'
    ensures HasDots([(c as int - 'a' as int + 'A' as int) as char], Encode([c])[0] as int - 0x2800 + 64)
    ensures c == 'k' ==> HasDots(['\U{212a}'], Encode([c])[0] as int - 0x2800 + 64)
  {
    EncodeOne(c);
    EncodeOne((c as int - 'a' as int + 'A' as int) as char);
    EncodeOne('\U{212a}');
    hide Encode, LetterMask;
  }

  /** A digit is a cell with dot 8 alone, then the letter of its place in 1, ..., 9, 0. */
  lemma DigitsBorrowLetters(c: char)
    requires '0' <= c <= '9'
    ensures Encode([c]) == ['\U{2880}']
      + Encode([if c == '0' then 'j' else (c as int - '1' as int + 'a' as int) as char])
  {
    EncodeOne(c);
    EncodeOne(if c == '0' then 'j' else (c as int - '1' as int + 'a' as int) as char);
    hide Encode, LetterMask;
  }

  /** A cell of the source is escaped by the cell with dots 7 and 8; everything else is kept. */
  lemma OthersKept(c: char)
    requires !('a' <= c <= 'z') && !('A' <= c <= 'Z') && !('0' <= c <= '9') && c != '\U{212a}'
    ensures Encode([c]) == if '\U{2800}' <= c <= '\U{28ff}' then ['\U{28c0}', c] else [c]
  {
    EncodeOne(c);
    hide Encode;
  }

  // ----- Decoding

  /** The first letter, in table order from `letter` on, whose mask is `mask`. */
  function FindLetter(mask: int, letter: char): (found: Option<char>)
    requires IsLetter(letter)
    ensures found.Some? ==> IsLetter(found.value) && LetterMask(found.value) == mask
    decreases 'z' as int - letter as int
  {
    if LetterMask(letter) == mask then Some(letter)
    else if letter == 'z' then None
    else FindLetter(mask, (letter as int + 1) as char)
  }

  /** The first digit, in the table order 1, ..., 9, 0 from `digit` on, with that mask. */
  function FindDigit(mask: int, digit: char): (found: Option<char>)
    requires IsDigit(digit)
    ensures found.Some? ==> IsDigit(found.value) && LetterMask(DigitLetter(found.value)) == mask
    decreases if digit == '0' then 0 else '9' as int - digit as int + 1
  {
    if LetterMask(DigitLetter(digit)) == mask then Some(digit)
    else if digit == '0' then None
    else FindDigit(mask, if digit == '9' then '0' else (digit as int + 1) as char)
  }

  /** One round of the decoder loop: the decoded character and the next index. */
  function DecodeUnit(s: string, index: nat): (unit: Result<(char, nat)>)
    requires index < |s|
    ensures unit.Ok? ==> index < unit.value.1 <= |s|
  {
    var character := s[index];
    if character == BRAILLE_ESCAPE then
      if index + 1 >= |s| then Err(UnterminatedEscape)
      else if !IsCell(s[index + 1]) then Err(EscapeBeforeNonCell)
      else Ok((s[index + 1], index + 2))
    else if !IsCell(character) then
      Ok((character, index + 1))
    else
      var mask := character as int - BRAILLE_BASE;
      if mask >= DOT_8 then
        if mask != DOT_8 || index + 1 >= |s| then Err(InvalidDot8(index))
        else
          match FindDigit(s[index + 1] as int - BRAILLE_BASE, '1')
          case None => Err(NotADigitCell)
          case Some(digit) => Ok((digit, index + 2))
      else
        match FindLetter(mask % DOT_7, 'a')
        case None => Err(UnknownCell(index))
        case Some(letter) => Ok((if mask >= DOT_7 then Upper(letter) else letter, index + 1))
  }

  function DecodeFrom(s: string, index: nat): Result<string>
    decreases |s| - index
  {
    if index >= |s| then Ok([])
    else
      match DecodeUnit(s, index)
      case Err(e) => Err(e)
      case Ok((c, next)) =>
        match DecodeFrom(s, next)
        case Err(e) => Err(e)
        case Ok(rest) => Ok([c] + rest)
  }

  function Decode(s: string): Result<string> {
    DecodeFrom(s, 0)
  }

  method TranslateBack(text: string) returns (r: Result<string>)
    ensures r == Decode(text)
  {
    var result: string := [];
    var index := 0;
    assert forall rest: string :: [] + rest == rest;
    while index < |text|
      invariant index <= |text|
      invariant Decode(text) ==
                match DecodeFrom(text, index)
                case Ok(rest) => Ok(result + rest)
                case Err(e) => Err(e)
    {
      match DecodeUnit(text, index) {
        case Err(e) => return Err(e);
        case Ok((c, next)) =>
          assert forall rest: string :: result + ([c] + rest) == (result + [c]) + rest;
          result, index := result + [c], next;
      }
    }
    assert result + [] == result;
    return Ok(result);
  }

  // ----- The code is uniquely decodable

  lemma LetterMaskInjective(a: char, b: char)
    requires IsLetter(a) && IsLetter(b) && LetterMask(a) == LetterMask(b)
    ensures a == b
  {
  }

  /** What decoding makes of a character: U+212A KELVIN SIGN comes back as K. */
  function FoldKelvin(c: char): char {
    if c == KELVIN_SIGN then 'K' else c
  }

  function FoldText(text: string): string {
    seq(|text|, i requires 0 <= i < |text| => FoldKelvin(text[i]))
  }

  lemma {:induction false} FindLetterOfMask(letter: char, from: char)
    requires IsLetter(letter) && IsLetter(from) && from <= letter
    ensures FindLetter(LetterMask(letter), from) == Some(letter)
    decreases letter as int - from as int
  {
    hide LetterMask;
    if from != letter {
      if LetterMask(from) == LetterMask(letter) {
        LetterMaskInjective(from, letter);
      }
      FindLetterOfMask(letter, (from as int + 1) as char);
    }
  }

  lemma {:induction false} FindDigitOfMask(digit: char, from: char)
    requires IsDigit(digit) && IsDigit(from)
    requires from != digit ==> from != '0' && (digit == '0' || from < digit)
    ensures FindDigit(LetterMask(DigitLetter(digit)), from) == Some(digit)
    decreases if from == '0' then 0 else '9' as int - from as int + 1
  {
    hide LetterMask;
    if from != digit {
      if LetterMask(DigitLetter(from)) == LetterMask(DigitLetter(digit)) {
        LetterMaskInjective(DigitLetter(from), DigitLetter(digit));
      }
      FindDigitOfMask(digit, if from == '9' then '0' else (from as int + 1) as char);
    }
  }

  /** The decoder reads a code word back wherever it stands. */
  lemma DecodeCodeWord(s: string, index: nat, c: char)
    requires index + |CodeWord(c)| <= |s|
    requires s[index..index + |CodeWord(c)|] == CodeWord(c)
    ensures DecodeUnit(s, index) == Ok((FoldKelvin(c), index + |CodeWord(c)|))
  {
    hide LetterMask, FindLetter, FindDigit;
    var word := CodeWord(c);
    assert s[index] == s[index..index + |word|][0] == word[0];
    if |word| == 2 {
      assert s[index + 1] == s[index..index + |word|][1] == word[1];
    }
    if IsCell(c) {
    } else if IsDigit(c) {
      FindDigitOfMask(c, '1');
    } else if LowerLetter(c).Some? {
      FindLetterOfMask(LowerLetter(c).value, 'a');
    }
  }

  lemma {:induction false} DecodeEncodeFrom(text: string, s: string, index: nat)
    requires index <= |s| && s[index..] == Encode(text)
    ensures DecodeFrom(s, index) == Ok(FoldText(text))
  {
    hide DecodeUnit, CodeWord;
    if text == [] {
      assert FoldText(text) == [];
    } else {
      var word := CodeWord(text[0]);
      assert s[index..index + |word|] == s[index..][..|word|] == word;
      assert s[index + |word|..] == s[index..][|word|..] == Encode(text[1..]);
      DecodeCodeWord(s, index, text[0]);
      DecodeEncodeFrom(text[1..], s, index + |word|);
      assert FoldText(text) == [FoldKelvin(text[0])] + FoldText(text[1..]);
    }
  }

  /** Decoding undoes encoding for every text, except that KELVIN SIGN becomes K. */
  lemma DecodeEncode(text: string)
    ensures Decode(Encode(text)) == Ok(FoldText(text))
  {
    DecodeEncodeFrom(text, Encode(text), 0);
  }

  /** The forward round trip holds exactly for the texts without U+212A. */
  lemma ForwardRoundTrip(text: string)
    ensures Decode(Encode(text)) == Ok(text) <==> KELVIN_SIGN !in text
  {
    DecodeEncode(text);
    if KELVIN_SIGN in text {
      var i :| 0 <= i < |text| && text[i] == KELVIN_SIGN;
      assert FoldText(text)[i] == 'K';
    } else {
      assert FoldText(text) == text;
    }
  }

  // ----- Decoding first

  /** Characters the encoder replaces although they are not Braille cells. */
  predicate Translatable(c: char) {
    IsDigit(c) || LowerLetter(c).Some?
  }

  predicate NoneTranslatable(s: string) {
    forall c | c in s :: !Translatable(c)
  }

  /** Decoding a unit that does not start with a letter or digit loses nothing. */
  lemma UnitReencodes(s: string, index: nat)
    requires index < |s| && DecodeUnit(s, index).Ok?
    ensures var (c, next) := DecodeUnit(s, index).value;
            && (!Translatable(s[index]) ==> CodeWord(c) == s[index..next] && NoneTranslatable(s[index..next]))
            && (Translatable(s[index]) ==> IsCell(CodeWord(c)[0]) && !IsCell(s[index]))
  {
    hide LetterMask, FindLetter, FindDigit;
    var (c, next) := DecodeUnit(s, index).value;
    if IsCell(s[index]) && s[index] != BRAILLE_ESCAPE {
      var mask := s[index] as int - BRAILLE_BASE;
      if mask < DOT_8 {
        var letter := FindLetter(mask % DOT_7, 'a').value;
        assert LetterMask(letter) == mask % DOT_7;
        assert LowerLetter(c) == Some(letter) && !IsDigit(c) && !IsCell(c);
        assert s[index] == Cell(mask);
        assert CodeWord(c) == [s[index]] == s[index..next];
      } else {
        assert CodeWord(c) == [s[index], s[index + 1]] == s[index..next];
      }
    }
  }

  lemma {:induction false} ReencodeFrom(s: string, index: nat)
    requires index <= |s| && DecodeFrom(s, index).Ok?
    ensures Encode(DecodeFrom(s, index).value) == s[index..] <==> NoneTranslatable(s[index..])
    decreases |s| - index
  {
    if index < |s| {
      var (c, next) := DecodeUnit(s, index).value;
      var rest := DecodeFrom(s, next).value;
      var encoded := Encode([c] + rest);
      assert ([c] + rest)[1..] == rest;
      assert encoded == CodeWord(c) + Encode(rest);
      UnitReencodes(s, index);
      if Translatable(s[index]) {
        assert encoded[0] == CodeWord(c)[0] != s[index..][0];
        assert s[index] in s[index..];
      } else {
        ReencodeFrom(s, next);
        assert s[index..] == s[index..next] + s[next..];
        if encoded == s[index..] {
          assert Encode(rest) == encoded[|CodeWord(c)|..] == s[next..];
        }
      }
    }
  }

  /** The check of the reverse direction: decode, encode again, compare. */
  predicate RoundTripsBack(s: string) {
    Decode(s).Ok? && Encode(Decode(s).value) == s
  }

  /** Equality after decoding and encoding again is a property of single characters, which is
      why it can be checked piece by piece. */
  lemma RoundTripsBackByCharacter(s: string)
    ensures RoundTripsBack(s) <==> Decode(s).Ok? && NoneTranslatable(s)
  {
    if Decode(s).Ok? {
      ReencodeFrom(s, 0);
      assert s[0..] == s;
    }
  }

  lemma {:induction false} EncodeFoldText(text: string)
    ensures Encode(FoldText(text)) == Encode(text)
  {
    if text != [] {
      EncodeFoldText(text[1..]);
      assert FoldText(text)[1..] == FoldText(text[1..]);
    }
  }

  /** The strings that survive decoding and encoding are exactly the encoder's outputs. */
  lemma BackwardRoundTrip(s: string)
    ensures RoundTripsBack(s) <==> exists text :: Encode(text) == s
  {
    if RoundTripsBack(s) {
      assert Encode(Decode(s).value) == s;
    }
    forall text | Encode(text) == s
      ensures RoundTripsBack(s)
    {
      DecodeEncode(text);
      EncodeFoldText(text);
    }
  }

  // ----- Sections

  /** What str.strip removes. */
  predicate IsSpace(c: char) {
    || '\t' <= c <= '\r' || '\U{1c}' <= c <= ' ' || c in {'\U{85}', '\U{a0}', '\U{1680}'}
    || '\U{2000}' <= c <= '\U{200a}' || c in {'\U{2028}', '\U{2029}', '\U{202f}', '\U{205f}', '\U{3000}'}
  }

  /** A heading line begins with `#`, so only its end can be stripped. */
  function Stripped(line: string): (r: string)
    ensures r <= line && (r != [] ==> !IsSpace(r[|r| - 1]))
    ensures forall i | |r| <= i < |line| :: IsSpace(line[i])
  {
    if line != [] && IsSpace(line[|line| - 1]) then Stripped(line[..|line| - 1]) else line
  }

  datatype Label = Document | Preamble | Heading(title: string)

  datatype Section = Section(title: Label, body: string)

  function HashRun(s: string, index: nat): (end: nat)
    requires index <= |s|
    ensures index <= end <= |s|
    decreases |s| - index
  {
    if index < |s| && s[index] == '#' then HashRun(s, index + 1) else index
  }

  /** A line that starts with one to six `#` followed by a space. */
  predicate IsHeadingAt(s: string, index: nat)
    requires index <= |s|
  {
    var end := HashRun(s, index);
    && (index == 0 || s[index - 1] == '\n')
    && 1 <= end - index <= 6
    && end < |s| && s[end] == ' '
  }

  /** One to six `#` and a space, at the start of a line. */
  lemma HeadingMeans(s: string, index: nat)
    requires index <= |s|
    ensures IsHeadingAt(s, index) <==>
      && (index == 0 || s[index - 1] == '\n')
      && exists end: nat | index + 1 <= end <= index + 6 && end < |s| ::
           s[end] == ' ' && forall i | index <= i < end :: s[i] == '#'
  {
    HashRunIsHashes(s, index);
    if end: nat :| index + 1 <= end <= index + 6 && end < |s| && s[end] == ' ' && forall i | index <= i < end ::
      s[i] == '#' {
      HashRunEnds(s, index, end);
    }
  }

  lemma {:induction false} HashRunEnds(s: string, p: nat, end: nat)
    requires p <= end < |s| && s[end] != '#' && forall i | p <= i < end :: s[i] == '#'
    ensures HashRun(s, p) == end
    decreases end - p
  {
    if p < end {
      HashRunEnds(s, p + 1, end);
    }
  }

  function LineEnd(s: string, index: nat): (end: nat)
    requires index <= |s|
    ensures index <= end <= |s|
    decreases |s| - index
  {
    if index < |s| && s[index] != '\n' then LineEnd(s, index + 1) else index
  }

  /** The start of every heading line, in order. */
  function HeadingStarts(s: string, from: nat): (starts: seq<nat>)
    requires from <= |s|
    ensures forall i | 0 <= i < |starts| :: from <= starts[i] < |s| && IsHeadingAt(s, starts[i])
    ensures forall i, j | 0 <= i < j < |starts| :: starts[i] < starts[j]
    ensures forall p | from <= p < |s| && IsHeadingAt(s, p) :: p in starts
    decreases |s| - from
  {
    if from == |s| then []
    else if IsHeadingAt(s, from) then [from] + HeadingStarts(s, from + 1)
    else HeadingStarts(s, from + 1)
  }

  function Bodies(sections: seq<Section>): string {
    if sections == [] then [] else sections[0].body + Bodies(sections[1..])
  }

  lemma {:induction false} BodiesAppend(a: seq<Section>, b: seq<Section>)
    ensures Bodies(a + b) == Bodies(a) + Bodies(b)
  {
    if a == [] {
      assert a + b == b;
    } else {
      var rest := a[1..] + b;
      assert a + b == [a[0]] + rest;
      BodiesAppend(a[1..], b);
      assert Bodies(a + b) == a[0].body + Bodies(rest);
    }
  }

  /** No section but the last can end inside a code word: it ends with a newline. */
  predicate LineAligned(sections: seq<Section>) {
    forall i | 0 <= i < |sections| - 1 :: EndsLine(sections[i].body)
  }

  predicate EndsLine(body: string) {
    body != [] && body[|body| - 1] == '\n'
  }

  /** The section starts with the heading line that gives it its title. */
  predicate HeadingLed(section: Section) {
    && section.title.Heading?
    && IsHeadingAt(section.body, 0)
    && section.title.title == Stripped(section.body[..LineEnd(section.body, 0)])
  }

  /** Where the section with the `i`-th heading ends. */
  function EndOf(text: string, starts: seq<nat>, i: nat): (end: nat)
    requires forall k | 0 <= k < |starts| :: starts[k] < |text|
    requires forall k, m | 0 <= k < m < |starts| :: starts[k] < starts[m]
    requires i < |starts|
    ensures starts[i] < end <= |text|
  {
    if i + 1 < |starts| then starts[i + 1] else |text|
  }

  function SectionAt(text: string, starts: seq<nat>, i: nat): Section
    requires forall k | 0 <= k < |starts| :: starts[k] < |text|
    requires forall k, m | 0 <= k < m < |starts| :: starts[k] < starts[m]
    requires i < |starts|
  {
    Section(Heading(Stripped(text[starts[i]..LineEnd(text, starts[i])])), text[starts[i]..EndOf(text, starts, i)])
  }

  lemma SliceFits(text: string, start: nat, end: nat)
    requires start < end <= |text| && IsHeadingAt(text, start) && (end < |text| ==> IsHeadingAt(text, end))
    ensures HeadingLed(Section(Heading(Stripped(text[start..LineEnd(text, start)])), text[start..end]))
    ensures text[..end] == text[..start] + text[start..end]
    ensures end < |text| ==> EndsLine(text[start..end])
  {
    hide Stripped, IsHeadingAt, LineEnd, HeadingLed, EndsLine;
    if end < |text| {
      HeadingFollowsNewline(text, end);
      SliceEndsLine(text, start, end);
    }
    HeadingInSlice(text, start, end);
  }

  lemma SectionFits(text: string, starts: seq<nat>, i: nat)
    requires i < |starts| && starts == HeadingStarts(text, 0)
    ensures var section, end := SectionAt(text, starts, i), EndOf(text, starts, i);
            && section.body == text[starts[i]..end] && HeadingLed(section)
            && text[..end] == text[..starts[i]] + section.body
            && if i + 1 < |starts| then end == starts[i + 1] && EndsLine(section.body) else end == |text|
  {
    hide Stripped, IsHeadingAt, LineEnd, HeadingStarts, HeadingLed, EndsLine;
    SliceFits(text, starts[i], EndOf(text, starts, i));
  }

  /** Without a heading line one section; else one for each, which leads it and gives it its title and ends where
      the next begins, after a preamble if the text does not start with one. */
  ghost predicate CutAtHeadings(text: string, sections: seq<Section>) {
    var starts := HeadingStarts(text, 0);
    if starts == [] then sections == [Section(Document, text)]
    else
      var lead := if starts[0] > 0 then 1 else 0;
      && |sections| == lead + |starts|
      && (lead == 1 ==> sections[0] == Section(Preamble, text[..starts[0]]))
      && (forall section | section in sections[lead..] :: HeadingLed(section))
      && (forall i | 0 <= i < |starts| :: sections[lead..][i].body == text[starts[i]..EndOf(text, starts, i)])
  }

  lemma SectionsFit(text: string, starts: seq<nat>, result: seq<Section>, lead: nat)
    requires starts == HeadingStarts(text, 0) != [] && |result| == lead + |starts|
    requires lead == if starts[0] > 0 then 1 else 0
    requires lead == 1 ==> result[0] == Section(Preamble, text[..starts[0]])
    requires forall i | 0 <= i < |starts| :: result[lead + i] == SectionAt(text, starts, i)
    ensures CutAtHeadings(text, result)
  {
    hide SectionAt, EndOf, IsHeadingAt, LineEnd, HeadingStarts, HeadingLed, EndsLine;
    forall i | 0 <= i < |starts|
      ensures HeadingLed(result[lead..][i])
      ensures result[lead..][i].body == text[starts[i]..EndOf(text, starts, i)]
    {
      SectionFits(text, starts, i);
      assert result[lead..][i] == result[lead + i];
    }
  }

  method Sections(text: string) returns (result: seq<Section>)
    ensures Bodies(result) == text
    ensures LineAligned(result)
    ensures CutAtHeadings(text, result)
  {
    hide SectionAt, EndOf, IsHeadingAt, LineEnd, HeadingStarts, HeadingLed, EndsLine, LineAligned, Bodies,
      CutAtHeadings;
    var matches := HeadingStarts(text, 0);
    result := [];
    NoSections();
    if matches == [] {
      OneSection(Section(Document, text));
      NoHeadings(text);
      return [Section(Document, text)];
    }
    if matches[0] > 0 {
      OneSection(Section(Preamble, text[..matches[0]]));
      HeadingFollowsNewline(text, matches[0]);
      result := [Section(Preamble, text[..matches[0]])];
    }
    ghost var lead := |result|;
    for index := 0 to |matches|
      invariant |result| == lead + index && lead == if matches[0] > 0 then 1 else 0
      invariant Bodies(result) == text[..if index < |matches| then matches[index] else |text|]
      invariant LineAligned(result)
      invariant index < |matches| && result != [] ==> EndsLine(result[|result| - 1].body)
      invariant lead == 1 ==> result[0] == Section(Preamble, text[..matches[0]])
      invariant forall i | 0 <= i < index :: result[lead + i] == SectionAt(text, matches, i)
    {
      var section := SectionAt(text, matches, index);
      SectionFits(text, matches, index);
      AppendSection(result, section);
      result := result + [section];
    }
    assert text[..|text|] == text;
    SectionsFit(text, matches, result, lead);
  }

  lemma OneSection(section: Section)
    ensures LineAligned([section]) && Bodies([section]) == section.body
  {
    BodyOfOne(section);
  }

  lemma NoHeadings(text: string)
    requires HeadingStarts(text, 0) == []
    ensures CutAtHeadings(text, [Section(Document, text)])
  {
    hide HeadingStarts;
  }

  lemma HeadingFollowsNewline(text: string, p: nat)
    requires 0 < p <= |text| && IsHeadingAt(text, p)
    ensures EndsLine(text[..p])
  {
  }

  lemma SliceEndsLine(text: string, start: nat, end: nat)
    requires start < end <= |text| && EndsLine(text[..end])
    ensures EndsLine(text[start..end])
  {
  }

  lemma AppendSection(sections: seq<Section>, section: Section)
    requires LineAligned(sections)
    requires sections != [] ==> EndsLine(sections[|sections| - 1].body)
    ensures LineAligned(sections + [section])
    ensures Bodies(sections + [section]) == Bodies(sections) + section.body
  {
    hide EndsLine, Bodies;
    BodiesAppend(sections, [section]);
    BodyOfOne(section);
    var extended := sections + [section];
    forall i | 0 <= i < |extended| - 1
      ensures EndsLine(extended[i].body)
    {
      assert extended[i] == sections[i];
    }
  }

  lemma BodyOfOne(section: Section)
    ensures Bodies([section]) == section.body
  {
    assert Bodies([section]) == section.body + [];
  }

  lemma NoSections()
    ensures LineAligned([]) && Bodies([]) == []
  {
  }

  /** A heading line lies wholly inside its section. */
  lemma HeadingInSlice(text: string, start: nat, end: nat)
    requires start < end <= |text| && IsHeadingAt(text, start)
    requires end == |text| || EndsLine(text[..end])
    ensures LineEnd(text, start) <= end
    ensures HeadingLed(Section(Heading(Stripped(text[start..LineEnd(text, start)])), text[start..end]))
  {
    hide Stripped;
    HashRunInSlice(text, start, start, end);
    LineEndInSlice(text, start, start, end);
    HashRunIsHashes(text, start);
    assert text[start..end][..LineEnd(text, start) - start] == text[start..LineEnd(text, start)];
  }

  lemma {:induction false} HashRunIsHashes(text: string, p: nat)
    requires p <= |text|
    ensures forall i | p <= i < HashRun(text, p) :: text[i] == '#'
    decreases |text| - p
  {
    if p < |text| && text[p] == '#' {
      HashRunIsHashes(text, p + 1);
    }
  }

  lemma {:induction false} HashRunInSlice(text: string, start: nat, p: nat, end: nat)
    requires start <= p <= end <= |text|
    ensures HashRun(text[start..end], p - start) + start == if HashRun(text, p) <= end then HashRun(text, p) else end
    decreases end - p
  {
    if p < end {
      assert text[start..end][p - start] == text[p];
      if text[p] == '#' {
        HashRunInSlice(text, start, p + 1, end);
      }
    }
  }

  lemma {:induction false} LineEndInSlice(text: string, start: nat, p: nat, end: nat)
    requires start <= p <= end <= |text|
    requires end == |text| || (start < end && text[end - 1] == '\n')
    requires p == end ==> end == |text|
    ensures LineEnd(text[start..end], p - start) + start == LineEnd(text, p)
    decreases end - p
  {
    if p < end {
      assert text[start..end][p - start] == text[p];
      if text[p] != '\n' {
        LineEndInSlice(text, start, p + 1, end);
      }
    }
  }

  // ----- The check

  /** What `main` demands of the whole file before it writes anything. */
  predicate SelfCheck(source: string, reverse: bool) {
    if reverse then RoundTripsBack(source) else Decode(Encode(source)) == Ok(source)
  }

  predicate AllPass(sections: seq<Section>, reverse: bool) {
    forall i | 0 <= i < |sections| :: SelfCheck(sections[i].body, reverse)
  }

  lemma AllPassPrefix(sections: seq<Section>, i: nat, reverse: bool)
    requires i < |sections|
    ensures AllPass(sections[..i + 1], reverse) <==>
      AllPass(sections[..i], reverse) && SelfCheck(sections[i].body, reverse)
  {
    hide SelfCheck;
    assert sections[..i + 1] == sections[..i] + [sections[i]];
    if AllPass(sections[..i + 1], reverse) {
      forall k | 0 <= k < i
        ensures SelfCheck(sections[..i][k].body, reverse)
      {
        assert sections[..i][k] == sections[..i + 1][k];
      }
      assert SelfCheck(sections[..i + 1][i].body, reverse);
    }
  }

  /** A newline is never the first half of a code word, so decoding does not reach across it. */
  lemma {:induction false} DecodeAppendFrom(a: string, b: string, index: nat)
    requires EndsLine(a) && index <= |a|
    ensures DecodeFrom(a + b, index).Ok? <==> DecodeFrom(a, index).Ok? && Decode(b).Ok?
    decreases |a| - index
  {
    hide LetterMask, FindLetter, FindDigit;
    if index == |a| {
      DecodeShift(a, b, 0);
    } else {
      assert DecodeUnit(a + b, index) == DecodeUnit(a, index);
      match DecodeUnit(a, index)
      case Err(_) =>
      case Ok((_, next)) => DecodeAppendFrom(a, b, next);
    }
  }

  lemma {:induction false} DecodeShift(a: string, b: string, index: nat)
    requires index <= |b|
    ensures DecodeFrom(a + b, |a| + index).Ok? <==> DecodeFrom(b, index).Ok?
    decreases |b| - index
  {
    hide LetterMask, FindLetter, FindDigit;
    if index < |b| {
      match DecodeUnit(b, index)
      case Err(_) =>
      case Ok((_, next)) => DecodeShift(a, b, next);
    }
  }

  /** Checking the sections of a document is checking the document, in both directions. */
  lemma {:induction false} SectionsDecideWhole(sections: seq<Section>, reverse: bool)
    requires LineAligned(sections)
    ensures AllPass(sections, reverse) <==> SelfCheck(Bodies(sections), reverse)
  {
    if sections == [] {
    } else if |sections| == 1 {
      assert Bodies(sections) == sections[0].body + [] == sections[0].body;
    } else {
      var a, rest := sections[0].body, sections[1..];
      var b := Bodies(rest);
      assert LineAligned(rest) by {
        forall i | 0 <= i < |rest| - 1
          ensures EndsLine(rest[i].body)
        {
          assert rest[i] == sections[i + 1];
        }
      }
      SectionsDecideWhole(rest, reverse);
      assert AllPass(sections, reverse) <==> SelfCheck(a, reverse) && AllPass(rest, reverse) by {
        assert forall i | 0 < i < |sections| :: sections[i] == rest[i - 1];
      }
      if reverse {
        RoundTripsBackByCharacter(a);
        RoundTripsBackByCharacter(b);
        RoundTripsBackByCharacter(a + b);
        DecodeAppendFrom(a, b, 0);
        assert NoneTranslatable(a + b) <==> NoneTranslatable(a) && NoneTranslatable(b);
      } else {
        ForwardRoundTrip(a);
        ForwardRoundTrip(b);
        ForwardRoundTrip(a + b);
      }
    }
  }

  datatype CheckError = CheckError(heading: Label, error: CodecError)

  method CheckSection(section: string, reverse: bool) returns (error: Option<CodecError>)
    ensures error.None? <==> SelfCheck(section, reverse)
  {
    if reverse {
      var restored := TranslateBack(section);
      if restored.Err? {
        return Some(restored.error);
      }
      var again := Translate(restored.value);
      return if again != section then Some(ReencodingChanged) else None;
    } else {
      var encoded := Translate(section);
      var decoded := TranslateBack(encoded);
      if decoded.Err? {
        return Some(decoded.error);
      }
      return if decoded.value != section then Some(DecodingChanged) else None;
    }
  }

  /** `--check` reports nothing exactly when a conversion of the file would pass. */
  method CheckDocument(source: string, reverse: bool) returns (errors: seq<CheckError>)
    ensures errors == [] <==> SelfCheck(source, reverse)
  {
    hide SelfCheck, HeadingStarts, HeadingLed, LineAligned, CutAtHeadings;
    var sections := Sections(source);
    errors := [];
    for i := 0 to |sections|
      invariant errors == [] <==> AllPass(sections[..i], reverse)
    {
      var error := CheckSection(sections[i].body, reverse);
      AllPassPrefix(sections, i, reverse);
      if error.Some? {
        errors := errors + [CheckError(sections[i].title, error.value)];
      }
    }
    assert sections[..|sections|] == sections;
    SectionsDecideWhole(sections, reverse);
  }

  /** The tail of `main`: a file is written only after the whole-file self-check. */
  method Convert(source: string, reverse: bool) returns (r: Result<string>)
    ensures r.Ok? <==> SelfCheck(source, reverse)
    ensures r.Ok? ==> if reverse then Encode(r.value) == source else Decode(r.value) == Ok(source)
  {
    if reverse {
      r := TranslateBack(source);
      if r.Ok? {
        var again := Translate(r.value);
        if again != source {
          r := Err(ReencodingChanged);
        }
      }
    } else {
      var converted := Translate(source);
      var decoded := TranslateBack(converted);
      r := if decoded == Ok(source) then Ok(converted)
        else if decoded.Err? then Err(decoded.error) else Err(DecodingChanged);
    }
  }
}
