/** Decimal numerals as the Go formatting verbs `%d` and `%03d` write them and Atoi reads them. */
module Decimal {

  predicate IsDigit(c: char) {
    '0' <= c <= '9'
  }

  predicate AllDigits(s: string) {
    forall i | 0 <= i < |s| :: IsDigit(s[i])
  }

  function DigitChar(d: nat): (c: char)
    requires d < 10
    ensures IsDigit(c)
  {
    '0' + d as char
  }

  /** `%d` of a number that is not negative. */
  function Digits(n: nat): (s: string)
    ensures s != [] && AllDigits(s)
  {
    if n < 10 then [DigitChar(n)] else Digits(n / 10) + [DigitChar(n % 10)]
  }

  /** The number that a run of digits spells. */
  function Value(s: string): nat
    requires AllDigits(s)
  {
    if s == [] then 0 else 10 * Value(s[..|s| - 1]) + (s[|s| - 1] - '0') as nat
  }

  /** `%03d` of a number that is not negative. */
  function Pad3(n: nat): string {
    var s := Digits(n);
    if |s| == 1 then "00" + s else if |s| == 2 then "0" + s else s
  }

  lemma {:induction false} ValueOfDigits(n: nat)
    ensures Value(Digits(n)) == n
  {
    if n < 10 {
      assert [DigitChar(n)][..0] == [];
    } else {
      ValueOfDigits(n / 10);
      assert Digits(n)[..|Digits(n)| - 1] == Digits(n / 10);
    }
  }

  lemma {:induction false} LeadingZero(s: string)
    requires AllDigits(s)
    ensures Value("0" + s) == Value(s)
  {
    if s == [] {
      assert ("0" + s)[..0] == [];
    } else {
      LeadingZero(s[..|s| - 1]);
      assert ("0" + s)[..|s|] == "0" + s[..|s| - 1];
    }
  }

  lemma ValueOfPad3(n: nat)
    ensures AllDigits(Pad3(n)) && |Pad3(n)| >= 3 && Value(Pad3(n)) == n
  {
    ValueOfDigits(n);
    LeadingZero(Digits(n));
    LeadingZero("0" + Digits(n));
    assert "0" + ("0" + Digits(n)) == "00" + Digits(n);
  }

  /** Without a leading zero, a numeral is the only spelling of its number. */
  lemma {:induction false} DigitsOfValue(s: string)
    requires AllDigits(s) && s != [] && (|s| == 1 || s[0] != '0')
    ensures Digits(Value(s)) == s && (s[0] != '0' ==> Value(s) > 0)
  {
    var front := s[..|s| - 1];
    if |s| == 1 {
      assert Value(front) == 0;
    } else {
      DigitsOfValue(front);
      assert s == front + [s[|s| - 1]];
    }
  }

  /** Among the numerals of three or more digits, `%03d` produces exactly those without an overlong
      leading zero. */
  lemma Pad3IsCanonical(s: string)
    requires AllDigits(s) && |s| >= 3
    ensures Pad3(Value(s)) == s <==> |s| == 3 || s[0] != '0'
  {
    hide Value, Digits;
    if s[0] != '0' {
      DigitsOfValue(s);
    } else {
      LeadingZero(s[1..]);
      assert s == "0" + s[1..];
      if |s| == 3 {
        if s[1] != '0' {
          DigitsOfValue(s[1..]);
        } else {
          LeadingZero(s[2..]);
          assert s[1..] == "0" + s[2..];
          DigitsOfValue(s[2..]);
        }
      } else {
        DigitsLength(s[1..]);
      }
    }
  }

  lemma {:induction false} DigitsLength(s: string)
    requires AllDigits(s) && s != []
    ensures |Digits(Value(s))| <= |s|
  {
    if |s| == 1 {
      assert s[..0] == [];
    } else {
      DigitsLength(s[..|s| - 1]);
    }
  }
}
