/** ESI names: "ESI" followed by the registration counter in decimal. */
module Names {

  function DigitChar(d: nat): char
    requires d < 10
  {
    ['0', '1', '2', '3', '4', '5', '6', '7', '8', '9'][d]
  }

  function Digits(n: nat): (s: string) {
    if n < 10 then [DigitChar(n)] else Digits(n / 10) + [DigitChar(n % 10)]
  }

  /** What `sprintf` prints for "%d". */
  function Decimal(i: int): string {
    if i < 0 then "-" + Digits(-i) else Digits(i)
  }

  function NameOf(i: int): string {
    "ESI" + Decimal(i)
  }

  function LowerChar(c: char): char {
    if 'A' <= c <= 'Z' then (c as int + 32) as char else c
  }

  function Lower(s: string): (r: string)
    ensures |r| == |s|
  {
    seq(|s|, i requires 0 <= i < |s| => LowerChar(s[i]))
  }

  /** `string_equals_ignore_case`. */
  predicate EqualsIgnoreCase(a: string, b: string) {
    Lower(a) == Lower(b)
  }

  /** The number a run of decimal digits stands for. */
  function Value(s: string): int {
    if s == [] then 0 else 10 * Value(s[..|s| - 1]) + (s[|s| - 1] as int - '0' as int)
  }

  lemma {:induction false} DigitsRoundTrip(n: nat)
    ensures Value(Digits(n)) == n
    ensures |Digits(n)| > 0
    ensures forall i :: 0 <= i < |Digits(n)| ==> '0' <= Digits(n)[i] <= '9'
  {
    if n < 10 {
      assert Digits(n)[..0] == [];
    } else {
      DigitsRoundTrip(n / 10);
      var s := Digits(n);
      assert s[..|s| - 1] == Digits(n / 10);
    }
  }

  /** A decimal numeral: digits only, and no zero in front of others. */
  predicate Numeral(s: string) {
    s != [] && (forall i :: 0 <= i < |s| ==> '0' <= s[i] <= '9') && (|s| > 1 ==> s[0] != '0')
  }

  /** Of the numerals exactly one stands for a number, and that is the one printed. */
  lemma {:induction false} DigitsIff(n: nat, s: string)
    ensures Numeral(s) && Value(s) == n <==> s == Digits(n)
  {
    DigitsRoundTrip(n);
    NoLeadingZero(n);
    if Numeral(s) && Value(s) == n {
      NumeralIsDigits(s);
    }
  }

  lemma {:induction false} NoLeadingZero(n: nat)
    ensures Digits(0) == "0"
    ensures n > 0 ==> Digits(n)[0] != '0'
    ensures n < 10 ==> |Digits(n)| == 1
  {
    if n >= 10 {
      NoLeadingZero(n / 10);
    }
  }

  lemma {:induction false} NumeralIsDigits(s: string)
    requires Numeral(s)
    ensures Value(s) >= 0 && (|s| > 1 ==> Value(s) >= 10) && s == Digits(Value(s))
  {
    hide Digits, DigitChar;
    var front, c := s[..|s| - 1], s[|s| - 1];
    var d := c as int - '0' as int;
    assert s == front + [c];
    DigitOf(c);
    if front == [] {
      assert Value(front) == 0;
      OneDigit(d);
    } else {
      NumeralIsDigits(front);
      FrontPositive(front);
      MoreDigits(Value(front), d);
    }
  }

  lemma DigitOf(c: char)
    requires '0' <= c <= '9'
    ensures DigitChar(c as int - '0' as int) == c
  {}

  lemma OneDigit(d: nat)
    requires d < 10
    ensures Digits(d) == [DigitChar(d)]
  {}

  lemma MoreDigits(v: int, d: int)
    requires v >= 1 && 0 <= d < 10
    ensures Digits(10 * v + d) == Digits(v) + [DigitChar(d)]
  {
    assert (10 * v + d) / 10 == v && (10 * v + d) % 10 == d;
  }

  lemma {:induction false} FrontPositive(s: string)
    requires Numeral(s) && s[0] != '0'
    ensures Value(s) >= 1
  {
    if |s| > 1 {
      FrontPositive(s[..|s| - 1]);
    } else {
      assert s[..0] == [];
    }
  }

  /** The text of a name: "ESI", a minus sign if the number is negative, and the numeral of its amount. */
  predicate IsNameOf(name: string, i: int) {
    && |name| >= 4 && name[0] == 'E' && name[1] == 'S' && name[2] == 'I'
    && if i < 0 then name[3] == '-' && Numeral(name[4..]) && Value(name[4..]) == -i
       else Numeral(name[3..]) && Value(name[3..]) == i
  }

  /** That text and no other is the name. */
  lemma NameIff(i: int, name: string)
    ensures IsNameOf(name, i) <==> name == NameOf(i)
  {
    hide Digits, Value, Numeral;
    if i < 0 {
      DigitsIff(-i, Digits(-i));
      Prefixed("ESI-", Digits(-i), name);
      assert NameOf(i) == "ESI-" + Digits(-i);
      if |name| >= 4 {
        DigitsIff(-i, name[4..]);
      }
    } else {
      DigitsIff(i, Digits(i));
      DigitsRoundTrip(i);
      Prefixed("ESI", Digits(i), name);
      if |name| >= 4 {
        DigitsIff(i, name[3..]);
      }
    }
  }

  lemma Prefixed(front: string, back: string, name: string)
    ensures (front + back)[|front|..] == back
    ensures name == front + back <==>
            |name| >= |front| && (forall k :: 0 <= k < |front| ==> name[k] == front[k]) && name[|front|..] == back
  {
    if |name| >= |front| && (forall k :: 0 <= k < |front| ==> name[k] == front[k]) {
      assert name == front + name[|front|..];
    }
  }

  /** Two texts are equal up to case if they have the same length and at each place the same character, or the same
      letter once small and once capital. */
  lemma CaseIff(a: string, b: string)
    ensures EqualsIgnoreCase(a, b) <==>
            |a| == |b| && forall k :: 0 <= k < |a| ==> a[k] == b[k] || SameLetter(a[k], b[k]) || SameLetter(b[k], a[k])
  {
    if |a| == |b| {
      forall k | 0 <= k < |a|
        ensures LowerChar(a[k]) == LowerChar(b[k]) <==>
                a[k] == b[k] || SameLetter(a[k], b[k]) || SameLetter(b[k], a[k])
      {
        CharIff(a[k], b[k]);
      }
      if forall k :: 0 <= k < |a| ==> LowerChar(a[k]) == LowerChar(b[k]) {
        assert Lower(a) == Lower(b);
      } else {
        var k :| 0 <= k < |a| && LowerChar(a[k]) != LowerChar(b[k]);
        assert Lower(a)[k] != Lower(b)[k];
      }
    }
  }

  predicate SameLetter(capital: char, small: char) {
    'A' <= capital <= 'Z' && small as int - 'a' as int == capital as int - 'A' as int
  }

  lemma CharIff(c: char, d: char)
    ensures LowerChar(c) == LowerChar(d) <==> c == d || SameLetter(c, d) || SameLetter(d, c)
  {}

  lemma DecimalInjective(i: int, j: int)
    requires Decimal(i) == Decimal(j)
    ensures i == j
  {
    DigitsRoundTrip(if i < 0 then -i else i);
    DigitsRoundTrip(if j < 0 then -j else j);
    assert i < 0 <==> Decimal(i)[0] == '-';
    assert j < 0 <==> Decimal(j)[0] == '-';
    if i < 0 {
      assert Digits(-i) == Decimal(i)[1..] && Digits(-j) == Decimal(j)[1..];
    }
  }

  lemma LowerName(i: int)
    ensures Lower(NameOf(i)) == "esi" + Decimal(i)
  {
    DigitsRoundTrip(if i < 0 then -i else i);
    forall k | 0 <= k < |NameOf(i)|
      ensures Lower(NameOf(i))[k] == ("esi" + Decimal(i))[k]
    {
      if k >= 3 {
        assert NameOf(i)[k] == Decimal(i)[k - 3];
      }
    }
  }

  /** Two registrations never share a name, not even when case is ignored. */
  lemma NamesDistinct(i: int, j: int)
    ensures NameOf(i) == NameOf(j) <==> i == j
    ensures EqualsIgnoreCase(NameOf(i), NameOf(j)) <==> i == j
    ensures NameOf(i) != ""
  {
    LowerName(i);
    LowerName(j);
    if EqualsIgnoreCase(NameOf(i), NameOf(j)) {
      assert Decimal(i) == ("esi" + Decimal(i))[3..] == ("esi" + Decimal(j))[3..] == Decimal(j);
      DecimalInjective(i, j);
    }
  }
}
