/** The C library's `atoi`, which the workbook code applies to every numeric
    attribute: leading white space is skipped, one optional sign is read,
    then the longest run of decimal digits; text with no digits reads as 0. */
module CString {

  /** The characters C's `isspace` accepts in the "C" locale. */
  predicate IsSpace(c: char)
  {
    c == ' ' || c == '\t' || c == '\n' || c == '\U{000B}' || c == '\U{000C}' || c == '\r'
  }

  predicate IsDigit(c: char)
  {
    '0' <= c <= '9'
  }

  predicate AllDigits(d: string)
  {
    forall k :: 0 <= k < |d| ==> IsDigit(d[k])
  }

  /** `s` without its leading white space. */
  function SkipSpace(s: string): (t: string)
    ensures |t| <= |s| && t == s[|s| - |t|..]
    ensures t == [] || !IsSpace(t[0])
    ensures forall k :: 0 <= k < |s| - |t| ==> IsSpace(s[k])
  {
    if s != [] && IsSpace(s[0]) then SkipSpace(s[1..]) else s
  }

  /** The longest prefix of `s` made of decimal digits. */
  function LeadingDigits(s: string): (d: string)
    ensures d <= s && AllDigits(d)
    ensures |d| < |s| ==> !IsDigit(s[|d|])
  {
    if s != [] && IsDigit(s[0]) then [s[0]] + LeadingDigits(s[1..]) else []
  }

  /** The number a string of decimal digits denotes. */
  function DigitsValue(d: string): nat
    requires AllDigits(d)
  {
    if d == [] then 0
    else 10 * DigitsValue(d[..|d| - 1]) + (d[|d| - 1] - '0') as int
  }

  function Atoi(s: string): int
  {
    var t := SkipSpace(s);
    if t != [] && t[0] == '-' then -(DigitsValue(LeadingDigits(t[1..])) as int)
    else if t != [] && t[0] == '+' then DigitsValue(LeadingDigits(t[1..]))
    else DigitsValue(LeadingDigits(t))
  }

  /** The decimal rendering of `n`, without sign or leading zeros: a helper
      for stating that atoi reads every such numeral back. */
  function Decimal(n: nat): (s: string)
    ensures s != [] && AllDigits(s)
  {
    var last := ['0' + (n % 10) as char];
    if n < 10 then last else Decimal(n / 10) + last
  }

  lemma {:induction false} LeadingDigitsOfDigits(d: string)
    requires AllDigits(d)
    ensures LeadingDigits(d) == d
  {
    if d != [] {
      LeadingDigitsOfDigits(d[1..]);
    }
  }

  lemma {:induction false} DigitsValueOfDecimal(n: nat)
    ensures DigitsValue(Decimal(n)) == n
  {
    var s := Decimal(n);
    if n >= 10 {
      DigitsValueOfDecimal(n / 10);
      assert s[..|s| - 1] == Decimal(n / 10);
    }
  }

  /** atoi reads back every number that is written in decimal. */
  lemma AtoiDecimal(n: nat)
    ensures Atoi(Decimal(n)) == n
  {
    var s := Decimal(n);
    assert SkipSpace(s) == s;
    LeadingDigitsOfDigits(s);
    DigitsValueOfDecimal(n);
  }

  /** A digit string of value 0 is made of zeros only. */
  lemma {:induction false} DigitsValueZero(d: string)
    requires AllDigits(d)
    ensures DigitsValue(d) == 0 <==> forall k :: 0 <= k < |d| ==> d[k] == '0'
  {
    if d != [] {
      var p := d[..|d| - 1];
      DigitsValueZero(p);
      assert forall k :: 0 <= k < |p| ==> p[k] == d[k];
    }
  }

  /** atoi reads the value of the digits after the white space and the
      optional sign, negated only after a minus sign. */
  lemma AtoiValue(s: string)
    ensures var t := SkipSpace(s);
      var signed := t != [] && (t[0] == '-' || t[0] == '+');
      var d := LeadingDigits(if signed then t[1..] else t);
      (Atoi(s) == DigitsValue(d) || Atoi(s) == -(DigitsValue(d) as int))
      && (Atoi(s) < 0 ==> t != [] && t[0] == '-')
  {
  }

  /** atoi gives a negative value exactly when, after the white space, a
      minus sign is followed by digits that are not all zeros. */
  lemma AtoiNegative(s: string)
    ensures var t := SkipSpace(s);
      Atoi(s) < 0 <==>
        t != [] && t[0] == '-' &&
        exists k :: 0 <= k < |LeadingDigits(t[1..])| && LeadingDigits(t[1..])[k] != '0'
  {
    var t := SkipSpace(s);
    if t != [] && t[0] == '-' {
      var d := LeadingDigits(t[1..]);
      assert Atoi(s) == -(DigitsValue(d) as int);
      DigitsValueZero(d);
      if DigitsValue(d) != 0 {
        var k :| 0 <= k < |d| && d[k] != '0';
        assert Atoi(s) < 0;
        assert 0 <= k < |LeadingDigits(t[1..])| && LeadingDigits(t[1..])[k] != '0';
      } else {
        assert !exists k :: 0 <= k < |d| && d[k] != '0';
      }
    } else {
      assert Atoi(s) >= 0;
    }
  }

  /** "-1" reads as -1. */
  lemma MinusOne()
    ensures Atoi("-1") == -1
  {
    var s := "-1";
    var u := s[1..];
    assert s[0] == '-' && !IsSpace(s[0]) && |u| == 1 && u[0] == '1' && u[1..] == [];
    assert IsDigit(u[0]);
    assert SkipSpace(s) == s;
    assert LeadingDigits(u[1..]) == [];
    assert LeadingDigits(u) == u;
    assert u[..0] == [];
    assert DigitsValue(u) == 1;
  }

  /** A string of zero or more zeros followed by a single one. */
  predicate ZerosThenOne(d: string)
  {
    |d| >= 1 && d[|d| - 1] == '1' && forall k :: 0 <= k < |d| - 1 ==> d[k] == '0'
  }

  /** A digit string has value 1 exactly when it is some zeros and then a one. */
  lemma DigitsValueOne(d: string)
    requires AllDigits(d)
    ensures DigitsValue(d) == 1 <==> ZerosThenOne(d)
  {
    if d != [] {
      var p := d[..|d| - 1];
      DigitsValueZero(p);
      assert forall k :: 0 <= k < |p| ==> p[k] == d[k];
    }
  }

  /** The texts atoi reads as 1: white space, an optional plus sign, any
      number of zeros, a one, and then anything that does not start with a
      digit. */
  predicate ReadsAsOne(s: string)
  {
    var t := SkipSpace(s);
    var u := if t != [] && t[0] == '+' then t[1..] else t;
    ZerosThenOne(LeadingDigits(u))
  }

  lemma AtoiIsOne(s: string)
    ensures Atoi(s) == 1 <==> ReadsAsOne(s)
  {
    var t := SkipSpace(s);
    if t != [] && t[0] == '-' {
      DigitsValueOne(LeadingDigits(t[1..]));
      assert LeadingDigits(t) == [];
    } else if t != [] && t[0] == '+' {
      DigitsValueOne(LeadingDigits(t[1..]));
    } else {
      DigitsValueOne(LeadingDigits(t));
    }
  }

  lemma OneSpellings()
    ensures ReadsAsOne("1") && ReadsAsOne("01") && ReadsAsOne(" +1")
  {
    PlainOne();
    ZeroPaddedOne();
    SignedOne();
  }

  lemma NotOneSpellings()
    ensures !ReadsAsOne("0") && !ReadsAsOne("true") && !ReadsAsOne("-1")
  {
    PlainZero();
    NoDigits();
    NegativeOne();
  }

  lemma PlainOne()
    ensures ReadsAsOne("1")
  {
    var s := "1";
    assert s[0] == '1' && |s| == 1 && s[1..] == [];
    assert !IsSpace(s[0]) && IsDigit(s[0]);
    assert SkipSpace(s) == s;
    assert LeadingDigits(s[1..]) == [];
    assert LeadingDigits(s) == s;
    assert ZerosThenOne(s);
  }

  lemma ZeroPaddedOne()
    ensures ReadsAsOne("01")
  {
    var s := "01";
    assert s[0] == '0' && s[1] == '1' && |s| == 2 && s[1..][1..] == [];
    assert !IsSpace(s[0]) && IsDigit(s[0]) && IsDigit(s[1]);
    assert SkipSpace(s) == s;
    assert LeadingDigits(s[1..][1..]) == [];
    assert LeadingDigits(s[1..]) == s[1..];
    assert LeadingDigits(s) == s;
    assert ZerosThenOne(s);
  }

  /** Leading white space and a plus sign are skipped before the digits. */
  lemma SignedOne()
    ensures ReadsAsOne(" +1")
  {
    var u := "1";
    var t := "+1";
    var s := " +1";
    assert |u| == 1 && u[0] == '1' && u[1..] == [];
    assert IsDigit(u[0]);
    assert LeadingDigits(u[1..]) == [];
    assert LeadingDigits(u) == u;
    assert ZerosThenOne(u);
    assert t[0] == '+' && t[1..] == u && !IsSpace(t[0]);
    assert SkipSpace(t) == t;
    assert s[0] == ' ' && s[1..] == t && IsSpace(s[0]);
    assert SkipSpace(s) == t;
  }

  lemma PlainZero()
    ensures !ReadsAsOne("0")
  {
    var s := "0";
    assert s[0] == '0' && |s| == 1 && s[1..] == [];
    assert !IsSpace(s[0]) && IsDigit(s[0]);
    assert SkipSpace(s) == s;
    assert LeadingDigits(s[1..]) == [];
    assert LeadingDigits(s) == s;
    assert !ZerosThenOne(s);
  }

  lemma NoDigits()
    ensures !ReadsAsOne("true")
  {
    var s := "true";
    assert s[0] == 't' && !IsSpace(s[0]) && !IsDigit(s[0]);
    assert SkipSpace(s) == s;
    assert LeadingDigits(s) == [];
    assert !ZerosThenOne([]);
  }

  /** A minus sign is not skipped when reading the flag as 1. */
  lemma NegativeOne()
    ensures !ReadsAsOne("-1")
  {
    var s := "-1";
    assert s[0] == '-' && !IsSpace(s[0]) && !IsDigit(s[0]);
    assert SkipSpace(s) == s;
    assert LeadingDigits(s) == [];
    assert !ZerosThenOne([]);
  }
}
