/** Decimal numerals and the object names built from them. */
module Text {

  datatype Option<+T> = None | Some(value: T)

  function Digit(d: nat): (c: char)
    requires d < 10
    ensures '0' <= c <= '9'
  {
    ('0' as int + d) as char
  }

  /** strconv.FormatInt(n, 10) for n >= 0. */
  function Decimal(n: nat): (s: string)
    ensures |s| > 0
    ensures forall i :: 0 <= i < |s| ==> '0' <= s[i] <= '9'
  {
    if n < 10 then [Digit(n)] else Decimal(n / 10) + [Digit(n % 10)]
  }

  function FormatInt(n: int): string {
    if n < 0 then "-" + Decimal(-n) else Decimal(n)
  }

  predicate IsNumeral(s: string) {
    |s| > 0 && forall i :: 0 <= i < |s| ==> '0' <= s[i] <= '9'
  }

  function NumeralValue(s: string): nat
    requires IsNumeral(s)
  {
    var last := s[|s| - 1] as int - '0' as int;
    if |s| == 1 then last else 10 * NumeralValue(s[..|s| - 1]) + last
  }

  const INT64_MIN: int := -0x8000_0000_0000_0000
  const INT64_MAX: int := 0x7fff_ffff_ffff_ffff

  /** strconv.ParseInt(s, 10, 64); None is its error. */
  function ParseInt(s: string): Option<int> {
    var signed := |s| > 0 && (s[0] == '-' || s[0] == '+');
    var digits := if signed then s[1..] else s;
    if !IsNumeral(digits) then None
    else
      var value: int := NumeralValue(digits);
      var n := if signed && s[0] == '-' then -value else value;
      if INT64_MIN <= n <= INT64_MAX then Some(n) else None
  }

  lemma {:induction false} DecimalValue(n: nat)
    ensures NumeralValue(Decimal(n)) == n
  {
    if n < 10 {
    } else {
      DecimalValue(n / 10);
      assert Decimal(n)[..|Decimal(n)| - 1] == Decimal(n / 10);
    }
  }

  lemma ParseDecimal(n: nat)
    requires n <= INT64_MAX
    ensures ParseInt(Decimal(n)) == Some(n)
  {
    assert '0' <= Decimal(n)[0] <= '9';
    DecimalValue(n);
  }

  lemma ParseNegative(n: nat)
    requires n <= -INT64_MIN
    ensures ParseInt("-" + Decimal(n)) == Some(0 - n)
  {
    assert ("-" + Decimal(n))[1..] == Decimal(n);
    assert IsNumeral(Decimal(n));
    DecimalValue(n);
  }

  /** Printing a 64-bit integer and parsing it back gives the integer. */
  lemma ParseFormat(n: int)
    requires INT64_MIN <= n <= INT64_MAX
    ensures ParseInt(FormatInt(n)) == Some(n)
  {
    if n < 0 {
      ParseNegative(-n);
    } else {
      ParseDecimal(n);
    }
  }

  lemma DecimalInjective(m: nat, n: nat)
    requires Decimal(m) == Decimal(n)
    ensures m == n
  {
    DecimalValue(m);
    DecimalValue(n);
  }

  /** A string splits at its last dash in one way only. */
  lemma LastDash(a: string, s: string, b: string, t: string)
    requires a + "-" + s == b + "-" + t
    requires '-' !in s && '-' !in t
    ensures a == b && s == t
  {
    var whole := a + "-" + s;
    var other := b + "-" + t;
    assert whole[|a|] == '-' && other[|b|] == '-';
    assert forall k :: |a| < k < |whole| ==> whole[k] == s[k - |a| - 1];
    assert forall k :: |b| < k < |other| ==> other[k] == t[k - |b| - 1];
    assert |a| == |b|;
    assert whole[..|a|] == a && other[..|b|] == b;
    assert whole[|a| + 1..] == s && other[|b| + 1..] == t;
  }
}

/** The names the operator gives to the objects it makes. */
module Naming {
  import opened Text

  /** The claim of one ordinal of a service, also the one its StatefulSet asks for. */
  function DataClaim(service: string, ordinal: int): string {
    "data-" + service + "-" + FormatInt(ordinal)
  }

  /** The claim a StatefulSet controller derives from a claim template and an ordinal. */
  function TemplateClaim(template: string, statefulSet: string, ordinal: nat): string {
    template + "-" + statefulSet + "-" + Decimal(ordinal)
  }

  function AutoSnapshot(service: string, now: nat): string {
    service + "-" + Decimal(now)
  }

  function Temp(name: string): string {
    "temp-" + name
  }

  lemma TempInjective(a: string, b: string)
    ensures Temp(a) == Temp(b) <==> a == b
    ensures Temp(a) != a
  {
    assert Temp(a)[5..] == a && Temp(b)[5..] == b;
  }

  lemma AutoSnapshotInjective(a: string, s: nat, b: string, t: nat)
    requires AutoSnapshot(a, s) == AutoSnapshot(b, t)
    ensures a == b && s == t
  {
    LastDash(a, Decimal(s), b, Decimal(t));
    DecimalInjective(s, t);
  }

  lemma DataClaimInjective(a: string, i: nat, b: string, j: nat)
    requires DataClaim(a, i) == DataClaim(b, j)
    ensures a == b && i == j
  {
    LastDash("data-" + a, Decimal(i), "data-" + b, Decimal(j));
    assert ("data-" + a)[5..] == a && ("data-" + b)[5..] == b;
    DecimalInjective(i, j);
  }

  lemma DataIsNotTemp(service: string, ordinal: int, name: string)
    ensures DataClaim(service, ordinal) != Temp(name)
  {
    assert DataClaim(service, ordinal)[0] == 'd';
    assert Temp(name)[0] == 't';
  }
}
