/**
 * The few pieces of JavaScript semantics the backend leans on: truthiness of
 * an optional string, the `||` default operator, the global `parseInt` applied
 * to a path parameter, and the decimal rendering of an integer in a template
 * literal (how clients build `/api/items/${id}`).
 */
module Js {
  import opened Wrappers

  /** JavaScript truthiness of an optional string: `undefined` and `""` are falsy. */
  predicate Falsy(v: Option<string>)
    ensures Falsy(v) <==> v in {None, Some("")}
  {
    v.None? || v.value == ""
  }

  /** `v || fallback` for an optional string value. */
  function OrElse(v: Option<string>, fallback: string): (r: string)
    ensures Falsy(v) ==> r == fallback
    ensures !Falsy(v) ==> r == v.value && r != ""
  {
    if Falsy(v) then fallback else v.value
  }

  predicate IsDigit(c: char)
  {
    '0' <= c <= '9'
  }

  predicate AllDigits(s: string)
  {
    forall i :: 0 <= i < |s| ==> IsDigit(s[i])
  }

  /** Length of the longest run of decimal digits at the start of `s`. */
  function LeadingDigits(s: string): (n: nat)
    ensures n <= |s|
    ensures AllDigits(s[..n])
    ensures n < |s| ==> !IsDigit(s[n])
  {
    if s != [] && IsDigit(s[0]) then 1 + LeadingDigits(s[1..]) else 0
  }

  /** The value of a string of decimal digits, most significant first. */
  function DigitsValue(ds: string): nat
    requires AllDigits(ds)
    decreases |ds|
  {
    if ds == [] then 0
    else 10 * DigitsValue(ds[..|ds| - 1]) + (ds[|ds| - 1] as int - '0' as int)
  }

  /** The text after an optional leading sign, and whether that sign was '-'. */
  function Unsigned(s: string): (r: (bool, string))
    ensures r.1 == s || (|s| > 0 && r.1 == s[1..])
  {
    if s != [] && s[0] == '-' then (true, s[1..])
    else if s != [] && s[0] == '+' then (false, s[1..])
    else (false, s)
  }

  /**
   * `parseInt(s)` for a path parameter: an optional sign followed by the
   * longest prefix of decimal digits; anything after that prefix is ignored,
   * and no digit at all gives NaN, written `None`.
   */
  function ParseInt(s: string): (r: Option<int>)
    ensures r.None? <==> (var u := Unsigned(s).1; u == [] || !IsDigit(u[0]))
    ensures r.Some? && !Unsigned(s).0 ==> r.value >= 0
    ensures r.Some? && Unsigned(s).0 ==> r.value <= 0
  {
    var (negative, rest) := Unsigned(s);
    var n := LeadingDigits(rest);
    if n == 0 then None
    else
      var magnitude: int := DigitsValue(rest[..n]);
      Some(if negative then -magnitude else magnitude)
  }

  function DigitChar(d: nat): (c: char)
    requires d < 10
    ensures IsDigit(c) && c as int - '0' as int == d
  {
    ('0' as int + d) as char
  }

  /** The decimal digits of a natural number, without leading zeros. */
  function NatToString(n: nat): (s: string)
    ensures s != [] && AllDigits(s)
    ensures s[0] == '0' ==> n == 0
    decreases n
  {
    if n < 10 then [DigitChar(n)] else NatToString(n / 10) + [DigitChar(n % 10)]
  }

  /** The rendering of an integer in a template literal, as in `${itemId}`. */
  function IntToString(n: int): (s: string)
    ensures s != []
    ensures n < 0 <==> s[0] == '-'
  {
    if n < 0 then "-" + NatToString(-n) else NatToString(n)
  }

  lemma {:induction false} DigitsValueOfNatToString(n: nat)
    ensures DigitsValue(NatToString(n)) == n
  {
    if n >= 10 {
      var s := NatToString(n);
      assert s[..|s| - 1] == NatToString(n / 10);
      DigitsValueOfNatToString(n / 10);
    }
  }

  lemma {:induction false} LeadingDigitsOfDigitsThen(ds: string, rest: string)
    requires AllDigits(ds)
    requires rest == [] || !IsDigit(rest[0])
    ensures LeadingDigits(ds + rest) == |ds|
  {
    if ds != [] {
      assert (ds + rest)[1..] == ds[1..] + rest;
      LeadingDigitsOfDigitsThen(ds[1..], rest);
    }
  }

  /**
   * Parsing what a template literal rendered gives the number back, whatever
   * non-digit text follows it.
   */
  lemma ParseIntOfIntToString(n: int, rest: string)
    requires rest == [] || !IsDigit(rest[0])
    ensures ParseInt(IntToString(n) + rest) == Some(n)
  {
    var m: nat := if n < 0 then -n else n;
    var ds := NatToString(m);
    LeadingDigitsOfDigitsThen(ds, rest);
    assert (ds + rest)[..|ds|] == ds;
    DigitsValueOfNatToString(m);
    if n < 0 {
      assert IntToString(n) + rest == "-" + (ds + rest);
      assert Unsigned(IntToString(n) + rest) == (true, ds + rest);
    } else {
      assert Unsigned(IntToString(n) + rest) == (false, ds + rest);
    }
  }

  /** The id a client puts into a path parses back to that id. */
  lemma ParseIntRoundTrip(n: int)
    ensures ParseInt(IntToString(n)) == Some(n)
  {
    ParseIntOfIntToString(n, "");
    assert IntToString(n) + "" == IntToString(n);
  }
}
