/**
 * `parse_duration`: a token of decimal digits followed by one unit letter
 * (`m`, `h` or `d`), matched against the whole string, becomes a number of
 * seconds; every other string is rejected.
 */
module Duration {
  import opened Common

  const SecondsPerMinute: nat := 60
  const SecondsPerHour: nat := 3600
  const SecondsPerDay: nat := 86400

  predicate IsDigit(c: char) { '0' <= c <= '9' }

  predicate AllDigits(s: string) { forall i :: 0 <= i < |s| ==> IsDigit(s[i]) }

  /** The unit letters the pattern `(\d+)([mhd])` admits. */
  predicate IsUnit(c: char) { c == 'm' || c == 'h' || c == 'd' }

  /** A string that the pattern `(\d+)([mhd])` matches in full. */
  predicate IsDurationToken(s: string)
  {
    |s| >= 2 && AllDigits(s[..|s| - 1]) && IsUnit(s[|s| - 1])
  }

  function DigitValue(c: char): nat
    requires IsDigit(c)
  {
    c as int - '0' as int
  }

  /** Python's `int(...)` on a run of ASCII digits (leading zeros allowed). */
  function DigitsValue(s: string): nat
    requires AllDigits(s)
  {
    if s == [] then 0 else DigitsValue(s[..|s| - 1]) * 10 + DigitValue(s[|s| - 1])
  }

  function UnitSeconds(u: char): nat
    requires IsUnit(u)
  {
    if u == 'm' then SecondsPerMinute
    else if u == 'h' then SecondsPerHour
    else SecondsPerDay
  }

  /**
   * The model of `parse_duration`: `Some(seconds)` exactly for the tokens
   * the full-match pattern accepts, `None` for every other string.
   */
  function ParseDuration(s: string): (r: Option<nat>)
    ensures r.Some? <==> IsDurationToken(s)
    ensures r.Some? ==> r.value == DigitsValue(s[..|s| - 1]) * UnitSeconds(s[|s| - 1])
  {
    if |s| < 2 || !AllDigits(s[..|s| - 1]) then None
    else
      var value, unit := DigitsValue(s[..|s| - 1]), s[|s| - 1];
      if unit == 'm' then Some(value * SecondsPerMinute)
      else if unit == 'h' then Some(value * SecondsPerHour)
      else if unit == 'd' then Some(value * SecondsPerDay)
      else None
  }

  /** Decimal rendering of a natural number, the inverse of `DigitsValue`. */
  function Digits(n: nat): (r: string)
    ensures |r| >= 1 && AllDigits(r)
  {
    var d := ['0' + (n % 10) as char];
    if n < 10 then d else Digits(n / 10) + d
  }

  lemma {:induction false} DigitsRoundTrip(n: nat)
    ensures DigitsValue(Digits(n)) == n
  {
    var r := Digits(n);
    assert r[..|r| - 1] == (if n < 10 then [] else Digits(n / 10));
    if n >= 10 {
      DigitsRoundTrip(n / 10);
    }
  }

  /** Every rendered duration parses back to its number of seconds. */
  lemma ParseRendered(n: nat, u: char)
    requires IsUnit(u)
    ensures ParseDuration(Digits(n) + [u]) == Some(n * UnitSeconds(u))
  {
    var s := Digits(n) + [u];
    assert s[..|s| - 1] == Digits(n);
    DigitsRoundTrip(n);
  }

  /** The worked examples: three accepted units, and the shapes that are refused. */
  lemma ParseExamples()
    ensures ParseDuration("5m") == Some(300)
    ensures ParseDuration("2h") == Some(7200)
    ensures ParseDuration("1d") == Some(86400)
    ensures ParseDuration("007m") == Some(420)
    ensures ParseDuration("5s") == None
    ensures ParseDuration("10x") == None
    ensures ParseDuration("m5") == None
    ensures ParseDuration("m") == None
    ensures ParseDuration("") == None
    ensures ParseDuration("5m ") == None
    ensures ParseDuration(" 5m") == None
  {
    assert "5m"[..1] == "5" && "5"[..0] == [];
    assert "2h"[..1] == "2" && "2"[..0] == [];
    assert "1d"[..1] == "1" && "1"[..0] == [];
    assert "007m"[..3] == "007";
    assert "007"[..2] == "00";
    assert "00"[..1] == "0" && "0"[..0] == [];
    assert !IsDigit(" 5m"[..2][0]);
  }
}
