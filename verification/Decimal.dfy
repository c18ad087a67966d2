// Decimal digits and the durations that events carry as deadlines.
module Decimal {
  import opened Wrappers

  predicate IsDigit(c: char) { '0' <= c <= '9' }

  function DigitChar(d: nat): (c: char)
    requires d < 10
    ensures IsDigit(c) && DigitValue(c) == d
  {
    '0' + d as char
  }

  function DigitValue(c: char): (d: nat)
    requires IsDigit(c)
    ensures d < 10
  {
    (c - '0') as nat
  }

  function Digits(n: nat): (s: string)
    ensures s != [] && forall c | c in s :: IsDigit(c)
    ensures s[0] == '0' ==> n == 0 && s == "0"
  {
    if n < 10 then [DigitChar(n)] else Digits(n / 10) + [DigitChar(n % 10)]
  }

  function DigitsValue(s: string): nat
    requires forall c | c in s :: IsDigit(c)
  {
    if s == [] then 0 else DigitsValue(s[..|s| - 1]) * 10 + DigitValue(s[|s| - 1])
  }

  function ParseDigits(s: string): Option<nat> {
    if s != [] && forall c | c in s :: IsDigit(c) then Some(DigitsValue(s)) else None
  }

  lemma {:induction false} DigitsRoundTrip(n: nat)
    ensures ParseDigits(Digits(n)) == Some(n)
  {
    var s := Digits(n);
    if n < 10 {
      assert DigitsValue(s[..|s| - 1]) == 0;
    } else {
      DigitsRoundTrip(n / 10);
      assert s[..|s| - 1] == Digits(n / 10);
    }
  }

  // ---- Durations ------------------------------------------------------------

  function DigitPrefix(s: string): (n: nat)
    ensures n <= |s|
    ensures forall i | 0 <= i < n :: IsDigit(s[i])
    ensures n < |s| ==> !IsDigit(s[n])
  {
    if s != [] && IsDigit(s[0]) then 1 + DigitPrefix(s[1..]) else 0
  }

  function UnitSeconds(c: char): Option<nat> {
    if c == 'h' then Some(3600) else if c == 'm' then Some(60) else if c == 's' then Some(1) else None
  }

  // A sequence of whole counts of hours, minutes and seconds, in seconds.
  function ParseUnits(s: string): Option<nat>
    decreases |s|
  {
    var n := DigitPrefix(s);
    if n == 0 || n == |s| || UnitSeconds(s[n]) == None then None
    else
      var head := DigitsValue(s[..n]) * UnitSeconds(s[n]).value;
      if n + 1 == |s| then Some(head)
      else
        match ParseUnits(s[n + 1..])
        case None => None
        case Some(tail) => Some(head + tail)
  }

  // Zero may go without a unit.
  function ParseDuration(s: string): Option<nat> {
    if s == "0" then Some(0) else ParseUnits(s)
  }

  // How a duration of whole minutes below an hour prints.
  function DurationString(minutes: nat): string
    requires 0 < minutes < 60
  {
    Digits(minutes) + "m0s"
  }

  lemma DigitPrefixOf(digits: string, rest: string)
    requires forall c | c in digits :: IsDigit(c)
    requires rest != [] && !IsDigit(rest[0])
    ensures DigitPrefix(digits + rest) == |digits|
  {
    if digits == [] {
      assert digits + rest == rest;
    } else {
      assert (digits + rest)[1..] == digits[1..] + rest;
      DigitPrefixOf(digits[1..], rest);
    }
  }

  // Hours, minutes and seconds.
  lemma UnitsAre(n: nat)
    ensures ParseDuration(Digits(n) + "h") == Some(3600 * n)
    ensures ParseDuration(Digits(n) + "m") == Some(60 * n)
    ensures ParseDuration(Digits(n) + "s") == Some(n)
  {
    UnitIs(n, 'h');
    UnitIs(n, 'm');
    UnitIs(n, 's');
    hide ParseUnits;
    assert forall u: string | |u| == 1 :: |Digits(n) + u| > 1;
  }

  lemma UnitIs(n: nat, c: char)
    requires c in {'h', 'm', 's'}
    ensures ParseUnits(Digits(n) + [c]) == Some(n * UnitSeconds(c).value)
  {
    var d := Digits(n);
    DigitPrefixOf(d, [c]);
    DigitsRoundTrip(n);
    assert (d + [c])[..|d|] == d && (d + [c])[|d|] == c;
  }

  lemma DurationRoundTrip(minutes: nat)
    requires 0 < minutes < 60
    ensures ParseDuration(DurationString(minutes)) == Some(60 * minutes)
  {
    var d := Digits(minutes);
    var s := DurationString(minutes);
    DigitPrefixOf(d, "m0s");
    DigitsRoundTrip(minutes);
    assert s[..|d|] == d && s[|d|] == 'm' && s[|d| + 1..] == "0s";
    assert ParseUnits("0s") == Some(0) by {
      assert DigitPrefix("0s") == 1 by { DigitPrefixOf("0", "s"); assert "0" + "s" == "0s"; }
      assert "0s"[..1] == "0";
      DigitsRoundTrip(0);
    }
  }
}
