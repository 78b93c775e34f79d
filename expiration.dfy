/** The session length: a duration string such as "1s" read against a table of units. */
module Expiration {
  import opened Common
  import opened Strings
  import opened Errors

  /** `time_units`: milliseconds per unit. */
  function UnitMs(unit: string): (ms: Option<nat>)
    ensures ms.Some? <==> unit in {"h", "d", "m", "s", "ms"}
    ensures ms.Some? ==> ms.value > 0
  {
    if unit == "h" then Some(3600 * 1000)
    else if unit == "d" then Some(3600 * 1000 * 24)
    else if unit == "m" then Some(60 * 1000)
    else if unit == "s" then Some(1000)
    else if unit == "ms" then Some(1)
    else None
  }

  predicate AllDigits(s: string)
  {
    forall i :: 0 <= i < |s| ==> IsDigit(s[i])
  }

  /** `Number(ds)` for a run of decimal digits; the empty run is 0. */
  function DecimalValue(ds: string): nat
    requires AllDigits(ds)
  {
    if ds == [] then 0 else DecimalValue(ds[..|ds| - 1]) * 10 + (ds[|ds| - 1] as int - '0' as int)
  }

  /** The decimal rendering of `n`, the inverse of `DecimalValue`. */
  function Decimal(n: nat): (ds: string)
    ensures |ds| > 0 && AllDigits(ds)
    ensures DecimalValue(ds) == n
  {
    var last := [('0' as int + n % 10) as char];
    if n < 10 then last
    else
      var ds := Decimal(n / 10) + last;
      assert ds[..|ds| - 1] == Decimal(n / 10);
      ds
  }

  /** `findIndex((e) => !!e.trim())`: the first segment that is not blank, or -1. */
  function FindNonBlank(parts: seq<string>): (i: int)
    ensures -1 <= i < |parts|
    ensures 0 <= i ==> !IsBlank(parts[i])
    ensures forall k :: 0 <= k < |parts| && (i == -1 || k < i) ==> IsBlank(parts[k])
  {
    if parts == [] then -1
    else if !IsBlank(parts[0]) then 0
    else
      var j := FindNonBlank(parts[1..]);
      if j == -1 then -1 else j + 1
  }

  /** `split(/\D/)[0]`: the leading run of digits. */
  function Amount(duration: string): (ds: string)
    ensures AllDigits(ds) && |ds| <= |duration| && ds == duration[..|ds|]
    ensures |ds| < |duration| ==> !IsDigit(duration[|ds|])
  {
    Split(duration, c => !IsDigit(c))[0]
  }

  /** `time_units[parts[index]]` for the first non-blank segment between digits; None when there is none. */
  function UnitValue(duration: string): (ms: Option<nat>)
    ensures ms.None? <==> (var parts := Split(duration, IsDigit); var i := FindNonBlank(parts);
                           i == -1 || UnitMs(parts[i]).None?)
  {
    var parts := Split(duration, IsDigit);
    var index := FindNonBlank(parts);
    if index >= 0 then UnitMs(parts[index]) else None
  }

  /**
   * The body of `getExpirationIn` for any duration string: the amount is the leading run of
   * digits, the unit the first non-blank segment between digits.
   */
  function ExpirationIn(duration: string): (r: Result<nat>)
    ensures r.Err? <==> (var parts := Split(duration, IsDigit); var i := FindNonBlank(parts);
                         i == -1 || UnitMs(parts[i]).None?)
    ensures r.Err? ==> r.error == Plain("Invalid time unit")
  {
    var unitValue := UnitValue(duration);
    if unitValue.None? then Err(Plain("Invalid time unit"))
    else Ok(DecimalValue(Amount(duration)) * unitValue.value)
  }

  /** A duration written as a number followed by a unit from the table means that many units. */
  lemma {:induction false} ExpirationOfDecimal(n: nat, unit: string)
    requires UnitMs(unit).Some?
    ensures ExpirationIn(Decimal(n) + unit) == Ok(n * UnitMs(unit).value)
  {
    var ds := Decimal(n);
    var s := ds + unit;
    assert s[..|ds|] == ds;
    FirstSegmentIs(s, c => !IsDigit(c), ds);
    UnitAfterDigits(ds, unit);
  }

  /** Splitting digits followed by a unit puts the unit at the index just past the digits. */
  lemma {:induction false} UnitAfterDigits(ds: string, unit: string)
    requires AllDigits(ds) && UnitMs(unit).Some?
    ensures var parts := Split(ds + unit, IsDigit);
            |ds| < |parts| && FindNonBlank(parts) == |ds| && parts[|ds|] == unit
  {
    if ds == [] {
      assert ds + unit == unit;
      SplitWithoutSeparator(unit, IsDigit);
      assert !IsSpace(unit[0]);
    } else {
      var s := ds + unit;
      assert s[0] == ds[0] && s[1..] == ds[1..] + unit;
      UnitAfterDigits(ds[1..], unit);
      var rest := Split(s[1..], IsDigit);
      assert Split(s, IsDigit) == [[]] + rest;
      assert IsBlank([]);
      assert ([[]] + rest)[1..] == rest;
    }
  }

  /** `getExpirationIn()`: the hard-coded "1s" is 1000 ms. */
  function GetExpirationIn(): (r: Result<nat>)
    ensures r == Ok(1000)
  {
    ExpirationOfDecimal(1, "s");
    assert Decimal(1) + "s" == "1s";
    ExpirationIn("1s")
  }
}
