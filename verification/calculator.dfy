/**
 * The arithmetic of the gas consumption calculator: flow in litres per minute,
 * welding hours per day and days per month give the monthly volume and the
 * number of 40 L / 150 atm cylinders that cover it. Inputs are whole numbers.
 */
module GasCalculator {
  import opened Strings

  /** One 40 L cylinder at 150 atm holds 40 * 150 / 1000 = 6 cubic metres. */
  const CylinderVolumeM3: real := (40 * 150) as real / 1000.0

  function LitersPerHour(flow: int): (l: int)
    ensures flow >= 0 ==> l >= 0
  {
    flow * 60
  }

  function TotalLitersMonth(flow: int, hoursPerDay: int, daysPerMonth: int): (l: int)
    ensures flow == 0 || hoursPerDay == 0 || daysPerMonth == 0 ==> l == 0
    ensures flow >= 0 && hoursPerDay >= 0 && daysPerMonth >= 0 ==> l >= 0
  {
    LitersPerHour(flow) * hoursPerDay * daysPerMonth
  }

  /** `Math.ceil` on an exact real. */
  function Ceil(x: real): (n: int)
    ensures n as real >= x && (n - 1) as real < x
  {
    if x.Floor as real == x then x.Floor else x.Floor + 1
  }

  /**
   * `totalM3 > 0 ? Math.ceil(totalM3 / cylinderVolumeM3) : 0` with `totalM3 = totalLiters / 1000`:
   * zero when nothing is consumed, otherwise the least number of 6000 L cylinders that covers the month.
   */
  function Cylinders(totalLiters: int): (n: nat)
    ensures totalLiters <= 0 ==> n == 0
    ensures totalLiters > 0 ==> n * 6000 >= totalLiters && (n - 1) * 6000 < totalLiters
  {
    var totalM3 := totalLiters as real / 1000.0;
    if totalM3 > 0.0 then
      var n := Ceil(totalM3 / CylinderVolumeM3);
      CeilCovers(totalLiters, n);
      n
    else 0
  }

  lemma CeilCovers(totalLiters: int, n: int)
    requires totalLiters > 0
    requires n as real >= totalLiters as real / 1000.0 / CylinderVolumeM3
    requires (n - 1) as real < totalLiters as real / 1000.0 / CylinderVolumeM3
    ensures n >= 1 && n * 6000 >= totalLiters && (n - 1) * 6000 < totalLiters
  {
    assert CylinderVolumeM3 == 6.0;
    assert totalLiters as real / 1000.0 / 6.0 == totalLiters as real / 6000.0;
    assert (n * 6000) as real == n as real * 6000.0;
    assert ((n - 1) * 6000) as real == (n - 1) as real * 6000.0;
  }

  /** `Number(v)` for the text an `<input type="number">` holds: an optionally signed run of decimal digits. */
  predicate IsIntegerText(v: string)
  {
    if |v| >= 2 && (v[0] == '-' || v[0] == '+') then AllDigits(v[1..]) else |v| >= 1 && AllDigits(v)
  }

  /** `Number(v) || 0`: numeric text gives its value, anything else (empty text, `NaN`) gives 0. */
  function Coerce(v: string): (x: int)
    ensures !IsIntegerText(v) ==> x == 0
  {
    if !IsIntegerText(v) then 0
    else if v[0] == '-' then 0 - DigitsValue(v[1..]) as int
    else if v[0] == '+' then DigitsValue(v[1..])
    else DigitsValue(v)
  }

  /** More gas in a month never needs fewer cylinders. */
  lemma CylindersMonotone(a: int, b: int)
    requires a <= b
    ensures Cylinders(a) <= Cylinders(b)
  {
    if a > 0 {
      var na, nb := Cylinders(a), Cylinders(b);
      assert (na - 1) * 6000 < nb * 6000;
    }
  }

  /** Raising the flow, the hours or the days never lowers the monthly total, nor the cylinder count. */
  lemma MoreWeldingNeedsMoreGas(flow: int, hours: int, days: int, flow': int, hours': int, days': int)
    requires 0 <= flow <= flow' && 0 <= hours <= hours' && 0 <= days <= days'
    ensures TotalLitersMonth(flow, hours, days) <= TotalLitersMonth(flow', hours', days')
    ensures Cylinders(TotalLitersMonth(flow, hours, days)) <= Cylinders(TotalLitersMonth(flow', hours', days'))
  {
    var a, b := flow * 60, flow' * 60;
    assert a * hours <= b * hours <= b * hours';
    assert a * hours * days <= b * hours' * days <= b * hours' * days';
    CylindersMonotone(TotalLitersMonth(flow, hours, days), TotalLitersMonth(flow', hours', days'));
  }

  /** The calculator's initial inputs (12 L/min, 4 h a day, 22 days) read 63360 L, `63.4` m³ and 11 cylinders. */
  lemma DefaultReading()
    ensures TotalLitersMonth(12, 4, 22) == 63360
    ensures TotalM3Text(63360) == "63.4"
    ensures Cylinders(63360) == 11
  {
    assert NatToString(63) == "63";
    assert NatToString(4) == "4";
  }

  /** Coercion reads back the value of every whole number the input prints. */
  lemma CoerceRoundTrip(n: nat)
    ensures Coerce(NatToString(n)) == n
    ensures Coerce("-" + NatToString(n)) == -(n as int)
  {
    DigitsValueOfNatToString(n);
    assert ("-" + NatToString(n))[1..] == NatToString(n);
  }

  /** Input that is not a number zeroes the monthly total, and with it the cylinder count. */
  lemma NonNumericInputGivesNoCylinders(flow: string, hours: string, days: string)
    requires !IsIntegerText(flow) || !IsIntegerText(hours) || !IsIntegerText(days)
    ensures TotalLitersMonth(Coerce(flow), Coerce(hours), Coerce(days)) == 0
    ensures Cylinders(TotalLitersMonth(Coerce(flow), Coerce(hours), Coerce(days))) == 0
  {
  }

  /**
   * The monthly volume in cubic metres with one decimal: `"0.0"` for a total that is not
   * positive, otherwise the litres rounded to the nearest hundred, halves rounded up.
   */
  function TotalM3Text(totalLiters: int): (s: string)
    ensures totalLiters <= 0 ==> s == "0.0"
    ensures 0 < totalLiters < 50 ==> s == "0.0"
    ensures totalLiters >= 50 ==> s != "0.0"
  {
    if totalLiters <= 0 then "0.0"
    else
      var tenths: nat := (totalLiters + 50) / 100;
      var s := NatToString(tenths / 10) + "." + NatToString(tenths % 10);
      NonZeroTenthsText(tenths);
      s
  }

  lemma NonZeroTenthsText(tenths: nat)
    ensures tenths >= 1 ==> NatToString(tenths / 10) + "." + NatToString(tenths % 10) != "0.0"
  {
    var a := NatToString(tenths / 10);
    var b := NatToString(tenths % 10);
    var s := a + "." + b;
    assert b == [DigitChar(tenths % 10)];
    if tenths >= 1 && |a| == 1 {
      if tenths / 10 == 0 {
        assert s[2] == DigitChar(tenths % 10) != '0';
      } else {
        assert a == [DigitChar(tenths / 10)];
        assert s[0] == DigitChar(tenths / 10) != '0';
      }
    }
  }
}
