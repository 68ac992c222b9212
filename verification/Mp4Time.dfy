/** Conversion between nanoseconds and the ticks of an MP4 time scale, rounded down. */
module Mp4Time {
  const SECOND := 1_000_000_000
  const UINT64 := 0x1_0000_0000_0000_0000

  // The shape of both conversions: the whole units first, then the rest.
  function Scale(v: nat, unit: nat, perUnit: nat): nat
    requires unit > 0
  {
    v / unit * perUnit + v % unit * perUnit / unit
  }

  function DurationGoToMp4(v: nat, timeScale: nat): nat {
    Scale(v, SECOND, timeScale)
  }

  function DurationMp4ToGo(v: nat, timeScale: nat): nat
    requires timeScale > 0
  {
    Scale(v, timeScale, SECOND)
  }

  lemma DivIs(a: int, d: nat, q: int)
    requires d > 0 && q * d <= a < (q + 1) * d
    ensures a / d == q
  {
    if a / d < q {
      MulOrder(a / d + 1, q, d);
    } else if a / d > q {
      assert (q + 1) * d <= a / d * d by { MulOrder(q + 1, a / d, d); }
    }
  }

  lemma MulOrder(a: int, b: int, d: nat)
    requires a <= b
    ensures a * d <= b * d
  {
  }

  lemma DivBounds(a: int, d: nat)
    requires d > 0
    ensures a / d * d <= a < a / d * d + d
  {
  }

  // Splitting off the whole units does not change the result: it is the quotient rounded down.
  lemma ScaleIsFloor(v: nat, unit: nat, perUnit: nat)
    requires unit > 0
    ensures Scale(v, unit, perUnit) == v * perUnit / unit
  {
    var q, r := v / unit, v % unit;
    var low := r * perUnit / unit;
    DivBounds(r * perUnit, unit);
    assert v * perUnit == q * perUnit * unit + r * perUnit by {
      assert v == q * unit + r;
      Distribute(q * unit, r, perUnit);
      Swap(q, unit, perUnit);
    }
    Distribute(q * perUnit, low, unit);
    Distribute(q * perUnit + low, 1, unit);
    DivIs(v * perUnit, unit, q * perUnit + low);
  }

  lemma Distribute(a: int, b: int, c: int)
    ensures (a + b) * c == a * c + b * c
  {
  }

  lemma Swap(a: int, b: int, c: int)
    ensures a * b * c == a * c * b
  {
  }

  // No intermediate value leaves 64 bits, for any duration Go can hold and any time scale up to a gigahertz.
  lemma NoOverflow(v: nat, timeScale: nat)
    requires v < UINT64 / 2 && timeScale <= SECOND
    ensures v / SECOND * timeScale < UINT64
    ensures v % SECOND * timeScale < UINT64
    ensures DurationGoToMp4(v, timeScale) < UINT64
  {
    MulOrder(timeScale, SECOND, v / SECOND);
    MulOrder(timeScale, SECOND, v % SECOND);
    MulOrder(v % SECOND, SECOND, SECOND);
    MulOrder(timeScale, SECOND, v);
    ScaleIsFloor(v, SECOND, timeScale);
    DivMonotone(v * timeScale, v * SECOND, SECOND);
  }

  lemma DivMonotone(a: int, b: int, d: nat)
    requires d > 0 && a <= b
    ensures a / d <= b / d
  {
    if b / d < a / d {
      DivBounds(a, d);
      DivBounds(b, d);
      MulOrder(b / d + 1, a / d, d);
      Distribute(b / d, 1, d);
    }
  }

  // Rounding down loses less than a tick each time two durations are added up.
  lemma TicksAdd(a: nat, b: nat, timeScale: nat)
    ensures 0 <= DurationGoToMp4(a + b, timeScale) - DurationGoToMp4(a, timeScale) - DurationGoToMp4(b, timeScale) <= 1
  {
    ScaleIsFloor(a, SECOND, timeScale);
    ScaleIsFloor(b, SECOND, timeScale);
    ScaleIsFloor(a + b, SECOND, timeScale);
    Distribute(a, b, timeScale);
    DivBounds(a * timeScale, SECOND);
    DivBounds(b * timeScale, SECOND);
    DivBounds(a * timeScale + b * timeScale, SECOND);
  }

  lemma TicksMonotone(a: nat, b: nat, timeScale: nat)
    requires a <= b
    ensures DurationGoToMp4(a, timeScale) <= DurationGoToMp4(b, timeScale)
  {
    TicksAdd(a, b - a, timeScale);
  }

  // Ticks read back and converted again: the same when they are a whole number of nanoseconds, one less
  // otherwise.
  lemma TicksRoundTrip(v: nat, timeScale: nat)
    requires 0 < timeScale <= SECOND
    ensures DurationGoToMp4(DurationMp4ToGo(v, timeScale), timeScale)
         == if v * SECOND % timeScale == 0 then v else v - 1
  {
    var g := DurationMp4ToGo(v, timeScale);
    ScaleIsFloor(v, timeScale, SECOND);
    ScaleIsFloor(g, SECOND, timeScale);
    assert g * timeScale == v * SECOND - v * SECOND % timeScale;
    if v * SECOND % timeScale == 0 {
      DivIs(g * timeScale, SECOND, v);
    } else {
      DivIs(g * timeScale, SECOND, v - 1);
    }
  }
}
