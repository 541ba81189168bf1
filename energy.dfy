/** The energy formula shared by the backend services and the reading views,
    the rounding helpers of the services, and the watt recovery of the
    reading form. Arithmetic is over exact reals. */
module Energy {
  import opened Common

  /** Minutes a reading stands for when it carries none. */
  const DEFAULT_MINUTES: int := 60

  /** Energy in kWh of a draw of `watt` watts held for `minutes` minutes. */
  function KwhOf(watt: real, minutes: real): (k: real)
    ensures watt >= 0.0 && minutes >= 0.0 ==> k >= 0.0
    ensures minutes == 60.0 ==> k * 1000.0 == watt
  {
    (watt * (minutes / 60.0)) / 1000.0
  }

  /** The backend's kwh(Reading): a missing minutes field counts as one hour. */
  function Kwh(watt: int, minutes: Option<int>): (k: real)
    ensures minutes.None? ==> k * 1000.0 == watt as real
    ensures minutes.Some? ==> k == KwhOf(watt as real, minutes.value as real)
    ensures watt >= 0 && minutes.GetOr(DEFAULT_MINUTES) >= 0 ==> k >= 0.0
  {
    KwhOf(watt as real, minutes.GetOr(DEFAULT_MINUTES) as real)
  }

  /** Math.round of Java and of JavaScript: the nearest integer, halves
      rounded up. */
  function RoundHalfUp(x: real): (n: int)
    ensures n as real - 0.5 <= x < n as real + 0.5
  {
    (x + 0.5).Floor
  }

  lemma RoundHalfUpMonotone(x: real, y: real)
    requires x <= y
    ensures RoundHalfUp(x) <= RoundHalfUp(y)
  {
  }

  lemma RoundHalfUpOfInt(n: int)
    ensures RoundHalfUp(n as real) == n
  {
  }

  /** round2: two decimals, used for the total cost. */
  function Round2(v: real): (r: real)
    ensures v - 0.005 < r <= v + 0.005
  {
    RoundHalfUp(v * 100.0) as real / 100.0
  }

  /** round3: three decimals, used for every kWh the services report. */
  function Round3(v: real): (r: real)
    ensures v - 0.0005 < r <= v + 0.0005
  {
    RoundHalfUp(v * 1000.0) as real / 1000.0
  }

  lemma Round3Monotone(x: real, y: real)
    requires x <= y
    ensures Round3(x) <= Round3(y)
  {
    RoundHalfUpMonotone(x * 1000.0, y * 1000.0);
  }

  lemma Round3OfZero()
    ensures Round3(0.0) == 0.0 && Round2(0.0) == 0.0
  {
    RoundHalfUpOfInt(0);
  }

  /** The reading form's inverse of KwhOf: the watts that, held for
      `minutes`, give `kwh`; an hour count of zero is replaced by one. */
  function RecoverWatt(kwh: real, minutes: real): (w: int)
    ensures kwh >= 0.0 && minutes > 0.0 ==> w >= 0
  {
    var hours := minutes / 60.0;
    RoundHalfUp((kwh * 1000.0) / (if hours == 0.0 then 1.0 else hours))
  }

  /** Displaying an integer wattage as kWh and recovering the watts from that
      kWh gives back the wattage. */
  lemma {:induction false} WattRoundTrip(w: int, minutes: real)
    requires minutes > 0.0
    ensures RecoverWatt(KwhOf(w as real, minutes), minutes) == w
  {
    var hours := minutes / 60.0;
    var k := KwhOf(w as real, minutes);
    assert k * 1000.0 == w as real * hours;
    assert (k * 1000.0) / hours == w as real;
    RoundHalfUpOfInt(w);
  }

  /** Recovering watts from an entered kWh and displaying them again moves the
      kWh by at most half a watt held for `minutes`, that is minutes/120000. */
  lemma {:induction false} RedisplayError(kwh: real, minutes: real)
    requires minutes > 0.0
    ensures var shown := KwhOf(RecoverWatt(kwh, minutes) as real, minutes);
            kwh - minutes / 120000.0 <= shown <= kwh + minutes / 120000.0
  {
    var hours := minutes / 60.0;
    var x := (kwh * 1000.0) / hours;
    var w := RecoverWatt(kwh, minutes);
    assert w == RoundHalfUp(x);
    var d := w as real - x;
    assert -0.5 <= d <= 0.5;
    var f := minutes / 60000.0;
    assert f > 0.0;
    assert x * hours == kwh * 1000.0;
    assert x * f == kwh by {
      assert f == hours / 1000.0;
    }
    var shown := KwhOf(w as real, minutes);
    assert shown == w as real * f;
    assert shown - kwh == d * f;
    assert -0.5 * f <= d * f <= 0.5 * f;
    assert minutes / 120000.0 == 0.5 * f;
  }
}
