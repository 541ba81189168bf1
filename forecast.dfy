/** ForecastService.hourlyBaseline: the owner's average kWh per hour of the
    day (0..23) over the last `days` days. */
module Forecast {
  import opened Common
  import opened Energy
  import opened Entities
  import opened Repositories

  /** The hour of the day, in the system zone, at which a reading was
      taken. */
  function HourOfDay(hourOf: Instant -> Hour): Reading -> int
  {
    (r: Reading) => hourOf(r.recordedAt) as int
  }

  /** The baseline value of one hour: the readings of that hour summed,
      divided by the number of days and rounded to three decimals; 0 when
      days is not positive. */
  function HourAverage(list: seq<Reading>, days: int, hourOf: Instant -> Hour, h: int): (v: real)
    ensures days <= 0 ==> v == 0.0
    ensures (forall r :: r in list ==> hourOf(r.recordedAt) as int != h) ==> v == 0.0
    ensures days > 0 ==> v == Round3(KeyedKwh(list, HourOfDay(hourOf), h) / days as real)
  {
    Round3OfZero();
    assert (forall r :: r in list ==> hourOf(r.recordedAt) as int != h) ==>
           forall i :: 0 <= i < |list| ==> HourOfDay(hourOf)(list[i]) != h by {
      if forall r :: r in list ==> hourOf(r.recordedAt) as int != h {
        forall i | 0 <= i < |list| ensures HourOfDay(hourOf)(list[i]) != h {
          assert list[i] in list;
        }
      }
    }
    Round3(if days > 0 then KeyedKwh(list, HourOfDay(hourOf), h) / days as real else 0.0)
  }

  /** The averages of hours 0 .. n-1. */
  function BaselineUpTo(list: seq<Reading>, days: int, hourOf: Instant -> Hour, n: int): (m: map<int, real>)
    ensures forall h :: h in m <==> 0 <= h < n
    ensures forall h :: h in m ==> m[h] == HourAverage(list, days, hourOf, h)
  {
    map h | 0 <= h < n :: HourAverage(list, days, hourOf, h)
  }

  lemma BaselineStep(list: seq<Reading>, days: int, hourOf: Instant -> Hour, n: int)
    requires 0 <= n
    ensures BaselineUpTo(list, days, hourOf, n + 1) ==
            BaselineUpTo(list, days, hourOf, n)[n := HourAverage(list, days, hourOf, n)]
  {
  }

  /** The map hourlyBaseline returns: exactly the 24 hours of the day. */
  function Baseline(list: seq<Reading>, days: int, hourOf: Instant -> Hour): (m: map<int, real>)
    ensures forall h :: h in m <==> 0 <= h < 24
    ensures forall h :: h in m ==> m[h] == HourAverage(list, days, hourOf, h)
  {
    BaselineUpTo(list, days, hourOf, 24)
  }

  /** The kWh of hours 0 .. n-1 added up. */
  function HoursKwh(list: seq<Reading>, keyOf: Reading -> int, n: nat): real
  {
    if n == 0 then 0.0 else HoursKwh(list, keyOf, n - 1) + KeyedKwh(list, keyOf, n - 1)
  }

  lemma {:induction false} HoursKwhLast(list: seq<Reading>, keyOf: Reading -> int, n: nat)
    requires list != []
    ensures HoursKwh(list, keyOf, n) ==
            HoursKwh(list[..|list| - 1], keyOf, n) +
            (if 0 <= keyOf(list[|list| - 1]) < n then ReadingKwh(list[|list| - 1]) else 0.0)
  {
    if n > 0 {
      HoursKwhLast(list, keyOf, n - 1);
    }
  }

  lemma {:induction false} HoursKwhEmpty(keyOf: Reading -> int, n: nat)
    ensures HoursKwh([], keyOf, n) == 0.0
  {
    if n > 0 {
      HoursKwhEmpty(keyOf, n - 1);
    }
  }

  /** Grouping by hour of the day partitions the readings: the 24 hour
      sums add up to the total. */
  lemma {:induction false} HoursPartitionTotal(list: seq<Reading>, hourOf: Instant -> Hour)
    ensures HoursKwh(list, HourOfDay(hourOf), 24) == TotalKwh(list)
  {
    if list == [] {
      HoursKwhEmpty(HourOfDay(hourOf), 24);
    } else {
      HoursPartitionTotal(list[..|list| - 1], hourOf);
      HoursKwhLast(list, HourOfDay(hourOf), 24);
      assert 0 <= HourOfDay(hourOf)(list[|list| - 1]) < 24;
    }
  }

  class ForecastService {
    const readings: ReadingRepository

    constructor (readings: ReadingRepository)
      ensures this.readings == readings
    {
      this.readings := readings;
    }

    /** The readings hourlyBaseline averages: the owner's, in
        [now - days, now]. */
    function Window(ownerId: Id, days: int, now: Instant): (list: seq<Reading>)
      reads readings
      ensures forall r :: r in list <==>
                r in readings.rows && r.device.ownerId == ownerId &&
                now - days * MILLIS_PER_DAY <= r.recordedAt <= now
    {
      readings.Between(ownerId, now - days * MILLIS_PER_DAY, now)
    }

    /** hourlyBaseline(ownerId, days), with the clock and the system zone's
        hour of the day passed in. */
    method HourlyBaseline(ownerId: Id, days: int, now: Instant, hourOf: Instant -> Hour)
      returns (m: map<int, real>)
      ensures m == Baseline(Window(ownerId, days, now), days, hourOf)
    {
      var list := Window(ownerId, days, now);
      m := map[];
      assert m == BaselineUpTo(list, days, hourOf, 0);
      for h := 0 to 24
        invariant m == BaselineUpTo(list, days, hourOf, h)
      {
        var sumKwh := KeyedKwh(list, HourOfDay(hourOf), h);
        var avg := if days > 0 then sumKwh / days as real else 0.0;
        Round3OfZero();
        assert Round3(avg) == HourAverage(list, days, hourOf, h);
        BaselineStep(list, days, hourOf, h);
        m := m[h := Round3(avg)];
      }
    }
  }
}
