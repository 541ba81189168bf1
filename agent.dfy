/** RecommendationAgent: compares the owner's consumption in a trailing
    window with the hourly baseline and stores a recommendation when it is
    more than 25% above it. */
module Agent {
  import opened Common
  import opened Energy
  import opened Entities
  import opened Repositories
  import opened Forecast

  /** app.agent.window-minutes when it is not configured. */
  const DEFAULT_WINDOW_MINUTES: int := 60
  /** Days of history the baseline averages over. */
  const BASELINE_DAYS: int := 7
  /** Windows using less than this are ignored. */
  const MIN_WINDOW_KWH: real := 0.01
  /** The expected kWh used when the baseline has nothing positive. */
  const EXPECTED_FLOOR: real := 0.01
  /** Consumption above expected × this factor triggers a recommendation. */
  const EXCESS_FACTOR: real := 1.25

  const ALERT: string := "ALERT"
  const WARN: string := "WARN"
  const NEW: string := "NEW"

  /** inPeak(hour, peakStart, peakEnd): [start, end) within a day, wrapping
      past midnight when start > end; the whole day when start == end. */
  function InPeak(hour: int, peakStart: Option<int>, peakEnd: Option<int>): (b: bool)
    ensures peakStart.None? || peakEnd.None? ==> !b
    ensures peakStart.Some? && peakEnd.Some? && peakStart.value == peakEnd.value ==> b
    ensures peakStart.Some? && peakEnd.Some? && peakStart.value < peakEnd.value ==>
              (b <==> peakStart.value <= hour < peakEnd.value)
    ensures peakStart.Some? && peakEnd.Some? && peakStart.value > peakEnd.value ==>
              (b <==> hour >= peakStart.value || hour < peakEnd.value)
  {
    if peakStart.None? || peakEnd.None? then false
    else if peakStart.value == peakEnd.value then true
    else if peakStart.value < peakEnd.value then peakStart.value <= hour < peakEnd.value
    else hour >= peakStart.value || hour < peakEnd.value
  }

  /** Swapping two different bounds swaps peak and off-peak hours. */
  lemma InPeakSwap(hour: int, s: int, e: int)
    requires s != e
    ensures InPeak(hour, Some(s), Some(e)) == !InPeak(hour, Some(e), Some(s))
  {
  }

  /** max(1, windowMinutes). */
  function WindowLength(windowMinutes: int): (w: int)
    ensures w >= 1 && w >= windowMinutes
    ensures windowMinutes >= 1 ==> w == windowMinutes
  {
    if windowMinutes < 1 then 1 else windowMinutes
  }

  /** The baseline's value for the hour, replaced by 0.01 when missing or
      not positive. */
  function Expected(baseline: map<int, real>, hour: int): (e: real)
    ensures e > 0.0
    ensures hour in baseline && baseline[hour] > 0.0 ==> e == baseline[hour]
    ensures !(hour in baseline && baseline[hour] > 0.0) ==> e == EXPECTED_FLOOR
  {
    var v := if hour in baseline then baseline[hour] else 0.0;
    if v <= 0.0 then EXPECTED_FLOOR else v
  }

  /** The kWh above which the window counts as excessive. */
  function Threshold(expected: real): (t: real)
    ensures expected > 0.0 ==> t > expected
  {
    expected * EXCESS_FACTOR
  }

  /** The fixed parts of the recommendation's message. */
  const HIGH_USE: string := "Consumo alto (últimos "
  const PEAK_ADVICE: string := "Hora pico: programa cargas fuera de 14:00–20:00."
  const OFF_PEAK_ADVICE: string := "Revisa luces/equipos encendidos innecesariamente."

  /** Number formatting is not modelled: String.format's %d and %.3f. */
  datatype Formats = Formats(decimal: int -> string, fixed3: real -> string)

  function Message(minutes: int, kwh: real, expected: real, isPeak: bool, fmt: Formats): (m: string)
    ensures |m| > |HIGH_USE| && m[..|HIGH_USE|] == HIGH_USE
    ensures isPeak ==> |m| > |PEAK_ADVICE| && m[|m| - |PEAK_ADVICE|..] == PEAK_ADVICE
    ensures !isPeak ==> |m| > |OFF_PEAK_ADVICE| && m[|m| - |OFF_PEAK_ADVICE|..] == OFF_PEAK_ADVICE
  {
    var figures := fmt.decimal(minutes) + " min) — " + fmt.fixed3(kwh) +
                   " kWh (esperado ~" + fmt.fixed3(expected) + " kWh). ";
    var advice := if isPeak then PEAK_ADVICE else OFF_PEAK_ADVICE;
    var m := HIGH_USE + figures + advice;
    assert m == HIGH_USE + (figures + advice) == (HIGH_USE + figures) + advice;
    m
  }

  /** The rule of generateForOwner, given the window's readings, the
      expected kWh and whether the hour is a peak hour: the level of the
      recommendation to save, if any. */
  function Decide(window: seq<Reading>, expected: real, isPeak: bool): (level: Option<string>)
    ensures level.Some? ==> level.value == (if isPeak then ALERT else WARN)
    ensures window == [] || TotalKwh(window) < MIN_WINDOW_KWH ==> level.None?
  {
    if window == [] then None
    else
      var kwh := TotalKwh(window);
      if kwh < MIN_WINDOW_KWH then None
      else if kwh > Threshold(expected) then Some(if isPeak then ALERT else WARN)
      else None
  }

  class RecommendationAgent {
    const users: UserRepository
    const readings: ReadingRepository
    const recos: RecommendationRepository
    const forecast: ForecastService
    const tariffs: TariffRepository
    /** app.agent.window-minutes. */
    const windowMinutes: int

    /** The forecast service reads the same readings. */
    ghost predicate Valid()
      reads recos
    {
      forecast.readings == readings && recos.Valid()
    }

    constructor (users: UserRepository, readings: ReadingRepository, recos: RecommendationRepository,
                 forecast: ForecastService, tariffs: TariffRepository, windowMinutes: int)
      requires forecast.readings == readings && recos.Valid()
      ensures Valid()
      ensures this.users == users && this.readings == readings && this.recos == recos
      ensures this.forecast == forecast && this.tariffs == tariffs && this.windowMinutes == windowMinutes
    {
      this.users := users;
      this.readings := readings;
      this.recos := recos;
      this.forecast := forecast;
      this.tariffs := tariffs;
      this.windowMinutes := windowMinutes;
    }

    /** The owner's readings in [now - max(1, windowMinutes) min, now]. */
    function Window(ownerId: Id, now: Instant): seq<Reading>
      reads readings
    {
      readings.Between(ownerId, now - WindowLength(windowMinutes) * MILLIS_PER_MINUTE, now)
    }

    /** The baseline the agent consults: the last seven days, or the empty
        map when computing it failed. */
    function AgentBaseline(ownerId: Id, now: Instant, hourOf: Instant -> Hour, baselineFails: bool): map<int, real>
      reads forecast.readings
    {
      if baselineFails then map[]
      else Baseline(forecast.Window(ownerId, BASELINE_DAYS, now), BASELINE_DAYS, hourOf)
    }

    /** The owner's tariff puts this hour in its peak; no tariff is no
        peak. */
    function IsPeak(ownerId: Id, hour: Hour): bool
      reads tariffs
    {
      var t := tariffs.FindByOwnerId(ownerId);
      t.Some? && InPeak(hour, t.value.peakStart, t.value.peakEnd)
    }

    /** The recommendation generateForOwner saves (before its id is
        assigned), if any. `hour` is the hour of `now` in America/Bogota,
        hourOf the system zone's hour of an instant. */
    function Draft(ownerId: Id, now: Instant, hour: Hour, hourOf: Instant -> Hour,
                   baselineFails: bool, fmt: Formats): Option<Recommendation>
      reads readings, forecast.readings, tariffs
    {
      var window := Window(ownerId, now);
      var expected := Expected(AgentBaseline(ownerId, now, hourOf, baselineFails), hour);
      var isPeak := IsPeak(ownerId, hour);
      match Decide(window, expected, isPeak)
      case None => None
      case Some(level) =>
        Some(Recommendation(0, ownerId,
                            Message(WindowLength(windowMinutes), TotalKwh(window), expected, isPeak, fmt),
                            level, NEW, now))
    }

    /** A recommendation is due exactly when the window has readings, sums
        to at least 0.01 kWh and exceeds 1.25 × the expected kWh; it belongs
        to the owner, is NEW, and is an ALERT in a peak hour of the owner's
        tariff and a WARN otherwise. */
    lemma DraftRule(ownerId: Id, now: Instant, hour: Hour, hourOf: Instant -> Hour,
                    baselineFails: bool, fmt: Formats)
      ensures var d := Draft(ownerId, now, hour, hourOf, baselineFails, fmt);
        && (d.Some? <==>
              Window(ownerId, now) != [] &&
              TotalKwh(Window(ownerId, now)) >= MIN_WINDOW_KWH &&
              TotalKwh(Window(ownerId, now)) >
                Threshold(Expected(AgentBaseline(ownerId, now, hourOf, baselineFails), hour)))
        && (d.Some? ==> d.value.ownerId == ownerId && d.value.status == NEW && d.value.createdAt == now)
        && (d.Some? ==> (d.value.level == ALERT <==> IsPeak(ownerId, hour)))
        && (d.Some? ==> (d.value.level == WARN <==> !IsPeak(ownerId, hour)))
        && (d.Some? ==>
              d.value.message ==
              Message(WindowLength(windowMinutes), TotalKwh(Window(ownerId, now)),
                      Expected(AgentBaseline(ownerId, now, hourOf, baselineFails), hour), IsPeak(ownerId, hour), fmt))
    {
    }

    /** The computation of generateForOwner up to the save: the window,
        its total, the baseline, the expected value, the peak flag and the
        threshold comparison. */
    method Evaluate(ownerId: Id, now: Instant, hour: Hour, hourOf: Instant -> Hour,
                    baselineFails: bool, fmt: Formats) returns (d: Option<Recommendation>)
      requires forecast.readings == readings
      ensures d == Draft(ownerId, now, hour, hourOf, baselineFails, fmt)
    {
      var minutes := WindowLength(windowMinutes);
      var window := Window(ownerId, now);
      if window == [] {
        return None;
      }
      var kwh := TotalKwh(window);
      if kwh < MIN_WINDOW_KWH {
        return None;
      }
      var baseline: map<int, real>;
      if baselineFails {
        baseline := map[];
      } else {
        baseline := forecast.HourlyBaseline(ownerId, BASELINE_DAYS, now, hourOf);
      }
      assert baseline == AgentBaseline(ownerId, now, hourOf, baselineFails);
      var expected := Expected(baseline, hour);
      var t := tariffs.FindByOwnerId(ownerId);
      var isPeak := t.Some? && InPeak(hour, t.value.peakStart, t.value.peakEnd);
      assert isPeak == IsPeak(ownerId, hour);
      var threshold := Threshold(expected);
      assert Decide(window, expected, isPeak) == if kwh > threshold then Some(if isPeak then ALERT else WARN) else None;
      if kwh > threshold {
        var level := if isPeak then ALERT else WARN;
        var msg := Message(minutes, kwh, expected, isPeak, fmt);
        d := Some(Recommendation(0, ownerId, msg, level, NEW, now));
      } else {
        d := None;
      }
    }

    /** generateForOwner(ownerId). */
    method GenerateForOwner(ownerId: Id, now: Instant, hour: Hour, hourOf: Instant -> Hour,
                            baselineFails: bool, fmt: Formats)
      requires Valid()
      modifies recos
      ensures Valid()
      ensures recos.rows == old(recos.rows) + Saved(old(Draft(ownerId, now, hour, hourOf, baselineFails, fmt)), old(recos.nextId))
      ensures recos.nextId == old(recos.nextId) + (|recos.rows| - |old(recos.rows)|)
    {
      var d := Evaluate(ownerId, now, hour, hourOf, baselineFails, fmt);
      if d.Some? {
        var saved := recos.Insert(d.value);
      }
    }

    /** The recommendation generateForOwner would save for each user, in
        order. */
    function Drafts(us: seq<User>, now: Instant, hour: Hour, hourOf: Instant -> Hour,
                    baselineFails: Id -> bool, fmt: Formats): (ds: seq<Option<Recommendation>>)
      reads readings, forecast.readings, tariffs
      ensures |ds| == |us|
    {
      seq(|us|, i requires 0 <= i < |us| reads readings, forecast.readings, tariffs =>
        Draft(us[i].id, now, hour, hourOf, baselineFails(us[i].id), fmt))
    }

    /** scheduledRun: generateForOwner for every stored user, in order;
        baselineFails says for which owners computing the baseline fails. */
    method ScheduledRun(now: Instant, hour: Hour, hourOf: Instant -> Hour,
                        baselineFails: Id -> bool, fmt: Formats)
      requires Valid()
      modifies recos
      ensures Valid()
      ensures recos.rows == old(recos.rows) + Planned(old(Drafts(users.rows, now, hour, hourOf, baselineFails, fmt)), old(recos.nextId))
    {
      var all := users.rows;
      ghost var ds := Drafts(all, now, hour, hourOf, baselineFails, fmt);
      for i := 0 to |all|
        invariant Valid()
        invariant ds == old(Drafts(all, now, hour, hourOf, baselineFails, fmt))
        invariant recos.rows == old(recos.rows) + Planned(ds[..i], old(recos.nextId))
        invariant recos.nextId == old(recos.nextId) + |Planned(ds[..i], old(recos.nextId))|
      {
        var u := all[i];
        ghost var rows0 := recos.rows;
        ghost var n0 := recos.nextId;
        assert ds[i] == old(Draft(u.id, now, hour, hourOf, baselineFails(u.id), fmt));
        assert ds[i] == Draft(u.id, now, hour, hourOf, baselineFails(u.id), fmt);
        GenerateForOwner(u.id, now, hour, hourOf, baselineFails(u.id), fmt);
        PlannedStep(ds, i, old(recos.nextId), old(recos.rows), rows0, recos.rows, n0, recos.nextId);
      }
      assert ds[..|all|] == ds;
    }
  }

  /** The recommendations saved for these drafts, in order, with the ids
      they get from `first` on. */
  function Planned(ds: seq<Option<Recommendation>>, first: Id): (ps: seq<Recommendation>)
    ensures |ps| <= |ds|
    ensures forall i :: 0 <= i < |ps| ==> ps[i].id == first + i
  {
    if ds == [] then []
    else
      var init := Planned(ds[..|ds| - 1], first);
      init + Saved(ds[|ds| - 1], first + |init|)
  }

  lemma PlannedSnoc(ds: seq<Option<Recommendation>>, i: int, first: Id)
    requires 0 <= i < |ds|
    ensures Planned(ds[..i + 1], first) ==
            Planned(ds[..i], first) + Saved(ds[i], first + |Planned(ds[..i], first)|)
  {
    assert ds[..i + 1][..i] == ds[..i];
  }

  lemma PlannedStep(ds: seq<Option<Recommendation>>, i: int, first: Id,
                    before: seq<Recommendation>, mid: seq<Recommendation>, after: seq<Recommendation>,
                    nextMid: Id, nextAfter: Id)
    requires 0 <= i < |ds|
    requires mid == before + Planned(ds[..i], first)
    requires nextMid == first + |Planned(ds[..i], first)|
    requires after == mid + Saved(ds[i], nextMid)
    requires nextAfter == nextMid + (|after| - |mid|)
    ensures after == before + Planned(ds[..i + 1], first)
    ensures nextAfter == first + |Planned(ds[..i + 1], first)|
  {
    var done := Planned(ds[..i], first);
    var last := Saved(ds[i], nextMid);
    PlannedSnoc(ds, i, first);
    assert Planned(ds[..i + 1], first) == done + last;
    assert after == before + (done + last);
  }

  /** What saving an optional recommendation with the next id appends. */
  function Saved(d: Option<Recommendation>, id: Id): (r: seq<Recommendation>)
    ensures d.None? ==> r == []
    ensures d.Some? ==> r == [d.value.(id := id)]
  {
    if d.Some? then [d.value.(id := id)] else []
  }
}
