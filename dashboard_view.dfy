/** Dashboard: the frontend page over a summary of the last seven days in
    the shape DashboardService produces: two metric cards, the hourly and
    daily charts, and the table of the top devices. (The backend's summary
    endpoint answers with a fixed sample instead of calling the service.) */
module DashboardPage {
  import opened Common
  import opened Entities
  import opened Browser
  import opened Dashboard
  import Js

  const WINDOW_DAYS: int := 7
  const NO_DATA_COST: string := "$0"

  datatype SummaryRequest = SummaryRequest(ownerId: real, from: Instant, to: Instant)

  /** The label of an hour bucket: the text after its first space, or the
      whole bucket when it has none. */
  function HourLabel(bucket: string): (shown: string)
    ensures ' ' !in shown
    ensures ' ' !in bucket ==> shown == bucket
  {
    var parts := Js.Split(bucket, ' ');
    if |parts| >= 2 then parts[1] else bucket
  }

  /** A "day hour" bucket is labelled with its hour. */
  lemma HourLabelOfBucket(day: string, hour: string)
    requires ' ' !in day && ' ' !in hour
    ensures HourLabel(day + " " + hour) == hour
  {
    Js.SplitPrefix(day, ' ', hour);
    assert day + " " + hour == day + [' '] + hour;
  }

  function Points(data: Option<Summary>, daily: bool): seq<Point>
  {
    if data.None? then [] else if daily then data.value.byDay else data.value.byHour
  }

  /** The hourly line chart: one label and one value per hour bucket, in
      the summary's order. */
  function HourlyChart(data: Option<Summary>): (chart: (seq<string>, seq<real>))
    ensures var ps := Points(data, false);
            && |chart.0| == |ps| == |chart.1|
            && forall i :: 0 <= i < |ps| ==> chart.0[i] == HourLabel(ps[i].key) && chart.1[i] == ps[i].kwh
  {
    var ps := Points(data, false);
    (seq(|ps|, i requires 0 <= i < |ps| => HourLabel(ps[i].key)), seq(|ps|, i requires 0 <= i < |ps| => ps[i].kwh))
  }

  /** The daily bar chart: labels, values and one colour per day bucket. */
  function DailyChart(data: Option<Summary>, colour: string): (chart: (seq<string>, seq<real>, seq<string>))
    ensures var ps := Points(data, true);
            && |chart.0| == |ps| == |chart.1| == |chart.2|
            && forall i :: 0 <= i < |ps| ==> chart.0[i] == ps[i].key && chart.1[i] == ps[i].kwh && chart.2[i] == colour
  {
    var ps := Points(data, true);
    (seq(|ps|, i requires 0 <= i < |ps| => ps[i].key), seq(|ps|, i requires 0 <= i < |ps| => ps[i].kwh),
     seq(|ps|, _ => colour))
  }

  /** The consumption card: the summary's total in kWh, 0 before any
      summary. `numText` writes a number as a template literal does. */
  function ConsumptionText(data: Option<Summary>, numText: real -> string): (text: string)
    ensures data.None? ==> text == "0 kWh"
    ensures data.Some? ==> text == numText(data.value.totalKwh) + " kWh"
  {
    (if data.Some? then numText(data.value.totalKwh) else "0") + " kWh"
  }

  /** The cost card: the summary's cost as Colombian pesos
      (`currencyText`), "$0" before any summary. */
  function CostText(data: Option<Summary>, currencyText: real -> string): (text: string)
    ensures data.None? ==> text == NO_DATA_COST
    ensures data.Some? ==> text == currencyText(data.value.totalCost)
  {
    if data.Some? then currencyText(data.value.totalCost) else NO_DATA_COST
  }

  /** Whether the table shows its "Sin datos" row. */
  predicate ShowsNoData(data: Option<Summary>)
  {
    data.None? || |data.value.topDevices| == 0
  }

  /** Over a summary the service computed, the table is empty exactly when
      the window holds no reading. */
  lemma NoDataExactlyWhenWindowEmpty(s: Summary, list: seq<Reading>)
    requires s.topDevices == TopDevices(list)
    ensures ShowsNoData(Some(s)) <==> list == []
  {
    TopDevicesSize(list);
  }

  class DashboardView {
    var data: Option<Summary>
    var loading: bool

    constructor ()
      ensures data.None? && !loading
    {
      data := None;
      loading := false;
    }

    /** load at `now`: no call without an active owner; otherwise the summary
        of the last seven days is asked for and, on success, shown. A failed
        call keeps what was shown. */
    method Load(ownerId: Option<real>, now: Instant, outcome: Outcome<Summary>) returns (req: Option<SummaryRequest>)
      modifies this
      ensures !Active(ownerId) ==> req.None? && unchanged(this)
      ensures Active(ownerId) ==> req == Some(SummaryRequest(ownerId.value, now - WINDOW_DAYS * MILLIS_PER_DAY, now))
      ensures Active(ownerId) ==> !loading && data == if outcome.Success? then Some(outcome.data) else old(data)
    {
      if !Active(ownerId) {
        return None;
      }
      req := Some(SummaryRequest(ownerId.value, now - WINDOW_DAYS * MILLIS_PER_DAY, now));
      loading := true;
      if outcome.Success? {
        data := Some(outcome.data);
      }
      loading := false;
    }
  }
}
