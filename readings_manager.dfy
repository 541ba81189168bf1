/** ReadingsManager: the readings page. It loads the owner's devices and the
    readings of the last seven days (newest first), records a reading entered
    as kWh over some minutes, and draws one chart per device. */
module ReadingsPage {
  import opened Common
  import opened Energy
  import opened Entities
  import opened Seqs
  import opened Browser

  /** A reading as the page shows it. */
  datatype UiReading = UiReading(id: Id, deviceId: real, deviceName: string, kwh: real, timestamp: Instant)

  /** The dialog's text fields. */
  datatype ReadingForm = ReadingForm(deviceId: string, kwh: string, date: string, time: string, minutes: string)

  /** The two calls of a load: the owner's devices, and the owner's readings
      between `from` and `to`. */
  datatype LoadRequest = LoadRequest(ownerId: real, from: Instant, to: Instant)

  /** The body of the create call. */
  datatype ReadingRequest = ReadingRequest(deviceId: real, watt: int, minutes: real, recordedAt: Instant)

  const WINDOW_DAYS: int := 7
  const DEFAULT_MINUTES_TEXT: string := "60"

  function Timestamp(u: UiReading): real
  {
    u.timestamp as real
  }

  /** A stored reading as a row of the page: its kWh is the one the backend
      computes for it. */
  function ToUi(r: Reading): (u: UiReading)
    ensures u.id == r.id && u.deviceId == r.device.id as real && u.deviceName == r.device.name
    ensures u.kwh == ReadingKwh(r) && u.timestamp == r.recordedAt
  {
    UiReading(r.id, r.device.id as real, r.device.name, KwhOf(r.watt as real, r.minutes.GetOr(DEFAULT_MINUTES) as real), r.recordedAt)
  }

  function UiRows(rs: seq<Reading>): (us: seq<UiReading>)
    ensures |us| == |rs|
    ensures forall i :: 0 <= i < |rs| ==> us[i] == ToUi(rs[i])
  {
    if rs == [] then [] else [ToUi(rs[0])] + UiRows(rs[1..])
  }

  /** The kWh the page shows after a save: the stored watts held for the
      minutes typed in the form. */
  function ShownKwh(savedWatt: int, minutes: real): real
  {
    KwhOf(savedWatt as real, minutes)
  }

  /** The form checks of handleSaveReading: every field filled, a numeric
      device id, a positive kWh and a positive number of minutes, and a date
      and time that make a valid instant. `toNumber` is Number() (None for
      NaN), `toInstant` the local date and time parsed (None for an invalid
      date). The request carries the watts that give the kWh over those
      minutes. */
  function Request(form: ReadingForm, toNumber: string -> Option<real>,
                   toInstant: (string, string) -> Option<Instant>): (req: Option<ReadingRequest>)
    ensures req.Some? <==>
              && form.deviceId != "" && form.kwh != "" && form.date != "" && form.time != "" && form.minutes != ""
              && toNumber(form.deviceId).Some?
              && toNumber(form.kwh).Some? && toNumber(form.kwh).value > 0.0
              && toNumber(form.minutes).Some? && toNumber(form.minutes).value > 0.0
              && toInstant(form.date, form.time).Some?
    ensures req.Some? ==>
              && req.value.deviceId == toNumber(form.deviceId).value
              && req.value.minutes == toNumber(form.minutes).value
              && req.value.recordedAt == toInstant(form.date, form.time).value
              && req.value.watt == RecoverWatt(toNumber(form.kwh).value, toNumber(form.minutes).value)
              && req.value.watt >= 0
              && var kwh, m := toNumber(form.kwh).value, req.value.minutes;
                 kwh - m / 120000.0 <= ShownKwh(req.value.watt, m) <= kwh + m / 120000.0
  {
    if form.deviceId == "" || form.kwh == "" || form.date == "" || form.time == "" || form.minutes == "" then None
    else
      var deviceId, kwh, minutes := toNumber(form.deviceId), toNumber(form.kwh), toNumber(form.minutes);
      if deviceId.None? || kwh.None? || kwh.value <= 0.0 || minutes.None? || minutes.value <= 0.0 then None
      else if toInstant(form.date, form.time).None? then None
      else
        RedisplayError(kwh.value, minutes.value);
        Some(ReadingRequest(deviceId.value, RecoverWatt(kwh.value, minutes.value), minutes.value, toInstant(form.date, form.time).value))
  }

  /** The readings of one device, oldest first: what its chart plots. */
  function ChartRows(readings: seq<UiReading>, deviceId: real): (rs: seq<UiReading>)
    ensures SortedAsc(rs, Timestamp)
    ensures forall u :: multiset(rs)[u] == if u.deviceId == deviceId then multiset(readings)[u] else 0
  {
    SortAsc(Filter(readings, (u: UiReading) => u.deviceId == deviceId), Timestamp)
  }

  class ReadingsManager {
    var devices: seq<Device>
    var readings: seq<UiReading>
    var loading: bool
    var isDialogOpen: bool
    var form: ReadingForm

    constructor ()
      ensures devices == [] && readings == [] && !loading && !isDialogOpen
      ensures form == ReadingForm("", "", "", "", DEFAULT_MINUTES_TEXT)
    {
      devices := [];
      readings := [];
      loading := false;
      isDialogOpen := false;
      form := ReadingForm("", "", "", "", DEFAULT_MINUTES_TEXT);
    }

    /** loadAll at `now`: no call without an active owner; otherwise the
        devices and the last seven days of readings are asked for, and on
        success the readings are shown newest first. A failed call changes
        nothing but the loading flag. */
    method LoadAll(ownerId: Option<real>, now: Instant, outcome: Outcome<(seq<Device>, seq<Reading>)>)
      returns (req: Option<LoadRequest>)
      modifies this
      ensures !Active(ownerId) ==> req.None? && unchanged(this)
      ensures Active(ownerId) ==> req == Some(LoadRequest(ownerId.value, now - WINDOW_DAYS * MILLIS_PER_DAY, now))
      ensures Active(ownerId) ==> !loading && isDialogOpen == old(isDialogOpen) && form == old(form)
      ensures Active(ownerId) && !outcome.Success? ==> devices == old(devices) && readings == old(readings)
      ensures Active(ownerId) && outcome.Success? ==>
                && devices == outcome.data.0
                && SortedDesc(readings, Timestamp)
                && multiset(readings) == multiset(UiRows(outcome.data.1))
    {
      if !Active(ownerId) {
        return None;
      }
      req := Some(LoadRequest(ownerId.value, now - WINDOW_DAYS * MILLIS_PER_DAY, now));
      loading := true;
      if outcome.Success? {
        devices := outcome.data.0;
        readings := SortDesc(UiRows(outcome.data.1), Timestamp);
      }
      loading := false;
    }

    /** handleAddReading: an empty form dated now, and the dialog open. */
    method OpenDialog(today: string, clockTime: string)
      modifies this
      ensures form == ReadingForm("", "", today, clockTime, DEFAULT_MINUTES_TEXT) && isDialogOpen
      ensures devices == old(devices) && readings == old(readings) && loading == old(loading)
    {
      form := ReadingForm("", "", today, clockTime, DEFAULT_MINUTES_TEXT);
      isDialogOpen := true;
    }

    /** handleSaveReading: no call when the form fails its checks; otherwise
        the reading is sent, and on success the stored reading is put first
        in the list, with the kWh of its watts over the form's minutes, and
        the dialog closes. A failed call changes nothing. */
    method SaveReading(toNumber: string -> Option<real>, toInstant: (string, string) -> Option<Instant>,
                       outcome: Outcome<Reading>)
      returns (req: Option<ReadingRequest>)
      modifies this
      ensures req == Request(old(form), toNumber, toInstant)
      ensures devices == old(devices) && loading == old(loading) && form == old(form)
      ensures (req.None? || !outcome.Success?) ==> readings == old(readings) && isDialogOpen == old(isDialogOpen)
      ensures req.Some? && outcome.Success? ==>
                var saved := outcome.data;
                && readings == [UiReading(saved.id, req.value.deviceId, saved.device.name,
                                          ShownKwh(saved.watt, req.value.minutes), saved.recordedAt)] + old(readings)
                && !isDialogOpen
    {
      req := Request(form, toNumber, toInstant);
      if req.None? || !outcome.Success? {
        return;
      }
      var saved := outcome.data;
      var ui := UiReading(saved.id, req.value.deviceId, saved.device.name, ShownKwh(saved.watt, req.value.minutes), saved.recordedAt);
      readings := [ui] + readings;
      isDialogOpen := false;
    }

    /** getDeviceChartData: the device's readings oldest first, labelled by
        `dayLabel` (the dd/MM text of an instant), each kWh to three
        decimals. */
    function DeviceChartData(deviceId: real, dayLabel: Instant -> string): (chart: (seq<string>, seq<real>))
      reads this
      ensures var rs := ChartRows(readings, deviceId);
              && |chart.0| == |rs| == |chart.1|
              && forall i :: 0 <= i < |rs| ==> chart.0[i] == dayLabel(rs[i].timestamp) && chart.1[i] == Fixed3(rs[i].kwh)
    {
      var rs := ChartRows(readings, deviceId);
      (DayLabels(rs, dayLabel), Rounded(rs))
    }
  }

  function DayLabels(rs: seq<UiReading>, dayLabel: Instant -> string): (labels: seq<string>)
    ensures |labels| == |rs| && forall i :: 0 <= i < |rs| ==> labels[i] == dayLabel(rs[i].timestamp)
  {
    seq(|rs|, i requires 0 <= i < |rs| => dayLabel(rs[i].timestamp))
  }

  /** Number(x.toFixed(3)) on an exact value: the magnitude is rounded to
      three decimals, half up, and the sign is put back. It agrees with
      round3 on non-negative values and misses x by at most half a
      thousandth. */
  function Fixed3(x: real): (y: real)
    ensures x - 0.0005 <= y <= x + 0.0005
    ensures x >= 0.0 ==> y == Round3(x)
  {
    if x >= 0.0 then Round3(x) else -Round3(-x)
  }

  /** toFixed is symmetric in the sign, unlike round3 at a tie. */
  lemma Fixed3Odd(x: real)
    ensures Fixed3(-x) == -Fixed3(x)
  {
    if x == 0.0 {
      Round3OfZero();
    }
  }

  function Rounded(rs: seq<UiReading>): (values: seq<real>)
    ensures |values| == |rs| && forall i :: 0 <= i < |rs| ==> values[i] == Fixed3(rs[i].kwh)
  {
    seq(|rs|, i requires 0 <= i < |rs| => Fixed3(rs[i].kwh))
  }

  /** A loaded reading shows the kWh the backend's services count for it. */
  lemma LoadedKwhIsBackendKwh(rs: seq<Reading>, u: UiReading)
    requires u in SortDesc(UiRows(rs), Timestamp)
    ensures exists r :: r in rs && u == ToUi(r) && u.kwh == ReadingKwh(r)
  {
    assert u in multiset(UiRows(rs));
    var i :| 0 <= i < |UiRows(rs)| && UiRows(rs)[i] == u;
    assert rs[i] in rs;
  }
}
