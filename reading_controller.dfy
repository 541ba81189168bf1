/** ReadingController: listing an owner's readings in a time range, storing
    one reading, and storing a batch of readings one after the other. */
module ReadingControl {
  import opened Common
  import opened Energy
  import opened Entities
  import opened Repositories
  import opened Http

  const EMPTY_BATCH: string := "readings vacío"

  /** The create body; minutes and recordedAt may be left out. */
  datatype CreateReading = CreateReading(deviceId: Id, watt: int, minutes: Option<int>, recordedAt: Option<Instant>)

  /** The reading stored for a request on device d: an absent duration is
      DEFAULT_MINUTES and an absent time is the clock's `now`. */
  function Built(c: CreateReading, d: Device, id: Id, now: Instant): (r: Reading)
    ensures r.id == id && r.device == d && r.watt == c.watt
    ensures r.minutes == Some(if c.minutes.Some? then c.minutes.value else DEFAULT_MINUTES)
    ensures r.recordedAt == if c.recordedAt.Some? then c.recordedAt.value else now
  {
    Reading(id, d, c.watt, Some(c.minutes.GetOr(DEFAULT_MINUTES)), c.recordedAt.GetOr(now))
  }

  predicate Known(devices: seq<Device>, c: CreateReading)
  {
    DeviceWithId(devices, c.deviceId).Some?
  }

  /** The stored device a known request names. */
  function DeviceFor(devices: seq<Device>, c: CreateReading): (d: Device)
    requires Known(devices, c)
    ensures d in devices && d.id == c.deviceId
  {
    DeviceWithId(devices, c.deviceId).value
  }

  /** How many leading requests name a stored device: the batch stops at
      the first one that does not. */
  function KnownPrefix(cs: seq<CreateReading>, devices: seq<Device>): (k: nat)
    ensures k <= |cs|
    ensures forall i :: 0 <= i < k ==> Known(devices, cs[i])
    ensures k < |cs| ==> !Known(devices, cs[k])
  {
    if cs == [] || !Known(devices, cs[0]) then 0
    else
      var k := 1 + KnownPrefix(cs[1..], devices);
      assert forall i :: 1 <= i < k ==> cs[i] == cs[1..][i - 1];
      k
  }

  /** The readings a batch of known requests stores, the i-th under id
      first + i, taken at clock(i) when it has no time of its own. */
  function Stored(cs: seq<CreateReading>, devices: seq<Device>, first: Id, clock: nat -> Instant): (rs: seq<Reading>)
    requires forall i :: 0 <= i < |cs| ==> Known(devices, cs[i])
    ensures |rs| == |cs|
  {
    if cs == [] then []
    else
      var n := |cs| - 1;
      Stored(cs[..n], devices, first, clock) + [Built(cs[n], DeviceFor(devices, cs[n]), first + n, clock(n))]
  }

  /** The i-th request of a batch becomes the i-th stored reading, on the
      device it names, under id first + i. */
  lemma {:induction false} StoredAt(cs: seq<CreateReading>, devices: seq<Device>, first: Id, clock: nat -> Instant, i: nat)
    requires forall j :: 0 <= j < |cs| ==> Known(devices, cs[j])
    requires i < |cs|
    ensures Stored(cs, devices, first, clock)[i] == Built(cs[i], DeviceFor(devices, cs[i]), first + i, clock(i))
  {
    var n := |cs| - 1;
    if i < n {
      StoredAt(cs[..n], devices, first, clock, i);
    }
  }

  lemma StoredSnoc(cs: seq<CreateReading>, devices: seq<Device>, first: Id, clock: nat -> Instant, i: nat)
    requires i < |cs|
    requires forall j :: 0 <= j <= i ==> Known(devices, cs[j])
    ensures Stored(cs[..i + 1], devices, first, clock) ==
            Stored(cs[..i], devices, first, clock) +
            [Built(cs[i], DeviceFor(devices, cs[i]), first + i, clock(i))]
  {
    assert cs[..i + 1][..i] == cs[..i];
  }

  /** One more known request stored extends the batch's readings by its
      reading. */
  lemma StoredStep(cs: seq<CreateReading>, devices: seq<Device>, first: Id, clock: nat -> Instant, i: nat,
                   prefix: seq<Reading>, before: seq<Reading>, after: seq<Reading>, d: Device)
    requires i <= KnownPrefix(cs, devices) && i < |cs|
    requires DeviceWithId(devices, cs[i].deviceId) == Some(d)
    requires before == prefix + Stored(cs[..i], devices, first, clock)
    requires after == before + [Built(cs[i], d, first + i, clock(i))]
    ensures after == prefix + Stored(cs[..i + 1], devices, first, clock)
  {
    StoredSnoc(cs, devices, first, clock, i);
  }

  /** The readings a batch stores carry stored devices, so a table whose
      readings all do keeps that property. */
  lemma {:induction false} StoredKeepsCurrent(rows: seq<Reading>, cs: seq<CreateReading>, devices: seq<Device>,
                                             first: Id, clock: nat -> Instant)
    requires forall i :: 0 <= i < |cs| ==> Known(devices, cs[i])
    requires CurrentDevices(rows, devices)
    ensures CurrentDevices(rows + Stored(cs, devices, first, clock), devices)
  {
    var all := rows + Stored(cs, devices, first, clock);
    forall i | 0 <= i < |all| ensures all[i].device in devices {
      if i >= |rows| {
        StoredAt(cs, devices, first, clock, i - |rows|);
      }
    }
  }

  /** The readings a bulk request stores before its first unknown device
      all carry stored devices. */
  lemma BatchKeepsCurrent(rows: seq<Reading>, cs: seq<CreateReading>, devices: seq<Device>,
                          first: Id, clock: nat -> Instant)
    requires CurrentDevices(rows, devices)
    ensures CurrentDevices(rows + Stored(cs[..KnownPrefix(cs, devices)], devices, first, clock), devices)
  {
    var k := KnownPrefix(cs, devices);
    assert forall i :: 0 <= i < k ==> cs[..k][i] == cs[i];
    StoredKeepsCurrent(rows, cs[..k], devices, first, clock);
  }

  class ReadingController {
    const readings: ReadingRepository
    const devices: DeviceRepository

    constructor (readings: ReadingRepository, devices: DeviceRepository)
      ensures this.readings == readings && this.devices == devices
    {
      this.readings := readings;
      this.devices := devices;
    }

    /** list: the owner's readings in [from, to], of one device when a
        device id is given. */
    function List(ownerId: Id, from: Instant, to: Instant, deviceId: Option<Id>): (r: seq<Reading>)
      reads readings
      ensures forall x :: x in r <==>
                x in readings.rows && x.device.ownerId == ownerId && from <= x.recordedAt <= to &&
                (deviceId.Some? ==> x.device.id == deviceId.value)
    {
      if deviceId.Some? then readings.BetweenForDevice(ownerId, from, to, deviceId.value)
      else readings.Between(ownerId, from, to)
    }

    /** create: 500 when the device is unknown; otherwise one reading is
        stored on that device, with the defaults filled in. */
    method Create(body: CreateReading, now: Instant) returns (resp: Response<Reading>)
      requires readings.Valid()
      modifies readings
      ensures readings.Valid()
      ensures !Known(devices.rows, body) ==> resp == Error(SERVER_ERROR, NO_MESSAGE) && unchanged(readings)
      ensures Known(devices.rows, body) ==>
                var saved := Built(body, DeviceFor(devices.rows, body), old(readings.nextId), now);
                resp == Ok(saved) && readings.rows == old(readings.rows) + [saved]
      ensures CurrentDevices(old(readings.rows), devices.rows) ==> CurrentDevices(readings.rows, devices.rows)
    {
      var d := devices.FindById(body.deviceId);
      if d.None? {
        return Error(SERVER_ERROR, NO_MESSAGE);
      }
      var saved := readings.Insert(Built(body, d.value, 0, now));
      resp := Ok(saved);
    }

    /** bulk: 400 for a missing or empty batch; otherwise the requests are
        stored in order until the first one naming an unknown device, which
        answers 500 and leaves the ones before it stored. clock(i) is the
        time at which the i-th request is handled. */
    method Bulk(items: Option<seq<CreateReading>>, clock: nat -> Instant) returns (resp: Response<()>)
      requires readings.Valid()
      modifies readings
      ensures readings.Valid()
      ensures (items.None? || items.value == []) ==> resp == Error(BAD_REQUEST, EMPTY_BATCH) && unchanged(readings)
      ensures items.Some? && items.value != [] ==>
                var k := KnownPrefix(items.value, devices.rows);
                && readings.rows == old(readings.rows) + Stored(items.value[..k], devices.rows, old(readings.nextId), clock)
                && readings.nextId == old(readings.nextId) + k
                && resp == if k == |items.value| then Ok(()) else Error(SERVER_ERROR, NO_MESSAGE)
      ensures CurrentDevices(old(readings.rows), devices.rows) ==> CurrentDevices(readings.rows, devices.rows)
    {
      if items.None? || items.value == [] {
        return Error(BAD_REQUEST, EMPTY_BATCH);
      }
      var cs := items.value;
      ghost var devs, rows0, first := devices.rows, readings.rows, readings.nextId;
      for i := 0 to |cs|
        invariant readings.Valid() && devices.rows == devs
        invariant i <= KnownPrefix(cs, devs)
        invariant readings.rows == rows0 + Stored(cs[..i], devs, first, clock)
        invariant readings.nextId == first + i
      {
        var d := devices.FindById(cs[i].deviceId);
        if d.None? {
          assert KnownPrefix(cs, devs) == i;
          if CurrentDevices(rows0, devs) {
            BatchKeepsCurrent(rows0, cs, devs, first, clock);
          }
          return Error(SERVER_ERROR, NO_MESSAGE);
        }
        var r := Built(cs[i], d.value, readings.nextId, clock(i));
        StoredStep(cs, devs, first, clock, i, rows0, readings.rows, readings.rows + [r], d.value);
        var saved := readings.Insert(r);
      }
      assert cs[..|cs|] == cs;
      assert KnownPrefix(cs, devs) == |cs|;
      if CurrentDevices(rows0, devs) {
        BatchKeepsCurrent(rows0, cs, devs, first, clock);
      }
      resp := Ok(());
    }
  }
}
