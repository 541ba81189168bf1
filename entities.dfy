/** The persisted entities of the backend (users, devices, readings,
    tariffs, recommendations) as values, and the energy sums over a list of
    readings that the services compute. */
module Entities {
  import opened Common
  import opened Energy

  type Id = int

  datatype User = User(
    id: Id,
    username: string,
    email: string,
    fullName: string,
    passwordHash: string,
    role: string,
    createdAt: Instant)

  datatype Device = Device(
    id: Id,
    name: string,
    deviceType: string,
    watt: int,
    location: string,
    ownerId: Id,
    createdAt: Instant)

  /** A reading holds the device it was taken on. */
  datatype Reading = Reading(
    id: Id,
    device: Device,
    watt: int,
    minutes: Option<int>,
    recordedAt: Instant)

  datatype Tariff = Tariff(
    id: Id,
    ownerId: Id,
    pricePerKwh: real,
    peakStart: Option<int>,
    peakEnd: Option<int>)

  datatype Recommendation = Recommendation(
    id: Id,
    ownerId: Id,
    message: string,
    level: string,
    status: string,
    createdAt: Instant)

  function ReadingKwh(r: Reading): real
  {
    Kwh(r.watt, r.minutes)
  }

  /** A reading with a non-negative draw and duration. */
  predicate NonNegative(r: Reading)
  {
    r.watt >= 0 && r.minutes.GetOr(DEFAULT_MINUTES) >= 0
  }

  /** The summed kWh of a list of readings, the last one added last. */
  function TotalKwh(list: seq<Reading>): (t: real)
    ensures (forall i :: 0 <= i < |list| ==> NonNegative(list[i])) ==> t >= 0.0
  {
    if list == [] then 0.0
    else TotalKwh(list[..|list| - 1]) + ReadingKwh(list[|list| - 1])
  }

  /** The summed kWh of the readings whose key is k: one bucket of a
      grouping by keyOf. */
  function KeyedKwh<K(==)>(list: seq<Reading>, keyOf: Reading -> K, k: K): (t: real)
    ensures (forall i :: 0 <= i < |list| ==> keyOf(list[i]) != k) ==> t == 0.0
    ensures (forall i :: 0 <= i < |list| ==> keyOf(list[i]) == k) ==> t == TotalKwh(list)
  {
    if list == [] then 0.0
    else
      var last := list[|list| - 1];
      KeyedKwh(list[..|list| - 1], keyOf, k) + (if keyOf(last) == k then ReadingKwh(last) else 0.0)
  }

  /** The derived query findByDeviceOwnerIdAndRecordedAtBetween: the device
      belongs to the owner and the instant lies in [from, to], both ends
      included. */
  predicate OwnedBetween(r: Reading, ownerId: Id, from: Instant, to: Instant)
  {
    r.device.ownerId == ownerId && from <= r.recordedAt <= to
  }
}
