/** The Spring Data repositories the controllers and services share, each a
    table of rows in id order with the next identity value to hand out.
    save(x) on a new entity is Insert; save(x) on a loaded entity is
    Replace. */
module Repositories {
  import opened Common
  import opened Entities
  import opened Seqs

  /** The devices other than the one with that id, in their order. */
  function DevicesExcept(rows: seq<Device>, id: Id): (r: seq<Device>)
    ensures forall d :: d in r <==> d in rows && d.id != id
    ensures (forall i, j :: 0 <= i < j < |rows| ==> rows[i].id < rows[j].id) ==>
            (forall i, j :: 0 <= i < j < |r| ==> r[i].id < r[j].id)
  {
    if rows == [] then []
    else if rows[0].id == id then DevicesExcept(rows[1..], id)
    else
      var rest := DevicesExcept(rows[1..], id);
      assert forall k :: 0 <= k < |rest| ==> rest[k] in rows[1..];
      [rows[0]] + rest
  }

  /** The recommendations other than the one with that id, in their order. */
  function RecommendationsExcept(rows: seq<Recommendation>, id: Id): (r: seq<Recommendation>)
    ensures forall x :: x in r <==> x in rows && x.id != id
    ensures (forall i, j :: 0 <= i < j < |rows| ==> rows[i].id < rows[j].id) ==>
            (forall i, j :: 0 <= i < j < |r| ==> r[i].id < r[j].id)
  {
    if rows == [] then []
    else if rows[0].id == id then RecommendationsExcept(rows[1..], id)
    else
      var rest := RecommendationsExcept(rows[1..], id);
      assert forall k :: 0 <= k < |rest| ==> rest[k] in rows[1..];
      [rows[0]] + rest
  }

  /** The device stored under an id, if any (findById). */
  function DeviceWithId(rows: seq<Device>, id: Id): (r: Option<Device>)
    ensures r.Some? ==> r.value in rows && r.value.id == id
    ensures r.None? <==> forall i :: 0 <= i < |rows| ==> rows[i].id != id
  {
    if rows == [] then None
    else if rows[0].id == id then Some(rows[0])
    else
      var r := DeviceWithId(rows[1..], id);
      assert forall i :: 1 <= i < |rows| ==> rows[i] == rows[1..][i - 1];
      r
  }

  /** The position of the first tariff of an owner, or |rows|. */
  function FirstOwned(rows: seq<Tariff>, ownerId: Id): (k: nat)
    ensures k <= |rows|
    ensures forall j :: 0 <= j < k ==> rows[j].ownerId != ownerId
    ensures k < |rows| ==> rows[k].ownerId == ownerId
  {
    if rows == [] || rows[0].ownerId == ownerId then 0
    else
      var k := 1 + FirstOwned(rows[1..], ownerId);
      assert forall j :: 1 <= j < k ==> rows[j] == rows[1..][j - 1];
      k
  }

  /** The owner's first tariff, if any (findByOwnerId). */
  function TariffOf(rows: seq<Tariff>, ownerId: Id): (r: Option<Tariff>)
    ensures r.Some? ==> r.value in rows && r.value.ownerId == ownerId
    ensures r.None? <==> forall i :: 0 <= i < |rows| ==> rows[i].ownerId != ownerId
  {
    var k := FirstOwned(rows, ownerId);
    if k < |rows| then Some(rows[k]) else None
  }

  /** A reading references its device's row (a non-null foreign key), so it
      shows that device as currently stored: every stored reading carries a
      stored device. */
  ghost predicate CurrentDevices(readings: seq<Reading>, devices: seq<Device>)
  {
    forall i :: 0 <= i < |readings| ==> readings[i].device in devices
  }

  /** after is before with every device of d's id replaced by d, in place. */
  ghost predicate DeviceReplaced(before: seq<Device>, after: seq<Device>, d: Device)
  {
    && |after| == |before|
    && forall i :: 0 <= i < |after| ==> after[i] == if before[i].id == d.id then d else before[i]
  }

  /** after is before with every reading of device d.id showing d, in place. */
  ghost predicate ReadingsRefreshed(before: seq<Reading>, after: seq<Reading>, d: Device)
  {
    && |after| == |before|
    && forall i :: 0 <= i < |after| ==>
         after[i] == if before[i].device.id == d.id then before[i].(device := d) else before[i]
  }

  class UserRepository {
    var rows: seq<User>
    var nextId: Id

    ghost predicate Valid()
      reads this
    {
      && (forall i, j :: 0 <= i < j < |rows| ==> rows[i].id < rows[j].id)
      && (forall i :: 0 <= i < |rows| ==> rows[i].id < nextId)
    }

    constructor ()
      ensures Valid() && rows == [] && nextId == 1
    {
      rows := [];
      nextId := 1;
    }

    function FindById(id: Id): (r: Option<User>)
      reads this
      ensures r.Some? ==> r.value in rows && r.value.id == id
      ensures r.None? <==> forall i :: 0 <= i < |rows| ==> rows[i].id != id
    {
      Find(rows, (u: User) => u.id == id)
    }

    function FindByEmail(email: string): (r: Option<User>)
      reads this
      ensures r.Some? ==> r.value in rows && r.value.email == email
      ensures r.None? <==> forall i :: 0 <= i < |rows| ==> rows[i].email != email
    {
      Find(rows, (u: User) => u.email == email)
    }

    method Insert(u: User) returns (saved: User)
      requires Valid()
      modifies this
      ensures Valid()
      ensures saved == u.(id := old(nextId))
      ensures rows == old(rows) + [saved] && nextId == old(nextId) + 1
    {
      saved := u.(id := nextId);
      rows := rows + [saved];
      nextId := nextId + 1;
    }
  }

  class DeviceRepository {
    var rows: seq<Device>
    var nextId: Id

    ghost predicate Valid()
      reads this
    {
      && (forall i, j :: 0 <= i < j < |rows| ==> rows[i].id < rows[j].id)
      && (forall i :: 0 <= i < |rows| ==> rows[i].id < nextId)
    }

    constructor ()
      ensures Valid() && rows == [] && nextId == 1
    {
      rows := [];
      nextId := 1;
    }

    function FindById(id: Id): (r: Option<Device>)
      reads this
      ensures r.Some? ==> r.value in rows && r.value.id == id
      ensures r.None? <==> forall i :: 0 <= i < |rows| ==> rows[i].id != id
    {
      DeviceWithId(rows, id)
    }

    function FindByOwnerId(ownerId: Id): (r: seq<Device>)
      reads this
      ensures forall d :: d in r <==> d in rows && d.ownerId == ownerId
    {
      var p := (d: Device) => d.ownerId == ownerId;
      FilterMembershipAll(rows, p);
      Filter(rows, p)
    }

    method Insert(d: Device) returns (saved: Device)
      requires Valid()
      modifies this
      ensures Valid()
      ensures saved == d.(id := old(nextId))
      ensures rows == old(rows) + [saved] && nextId == old(nextId) + 1
    {
      saved := d.(id := nextId);
      rows := rows + [saved];
      nextId := nextId + 1;
    }

    /** save on a loaded device: the row with its id now holds d. */
    method Replace(d: Device)
      requires Valid()
      modifies this
      ensures Valid() && nextId == old(nextId)
      ensures DeviceReplaced(old(rows), rows, d)
    {
      rows := ReplaceWhere(rows, (x: Device) => x.id == d.id, d);
    }

    method DeleteById(id: Id)
      requires Valid()
      modifies this
      ensures Valid() && nextId == old(nextId)
      ensures rows == DevicesExcept(old(rows), id)
    {
      rows := DevicesExcept(rows, id);
    }
  }

  class ReadingRepository {
    var rows: seq<Reading>
    var nextId: Id

    ghost predicate Valid()
      reads this
    {
      && (forall i, j :: 0 <= i < j < |rows| ==> rows[i].id < rows[j].id)
      && (forall i :: 0 <= i < |rows| ==> rows[i].id < nextId)
    }

    constructor ()
      ensures Valid() && rows == [] && nextId == 1
    {
      rows := [];
      nextId := 1;
    }

    /** findByDeviceOwnerIdAndRecordedAtBetween */
    function Between(ownerId: Id, from: Instant, to: Instant): (r: seq<Reading>)
      reads this
      ensures forall x :: x in r <==> x in rows && OwnedBetween(x, ownerId, from, to)
    {
      var p := (x: Reading) => OwnedBetween(x, ownerId, from, to);
      FilterMembershipAll(rows, p);
      Filter(rows, p)
    }

    /** findByDeviceOwnerIdAndRecordedAtBetweenAndDeviceId */
    function BetweenForDevice(ownerId: Id, from: Instant, to: Instant, deviceId: Id): (r: seq<Reading>)
      reads this
      ensures forall x :: x in r <==> x in rows && OwnedBetween(x, ownerId, from, to) && x.device.id == deviceId
    {
      var p := (x: Reading) => OwnedBetween(x, ownerId, from, to) && x.device.id == deviceId;
      FilterMembershipAll(rows, p);
      Filter(rows, p)
    }

    /** Whether a stored reading references the device with that id. */
    predicate References(deviceId: Id)
      reads this
    {
      exists i | 0 <= i < |rows| :: rows[i].device.id == deviceId
    }

    /** The readings of device d.id now show d's values: a reading holds a
        reference to its device's row, not a copy of it. */
    method RefreshDevice(d: Device)
      requires Valid()
      modifies this
      ensures Valid() && nextId == old(nextId)
      ensures ReadingsRefreshed(old(rows), rows, d)
    {
      var before := rows;
      rows := seq(|before|, i requires 0 <= i < |before| =>
                if before[i].device.id == d.id then before[i].(device := d) else before[i]);
    }

    method Insert(r: Reading) returns (saved: Reading)
      requires Valid()
      modifies this
      ensures Valid()
      ensures saved == r.(id := old(nextId))
      ensures rows == old(rows) + [saved] && nextId == old(nextId) + 1
    {
      saved := r.(id := nextId);
      rows := rows + [saved];
      nextId := nextId + 1;
    }
  }

  class TariffRepository {
    var rows: seq<Tariff>
    var nextId: Id

    ghost predicate Valid()
      reads this
    {
      && (forall i, j :: 0 <= i < j < |rows| ==> rows[i].id < rows[j].id)
      && (forall i :: 0 <= i < |rows| ==> rows[i].id < nextId)
    }

    constructor ()
      ensures Valid() && rows == [] && nextId == 1
    {
      rows := [];
      nextId := 1;
    }

    /** findByOwnerId */
    function FindByOwnerId(ownerId: Id): (r: Option<Tariff>)
      reads this
      ensures r.Some? ==> r.value in rows && r.value.ownerId == ownerId
      ensures r.None? <==> forall i :: 0 <= i < |rows| ==> rows[i].ownerId != ownerId
    {
      TariffOf(rows, ownerId)
    }

    method Insert(t: Tariff) returns (saved: Tariff)
      requires Valid()
      modifies this
      ensures Valid()
      ensures saved == t.(id := old(nextId))
      ensures rows == old(rows) + [saved] && nextId == old(nextId) + 1
    {
      saved := t.(id := nextId);
      rows := rows + [saved];
      nextId := nextId + 1;
    }

    method Replace(t: Tariff)
      requires Valid()
      modifies this
      ensures Valid() && nextId == old(nextId)
      ensures |rows| == |old(rows)|
      ensures forall i :: 0 <= i < |rows| ==> rows[i] == if old(rows)[i].id == t.id then t else old(rows)[i]
    {
      rows := ReplaceWhere(rows, (x: Tariff) => x.id == t.id, t);
    }
  }

  class RecommendationRepository {
    var rows: seq<Recommendation>
    var nextId: Id

    ghost predicate Valid()
      reads this
    {
      && (forall i, j :: 0 <= i < j < |rows| ==> rows[i].id < rows[j].id)
      && (forall i :: 0 <= i < |rows| ==> rows[i].id < nextId)
    }

    constructor ()
      ensures Valid() && rows == [] && nextId == 1
    {
      rows := [];
      nextId := 1;
    }

    function FindById(id: Id): (r: Option<Recommendation>)
      reads this
      ensures r.Some? ==> r.value in rows && r.value.id == id
      ensures r.None? <==> forall i :: 0 <= i < |rows| ==> rows[i].id != id
    {
      Find(rows, (x: Recommendation) => x.id == id)
    }

    method Insert(x: Recommendation) returns (saved: Recommendation)
      requires Valid()
      modifies this
      ensures Valid()
      ensures saved == x.(id := old(nextId))
      ensures rows == old(rows) + [saved] && nextId == old(nextId) + 1
    {
      saved := x.(id := nextId);
      rows := rows + [saved];
      nextId := nextId + 1;
    }

    method Replace(x: Recommendation)
      requires Valid()
      modifies this
      ensures Valid() && nextId == old(nextId)
      ensures |rows| == |old(rows)|
      ensures forall i :: 0 <= i < |rows| ==> rows[i] == if old(rows)[i].id == x.id then x else old(rows)[i]
    {
      rows := ReplaceWhere(rows, (y: Recommendation) => y.id == x.id, x);
    }

    method DeleteById(id: Id)
      requires Valid()
      modifies this
      ensures Valid() && nextId == old(nextId)
      ensures rows == RecommendationsExcept(old(rows), id)
    {
      rows := RecommendationsExcept(rows, id);
    }
  }
}
