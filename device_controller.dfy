/** DeviceController: listing, creating, updating and deleting the devices
    of an owner. Update and delete act only for the device's own owner.
    The reading table is the one the devices share a database with: an
    edited device is what its readings show from then on, and a device its
    readings still reference cannot be deleted. */
module DeviceControl {
  import opened Common
  import opened Entities
  import opened Seqs
  import opened Repositories
  import opened Http

  /** Every stored device belongs to a stored user (the owner column is a
      non-null foreign key). */
  ghost predicate OwnersKnown(devices: seq<Device>, users: seq<User>)
  {
    forall i :: 0 <= i < |devices| ==> exists j :: 0 <= j < |users| && users[j].id == devices[i].ownerId
  }

  /** The device as update saves it: the four editable fields from the body,
      the id, owner and creation time kept. */
  function Edited(d: Device, body: Device): (e: Device)
    ensures e.id == d.id && e.ownerId == d.ownerId && e.createdAt == d.createdAt
    ensures e.name == body.name && e.deviceType == body.deviceType
    ensures e.watt == body.watt && e.location == body.location
  {
    d.(name := body.name, deviceType := body.deviceType, watt := body.watt, location := body.location)
  }

  /** After an update of device e, the readings of e.id show e and every
      stored reading still carries a stored device. */
  lemma RefreshKeepsCurrent(before: seq<Reading>, after: seq<Reading>,
                            oldDevices: seq<Device>, newDevices: seq<Device>, e: Device)
    requires CurrentDevices(before, oldDevices)
    requires e in newDevices
    requires DeviceReplaced(oldDevices, newDevices, e)
    requires ReadingsRefreshed(before, after, e)
    ensures CurrentDevices(after, newDevices)
  {
    forall i | 0 <= i < |after| ensures after[i].device in newDevices {
      if before[i].device.id != e.id {
        var p :| 0 <= p < |oldDevices| && oldDevices[p] == before[i].device;
        assert newDevices[p] == before[i].device;
      }
    }
  }

  /** Deleting a device no reading references keeps every reading's device
      stored. */
  lemma DeleteKeepsCurrent(readings: seq<Reading>, devices: seq<Device>, id: Id)
    requires CurrentDevices(readings, devices)
    requires forall i :: 0 <= i < |readings| ==> readings[i].device.id != id
    ensures CurrentDevices(readings, DevicesExcept(devices, id))
  {
  }

  /** Replacing a device by an edit with the same owner keeps every
      device's owner stored. */
  lemma ReplaceKeepsOwners(oldDevices: seq<Device>, newDevices: seq<Device>, users: seq<User>, e: Device, p: nat)
    requires OwnersKnown(oldDevices, users)
    requires p < |oldDevices| && oldDevices[p].ownerId == e.ownerId
    requires DeviceReplaced(oldDevices, newDevices, e)
    ensures OwnersKnown(newDevices, users)
  {
    forall i | 0 <= i < |newDevices|
      ensures exists j :: 0 <= j < |users| && users[j].id == newDevices[i].ownerId
    {
      if oldDevices[i].id == e.id {
        assert newDevices[i].ownerId == oldDevices[p].ownerId;
      } else {
        assert newDevices[i] == oldDevices[i];
      }
    }
  }

  /** Deleting a device keeps every remaining device's owner stored. */
  lemma DeleteKeepsOwners(devices: seq<Device>, users: seq<User>, id: Id)
    requires OwnersKnown(devices, users)
    ensures OwnersKnown(DevicesExcept(devices, id), users)
  {
    var rest := DevicesExcept(devices, id);
    forall i | 0 <= i < |rest|
      ensures exists j :: 0 <= j < |users| && users[j].id == rest[i].ownerId
    {
      assert rest[i] in devices;
      var p :| 0 <= p < |devices| && devices[p] == rest[i];
    }
  }

  class DeviceController {
    const devices: DeviceRepository
    const users: UserRepository
    const readings: ReadingRepository

    constructor (devices: DeviceRepository, users: UserRepository, readings: ReadingRepository)
      ensures this.devices == devices && this.users == users && this.readings == readings
    {
      this.devices := devices;
      this.users := users;
      this.readings := readings;
    }

    /** list: exactly the owner's devices. */
    function List(ownerId: Id): (r: seq<Device>)
      reads devices
      ensures forall d :: d in r <==> d in devices.rows && d.ownerId == ownerId
    {
      devices.FindByOwnerId(ownerId)
    }

    /** create: 500 when the owner is unknown; otherwise the body is stored
        under a fresh id, for that owner, created now. */
    method Create(ownerId: Id, body: Device, now: Instant) returns (resp: Response<Device>)
      requires devices.Valid()
      modifies devices
      ensures devices.Valid()
      ensures users.FindById(ownerId).None? ==> resp == Error(SERVER_ERROR, NO_MESSAGE) && unchanged(devices)
      ensures users.FindById(ownerId).Some? ==>
                var saved := body.(id := old(devices.nextId), ownerId := ownerId, createdAt := now);
                && resp == Ok(saved)
                && devices.rows == old(devices.rows) + [saved]
      ensures OwnersKnown(old(devices.rows), users.rows) ==> OwnersKnown(devices.rows, users.rows)
      ensures CurrentDevices(readings.rows, old(devices.rows)) ==> CurrentDevices(readings.rows, devices.rows)
    {
      var u := users.FindById(ownerId);
      if u.None? {
        return Error(SERVER_ERROR, NO_MESSAGE);
      }
      var saved := devices.Insert(body.(ownerId := ownerId, createdAt := now));
      resp := Ok(saved);
      assert devices.rows[|devices.rows| - 1] == saved;
    }

    /** update: 500 when the device is unknown, 403 when it is someone
        else's; otherwise its name, type, power and location take the body's
        values, every other row stays as it was, and the device's readings
        show its new values. */
    method Update(id: Id, ownerId: Id, body: Device) returns (resp: Response<Device>)
      requires devices.Valid() && readings.Valid()
      modifies devices, readings
      ensures devices.Valid() && readings.Valid()
      ensures old(devices.FindById(id)).None? ==>
                resp == Error(SERVER_ERROR, NO_MESSAGE) && unchanged(devices) && unchanged(readings)
      ensures old(devices.FindById(id)).Some? && old(devices.FindById(id)).value.ownerId != ownerId ==>
                resp == Error(FORBIDDEN, NO_MESSAGE) && unchanged(devices) && unchanged(readings)
      ensures old(devices.FindById(id)).Some? && old(devices.FindById(id)).value.ownerId == ownerId ==>
                var e := Edited(old(devices.FindById(id)).value, body);
                && resp == Ok(e)
                && DeviceReplaced(old(devices.rows), devices.rows, e)
                && ReadingsRefreshed(old(readings.rows), readings.rows, e)
      ensures OwnersKnown(old(devices.rows), users.rows) ==> OwnersKnown(devices.rows, users.rows)
      ensures CurrentDevices(old(readings.rows), old(devices.rows)) ==> CurrentDevices(readings.rows, devices.rows)
    {
      var found := devices.FindById(id);
      if found.None? {
        return Error(SERVER_ERROR, NO_MESSAGE);
      }
      var d := found.value;
      if d.ownerId != ownerId {
        return Error(FORBIDDEN, NO_MESSAGE);
      }
      var e := Edited(d, body);
      ghost var oldDevices, oldReadings := devices.rows, readings.rows;
      devices.Replace(e);
      readings.RefreshDevice(e);
      ghost var p :| 0 <= p < |oldDevices| && oldDevices[p] == d;
      assert devices.rows[p] == e;
      if CurrentDevices(oldReadings, oldDevices) {
        RefreshKeepsCurrent(oldReadings, readings.rows, oldDevices, devices.rows, e);
      }
      if OwnersKnown(oldDevices, users.rows) {
        ReplaceKeepsOwners(oldDevices, devices.rows, users.rows, e, p);
      }
      resp := Ok(e);
    }

    /** delete: 500 when the device is unknown, 403 when it is someone
        else's, 500 when readings still reference it (the foreign key refuses
        the delete); otherwise exactly that device is removed. */
    method Delete(id: Id, ownerId: Id) returns (resp: Response<()>)
      requires devices.Valid()
      modifies devices
      ensures devices.Valid()
      ensures old(devices.FindById(id)).None? ==> resp == Error(SERVER_ERROR, NO_MESSAGE) && unchanged(devices)
      ensures old(devices.FindById(id)).Some? && old(devices.FindById(id)).value.ownerId != ownerId ==>
                resp == Error(FORBIDDEN, NO_MESSAGE) && unchanged(devices)
      ensures old(devices.FindById(id)).Some? && old(devices.FindById(id)).value.ownerId == ownerId &&
              readings.References(id) ==>
                resp == Error(SERVER_ERROR, NO_MESSAGE) && unchanged(devices)
      ensures old(devices.FindById(id)).Some? && old(devices.FindById(id)).value.ownerId == ownerId &&
              !readings.References(id) ==>
                && resp == Ok(())
                && devices.rows == DevicesExcept(old(devices.rows), id)
      ensures OwnersKnown(old(devices.rows), users.rows) ==> OwnersKnown(devices.rows, users.rows)
      ensures CurrentDevices(readings.rows, old(devices.rows)) ==> CurrentDevices(readings.rows, devices.rows)
    {
      var found := devices.FindById(id);
      if found.None? {
        return Error(SERVER_ERROR, NO_MESSAGE);
      }
      if found.value.ownerId != ownerId {
        return Error(FORBIDDEN, NO_MESSAGE);
      }
      if readings.References(id) {
        return Error(SERVER_ERROR, NO_MESSAGE);
      }
      ghost var before := devices.rows;
      devices.DeleteById(id);
      if CurrentDevices(readings.rows, before) {
        DeleteKeepsCurrent(readings.rows, before, id);
      }
      if OwnersKnown(before, users.rows) {
        DeleteKeepsOwners(before, users.rows, id);
      }
      resp := Ok(());
    }
  }
}
