/** DeviceManager: the devices page. It lists the owner's devices, and
    creates, edits and deletes them through the devices API; the form's power
    is read with parseInt. */
module DevicesPage {
  import opened Common
  import opened Entities
  import opened Browser
  import Js

  /** The status every device is shown with: the backend stores none. */
  const ACTIVE: string := "active"

  /** A device as the page shows it; `power` is the backend's watt. */
  datatype UiDevice = UiDevice(id: Id, name: string, deviceType: string, power: int, location: string, status: string)

  /** The dialog's text fields. */
  datatype DeviceForm = DeviceForm(name: string, deviceType: string, power: string, location: string)

  const EMPTY_FORM: DeviceForm := DeviceForm("", "", "", "")

  /** The body of the create and update calls. */
  datatype Payload = Payload(name: string, deviceType: string, watt: int, location: string)

  /** The calls the page makes. */
  datatype DeviceRequest =
    | ListDevices(ownerId: real)
    | CreateDevice(ownerId: real, payload: Payload)
    | UpdateDevice(ownerId: real, id: Id, payload: Payload)
    | DeleteDevice(ownerId: real, id: Id)

  /** A stored device as a row of the page, with the given status. */
  function ToUi(d: Device, status: string): (u: UiDevice)
    ensures u.id == d.id && u.name == d.name && u.deviceType == d.deviceType
    ensures u.power == d.watt && u.location == d.location && u.status == status
  {
    UiDevice(d.id, d.name, d.deviceType, d.watt, d.location, status)
  }

  function UiRows(ds: seq<Device>): (us: seq<UiDevice>)
    ensures |us| == |ds|
    ensures forall i :: 0 <= i < |ds| ==> us[i] == ToUi(ds[i], ACTIVE)
  {
    if ds == [] then [] else [ToUi(ds[0], ACTIVE)] + UiRows(ds[1..])
  }

  /** The form handleEditDevice fills in for a device. */
  function EditForm(d: UiDevice): (f: DeviceForm)
    ensures f.name == d.name && f.deviceType == d.deviceType && f.location == d.location
    ensures Js.ParseInt(f.power) == Some(d.power)
  {
    Js.ParseIntDecimal(d.power);
    DeviceForm(d.name, d.deviceType, Js.DecimalText(d.power), d.location)
  }

  /** The checks of handleSaveDevice, in order: every field filled, an
      active owner, and a power that parseInt reads as a positive number. */
  function SavePayload(form: DeviceForm, ownerId: Option<real>): (p: Option<Payload>)
    ensures p.Some? <==>
              && form.name != "" && form.deviceType != "" && form.power != "" && form.location != ""
              && Active(ownerId)
              && Js.ParseInt(form.power).Some? && Js.ParseInt(form.power).value > 0
    ensures p.Some? ==> p.value == Payload(form.name, form.deviceType, Js.ParseInt(form.power).value, form.location)
  {
    if form.name == "" || form.deviceType == "" || form.power == "" || form.location == "" then None
    else if !Active(ownerId) then None
    else
      var watt := Js.ParseInt(form.power);
      if watt.None? || watt.value <= 0 then None
      else Some(Payload(form.name, form.deviceType, watt.value, form.location))
  }

  /** The rows without the device of the given id: every other row is
      kept, as often as it occurs, in its order. */
  function Without(devices: seq<UiDevice>, id: Id): (r: seq<UiDevice>)
    ensures forall u :: u in r <==> u in devices && u.id != id
    ensures forall u :: multiset(r)[u] == if u.id == id then 0 else multiset(devices)[u]
    ensures |r| <= |devices|
  {
    if devices == [] then []
    else
      assert devices == [devices[0]] + devices[1..];
      (if devices[0].id == id then [] else [devices[0]]) + Without(devices[1..], id)
  }

  /** Rows without that id are kept whole and in order. */
  lemma {:induction false} WithoutKeepsOthers(devices: seq<UiDevice>, id: Id)
    requires forall i :: 0 <= i < |devices| ==> devices[i].id != id
    ensures Without(devices, id) == devices
  {
    if devices != [] {
      WithoutKeepsOthers(devices[1..], id);
      assert devices == [devices[0]] + devices[1..];
    }
  }

  class DeviceManager {
    var devices: seq<UiDevice>
    var loading: bool
    var isDialogOpen: bool
    var editing: Option<UiDevice>
    var form: DeviceForm

    constructor ()
      ensures devices == [] && !loading && !isDialogOpen && editing.None? && form == EMPTY_FORM
    {
      devices := [];
      loading := false;
      isDialogOpen := false;
      editing := None;
      form := EMPTY_FORM;
    }

    /** load: no call without an active owner; otherwise the owner's devices
        are asked for and, on success, shown in the order received (a null
        list shown as none), every one active. */
    method Load(ownerId: Option<real>, outcome: Outcome<Option<seq<Device>>>) returns (req: Option<DeviceRequest>)
      modifies this
      ensures !Active(ownerId) ==> req.None? && unchanged(this)
      ensures Active(ownerId) ==> req == Some(ListDevices(ownerId.value)) && !loading
      ensures Active(ownerId) ==> isDialogOpen == old(isDialogOpen) && editing == old(editing) && form == old(form)
      ensures Active(ownerId) && !outcome.Success? ==> devices == old(devices)
      ensures Active(ownerId) && outcome.Success? ==>
                var ds := outcome.data.GetOr([]);
                |devices| == |ds| && forall i :: 0 <= i < |ds| ==> devices[i] == ToUi(ds[i], ACTIVE)
    {
      if !Active(ownerId) {
        return None;
      }
      req := Some(ListDevices(ownerId.value));
      loading := true;
      if outcome.Success? {
        devices := UiRows(outcome.data.GetOr([]));
      }
      loading := false;
    }

    /** handleAddDevice: an empty form, nothing being edited, the dialog
        open. */
    method Add()
      modifies this
      ensures editing.None? && form == EMPTY_FORM && isDialogOpen
      ensures devices == old(devices) && loading == old(loading)
    {
      editing := None;
      form := EMPTY_FORM;
      isDialogOpen := true;
    }

    /** handleEditDevice: the device's fields in the form, its power written
        out in decimal, the dialog open. */
    method Edit(d: UiDevice)
      modifies this
      ensures editing == Some(d) && form == EditForm(d) && isDialogOpen
      ensures devices == old(devices) && loading == old(loading)
    {
      editing := Some(d);
      form := EditForm(d);
      isDialogOpen := true;
    }

    /** handleDeleteDevice: no call without an active owner; the row goes
        only once the backend has deleted the device. */
    method Delete(ownerId: Option<real>, id: Id, outcome: Outcome<()>) returns (req: Option<DeviceRequest>)
      modifies this
      ensures !Active(ownerId) ==> req.None?
      ensures Active(ownerId) ==> req == Some(DeleteDevice(ownerId.value, id))
      ensures Active(ownerId) && outcome.Success? ==> devices == Without(old(devices), id)
      ensures !(Active(ownerId) && outcome.Success?) ==> devices == old(devices)
      ensures loading == old(loading) && isDialogOpen == old(isDialogOpen) && editing == old(editing) && form == old(form)
    {
      if !Active(ownerId) {
        return None;
      }
      req := Some(DeleteDevice(ownerId.value, id));
      if outcome.Success? {
        devices := Without(devices, id);
      }
    }

    /** handleSaveDevice: no call when the form fails its checks. Otherwise
        the device being edited is updated, keeping its status, or a new one
        is created and appended as active; on success the dialog closes and
        the form is cleared. A failed call changes nothing. */
    method Save(ownerId: Option<real>, outcome: Outcome<Device>) returns (req: Option<DeviceRequest>)
      modifies this
      ensures var p := SavePayload(old(form), ownerId);
              && (p.None? ==> req.None?)
              && (p.Some? && old(editing).Some? ==> req == Some(UpdateDevice(ownerId.value, old(editing).value.id, p.value)))
              && (p.Some? && old(editing).None? ==> req == Some(CreateDevice(ownerId.value, p.value)))
      ensures loading == old(loading) && editing == old(editing)
      ensures (req.None? || !outcome.Success?) ==> unchanged(this)
      ensures req.Some? && outcome.Success? ==> !isDialogOpen && form == EMPTY_FORM
      ensures req.Some? && outcome.Success? && old(editing).Some? ==>
                var e := old(editing).value;
                var updated := ToUi(outcome.data, e.status);
                |devices| == |old(devices)| &&
                forall i :: 0 <= i < |devices| ==> devices[i] == if old(devices)[i].id == e.id then updated else old(devices)[i]
      ensures req.Some? && outcome.Success? && old(editing).None? ==>
                devices == old(devices) + [ToUi(outcome.data, ACTIVE)]
    {
      var p := SavePayload(form, ownerId);
      if p.None? {
        return None;
      }
      if editing.Some? {
        req := Some(UpdateDevice(ownerId.value, editing.value.id, p.value));
      } else {
        req := Some(CreateDevice(ownerId.value, p.value));
      }
      if !outcome.Success? {
        return;
      }
      if editing.Some? {
        var e := editing.value;
        var updated := ToUi(outcome.data, e.status);
        devices := seq(|devices|, i requires 0 <= i < |devices| reads this => if devices[i].id == e.id then updated else devices[i]);
      } else {
        devices := devices + [ToUi(outcome.data, ACTIVE)];
      }
      isDialogOpen := false;
      form := EMPTY_FORM;
    }
  }

  /** Saving a device's edit form untouched sends the power it was shown
      with. */
  lemma UntouchedEditSendsSamePower(d: UiDevice, ownerId: Option<real>)
    requires d.name != "" && d.deviceType != "" && d.location != "" && d.power > 0
    requires Active(ownerId)
    ensures SavePayload(EditForm(d), ownerId) == Some(Payload(d.name, d.deviceType, d.power, d.location))
  {
    assert |Js.DecimalText(d.power)| >= 1;
  }
}
