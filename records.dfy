/** The device telemetry record (`DeviceData`): a mutable object whose every field
    may be null, and the value snapshot of it that the repository stores and the
    JSON serializer reads. */
module Records {
  import opened Common

  /** The state of one `DeviceData` object. `id` is the document id the
      persistence layer assigns; `deviceId` is the business key. */
  datatype Record = Record(
    id: Option<string>,
    deviceId: Option<string>,
    phoneNumber: Option<string>,
    wifiStatus: Option<string>,
    batteryLevel: Option<Int32>,
    storageUsed: Option<string>,
    signalStrength: Option<string>,
    model: Option<string>,
    firmware: Option<string>,
    imei: Option<string>)

  /** The record of a freshly constructed `DeviceData`: every field null. */
  const Blank: Record := Record(None, None, None, None, None, None, None, None, None, None)

  class DeviceData {
    var id: Option<string>
    var deviceId: Option<string>
    var phoneNumber: Option<string>
    var wifiStatus: Option<string>
    var batteryLevel: Option<Int32>
    var storageUsed: Option<string>
    var signalStrength: Option<string>
    var model: Option<string>
    var firmware: Option<string>
    var imei: Option<string>

    /** The object's fields as one value. */
    function Snapshot(): Record
      reads this
    {
      Record(id, deviceId, phoneNumber, wifiStatus, batteryLevel,
             storageUsed, signalStrength, model, firmware, imei)
    }

    /** `new DeviceData()`: no field is set. */
    constructor ()
      ensures Snapshot() == Blank
    {
      id, deviceId, phoneNumber, wifiStatus, batteryLevel := None, None, None, None, None;
      storageUsed, signalStrength, model, firmware, imei := None, None, None, None, None;
    }

    /** The object the persistence layer materialises from a stored document
        (it sets the fields reflectively, `id` included). */
    constructor Load(r: Record)
      ensures Snapshot() == r
    {
      id, deviceId, phoneNumber, wifiStatus, batteryLevel := r.id, r.deviceId, r.phoneNumber, r.wifiStatus, r.batteryLevel;
      storageUsed, signalStrength, model, firmware, imei := r.storageUsed, r.signalStrength, r.model, r.firmware, r.imei;
    }

    // Each setter may change only its own field (its frame is that one field) and
    // leaves it holding the given value; `id` has no setter.

    method SetDeviceId(v: Option<string>)
      modifies this`deviceId
      ensures deviceId == v
    {
      deviceId := v;
    }

    method SetWifiStatus(v: Option<string>)
      modifies this`wifiStatus
      ensures wifiStatus == v
    {
      wifiStatus := v;
    }

    method SetBatteryLevel(v: Option<Int32>)
      modifies this`batteryLevel
      ensures batteryLevel == v
    {
      batteryLevel := v;
    }

    method SetStorageUsed(v: Option<string>)
      modifies this`storageUsed
      ensures storageUsed == v
    {
      storageUsed := v;
    }

    method SetSignalStrength(v: Option<string>)
      modifies this`signalStrength
      ensures signalStrength == v
    {
      signalStrength := v;
    }

    method SetModel(v: Option<string>)
      modifies this`model
      ensures model == v
    {
      model := v;
    }

    method SetFirmware(v: Option<string>)
      modifies this`firmware
      ensures firmware == v
    {
      firmware := v;
    }

    method SetImei(v: Option<string>)
      modifies this`imei
      ensures imei == v
    {
      imei := v;
    }

    method SetPhoneNumber(v: Option<string>)
      modifies this`phoneNumber
      ensures phoneNumber == v
    {
      phoneNumber := v;
    }
  }

  /** An example client of the setters: for this one sequence of calls, each getter
      (a field read) gives back the value most recently set, and the fields no
      setter touched stay null. The general property is each setter's frame. */
  method SetThenGet(a: Option<string>, b: Option<Int32>, c: Option<string>)
    returns (wifi: Option<string>, battery: Option<Int32>, kept: Record)
    ensures wifi == c && battery == b
    ensures kept == Blank.(deviceId := a, wifiStatus := c, batteryLevel := b)
  {
    var d := new DeviceData();
    d.SetDeviceId(a);
    d.SetWifiStatus(Some("first"));
    d.SetBatteryLevel(b);
    d.SetWifiStatus(c);
    wifi, battery := d.wifiStatus, d.batteryLevel;
    kept := d.Snapshot();
  }
}
