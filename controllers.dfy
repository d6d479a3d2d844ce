/** `MobileDeviceController`: the telemetry endpoint, which delegates to the
    merge-upsert, and the push-response endpoint, which finds or creates a record
    and updates two of its fields from a loosely typed response body. */
module Controllers {
  import opened Common
  import opened Records
  import opened Messaging
  import opened Payloads
  import opened Devices

  /** A value of the request body as Jackson binds it into a `Map<String, Object>`:
      JSON numbers become `Integer` only when they fit in 32 bits. */
  datatype JsonValue = JNull | JString(s: string) | JNumber(n: int) | JOther

  /** The HTTP outcome: a response body, or an exception that escapes the handler. */
  datatype Reply = Ok(body: string) | ServerError

  /** `response.get(key)`: null when the key is absent or holds JSON null. */
  function Get(response: map<string, JsonValue>, key: string): (r: Option<JsonValue>)
    ensures key !in response ==> r.None?
    ensures key in response && response[key] == JNull ==> r.None?
    ensures r.Some? ==> key in response && r.value == response[key] && r.value != JNull
  {
    if key in response && response[key] != JNull then Some(response[key]) else None
  }

  /** The record `handleFcmResponse` starts from: the stored one, or a fresh
      record with only the device id set. */
  function FcmBase(store: Store, deviceId: string): Record
  {
    if Some(deviceId) in store then store[Some(deviceId)] else Blank.(deviceId := Some(deviceId))
  }

  /** The two guarded updates, or `None` when a cast `(String)` / `(Integer)` of a
      non-null value fails (the `ClassCastException` escapes, nothing is saved). */
  function FcmApplied(base: Record, response: map<string, JsonValue>): (out: Option<Record>)
    ensures out.Some? ==> out.value == base.(wifiStatus := out.value.wifiStatus, batteryLevel := out.value.batteryLevel)
    ensures Get(response, "wifiStatus").None? && Get(response, "batteryLevel").None? ==> out == Some(base)
  {
    var w := Get(response, "wifiStatus");
    var b := Get(response, "batteryLevel");
    if w.Some? && !w.value.JString? then None
    else if b.Some? && !(b.value.JNumber? && -0x8000_0000 <= b.value.n < 0x8000_0000) then None
    else
      var withWifi := if w.Some? then base.(wifiStatus := Some(w.value.s)) else base;
      Some(if b.Some? then withWifi.(batteryLevel := Some(b.value.n as Int32)) else withWifi)
  }

  /** A well-typed response overwrites `wifiStatus` exactly when it carries a
      non-null one, `batteryLevel` likewise, and changes no other field; a
      mistyped non-null value makes the whole call fail. */
  lemma FcmUpdatesTwoFields(base: Record, response: map<string, JsonValue>)
    ensures var w := Get(response, "wifiStatus");
      var b := Get(response, "batteryLevel");
      var out := FcmApplied(base, response);
      && (out.None? <==>
            (w.Some? && !w.value.JString?) || (b.Some? && !(b.value.JNumber? && -0x8000_0000 <= b.value.n < 0x8000_0000)))
      && (out.Some? ==>
            && (w.Some? ==> out.value.wifiStatus == Some(w.value.s))
            && (w.None? ==> out.value.wifiStatus == base.wifiStatus)
            && (b.Some? ==> out.value.batteryLevel == Some(b.value.n as Int32))
            && (b.None? ==> out.value.batteryLevel == base.batteryLevel)
            && out.value == base.(wifiStatus := out.value.wifiStatus, batteryLevel := out.value.batteryLevel))
  {
  }

  /** For a device id the repository does not know, a successful push response
      saves a record holding the device id and exactly the wifi status and battery
      level the body supplied: every other field, the document id included, is null. */
  lemma FcmUnknownDevice(store: Store, deviceId: string, response: map<string, JsonValue>, r: Record)
    requires Some(deviceId) !in store
    requires FcmApplied(FcmBase(store, deviceId), response) == Some(r)
    ensures r.deviceId == Some(deviceId)
    ensures r.id.None? && r.phoneNumber.None? && r.storageUsed.None? && r.signalStrength.None?
    ensures r.model.None? && r.firmware.None? && r.imei.None?
    ensures r.wifiStatus == (match Get(response, "wifiStatus") case Some(JString(w)) => Some(w) case _ => None)
    ensures r.batteryLevel == (match Get(response, "batteryLevel") case Some(JNumber(n)) => Some(n as Int32) case _ => None)
  {
    FcmUpdatesTwoFields(Blank.(deviceId := Some(deviceId)), response);
  }

  /** For a known device id, a successful push response keeps every stored field
      except the wifi status and battery level. */
  lemma FcmKnownDevice(store: Store, deviceId: string, response: map<string, JsonValue>, r: Record)
    requires Some(deviceId) in store
    requires FcmApplied(FcmBase(store, deviceId), response) == Some(r)
    ensures r == store[Some(deviceId)].(wifiStatus := r.wifiStatus, batteryLevel := r.batteryLevel)
    ensures Get(response, "wifiStatus").None? ==> r.wifiStatus == store[Some(deviceId)].wifiStatus
    ensures Get(response, "batteryLevel").None? ==> r.batteryLevel == store[Some(deviceId)].batteryLevel
  {
    FcmUpdatesTwoFields(store[Some(deviceId)], response);
  }

  class MobileDeviceController {
    const deviceService: DeviceService

    constructor (deviceService: DeviceService)
      ensures this.deviceService == deviceService
    {
      this.deviceService := deviceService;
    }

    /** `POST /mobile/telemetry`: exactly one upsert of the posted record. */
    method ReceiveTelemetry(deviceData: DeviceData) returns (reply: string)
      requires deviceService.Valid()
      modifies deviceService, deviceService.broker
      ensures deviceService.Valid()
      ensures var r := UpsertedRecord(old(deviceService.store), deviceData.Snapshot());
        && deviceService.store == old(deviceService.store)[deviceData.deviceId := r]
        && deviceService.broker.sent == old(deviceService.broker.sent)
             + Notification(deviceService.largePayloadService.codec, r)
      ensures reply == "Telemetry received for device: " + JavaText(deviceData.deviceId)
    {
      var _ := deviceService.Upsert(deviceData);
      reply := "Telemetry received for device: " + JavaText(deviceData.deviceId);
    }

    /** `POST /mobile/fcm-response/{deviceId}`: find or create the record, apply
        the two guarded updates, save once. */
    method HandleFcmResponse(deviceId: string, response: map<string, JsonValue>) returns (reply: Reply)
      requires deviceService.Valid()
      modifies deviceService, deviceService.broker
      ensures deviceService.Valid()
      ensures match FcmApplied(FcmBase(old(deviceService.store), deviceId), response)
        case None =>
          && reply == ServerError
          && deviceService.store == old(deviceService.store)
          && deviceService.broker.sent == old(deviceService.broker.sent)
        case Some(r) =>
          && reply == Ok("FCM response processed")
          && deviceService.store == old(deviceService.store)[Some(deviceId) := r]
          && deviceService.broker.sent == old(deviceService.broker.sent)
               + Notification(deviceService.largePayloadService.codec, r)
    {
      var device := deviceService.FindByDeviceId(Some(deviceId));
      if device == null {
        device := new DeviceData();
        device.SetDeviceId(Some(deviceId));
      }
      var wifiStatus := Get(response, "wifiStatus");
      if wifiStatus.Some? {
        if !wifiStatus.value.JString? {
          return ServerError;
        }
        device.SetWifiStatus(Some(wifiStatus.value.s));
      }
      var batteryLevel := Get(response, "batteryLevel");
      if batteryLevel.Some? {
        if !(batteryLevel.value.JNumber? && -0x8000_0000 <= batteryLevel.value.n < 0x8000_0000) {
          return ServerError;
        }
        device.SetBatteryLevel(Some(batteryLevel.value.n as Int32));
      }
      var _ := deviceService.Save(device);
      reply := Ok("FCM response processed");
    }
  }
}
