/** `DeviceService`: the repository of device records keyed by `deviceId`, the
    merge-upsert that overwrites only the fields an update carries, and the
    notification that follows every save. */
module Devices {
  import opened Common
  import opened Records
  import opened Messaging
  import opened Payloads

  /** The repository: one stored record per device id (a null id is a key too). */
  type Store = map<Option<string>, Record>

  /** Every stored record sits under its own device id. */
  ghost predicate Keyed(store: Store)
  {
    forall k | k in store :: store[k].deviceId == k
  }

  /** The incoming value when it is non-null, else the stored one. */
  function Prefer<T>(incoming: Option<T>, stored: Option<T>): Option<T>
  {
    if incoming.Some? then incoming else stored
  }

  /** The fields `upsert` copies onto an existing record: each of the eight takes
      the incoming value exactly when that value is non-null; the document id
      and the device id stay as stored. */
  function Merge(existing: Record, incoming: Record): (m: Record)
    ensures m.id == existing.id && m.deviceId == existing.deviceId
    ensures incoming.phoneNumber.Some? ==> m.phoneNumber == incoming.phoneNumber
    ensures incoming.phoneNumber.None? ==> m.phoneNumber == existing.phoneNumber
    ensures incoming.wifiStatus.Some? ==> m.wifiStatus == incoming.wifiStatus
    ensures incoming.wifiStatus.None? ==> m.wifiStatus == existing.wifiStatus
    ensures incoming.batteryLevel.Some? ==> m.batteryLevel == incoming.batteryLevel
    ensures incoming.batteryLevel.None? ==> m.batteryLevel == existing.batteryLevel
    ensures incoming.storageUsed.Some? ==> m.storageUsed == incoming.storageUsed
    ensures incoming.storageUsed.None? ==> m.storageUsed == existing.storageUsed
    ensures incoming.signalStrength.Some? ==> m.signalStrength == incoming.signalStrength
    ensures incoming.signalStrength.None? ==> m.signalStrength == existing.signalStrength
    ensures incoming.model.Some? ==> m.model == incoming.model
    ensures incoming.model.None? ==> m.model == existing.model
    ensures incoming.firmware.Some? ==> m.firmware == incoming.firmware
    ensures incoming.firmware.None? ==> m.firmware == existing.firmware
    ensures incoming.imei.Some? ==> m.imei == incoming.imei
    ensures incoming.imei.None? ==> m.imei == existing.imei
  {
    existing.(
      phoneNumber := Prefer(incoming.phoneNumber, existing.phoneNumber),
      wifiStatus := Prefer(incoming.wifiStatus, existing.wifiStatus),
      batteryLevel := Prefer(incoming.batteryLevel, existing.batteryLevel),
      storageUsed := Prefer(incoming.storageUsed, existing.storageUsed),
      signalStrength := Prefer(incoming.signalStrength, existing.signalStrength),
      model := Prefer(incoming.model, existing.model),
      firmware := Prefer(incoming.firmware, existing.firmware),
      imei := Prefer(incoming.imei, existing.imei))
  }

  /** The record `upsert(incoming)` saves: the merge onto the stored record of that
      device id, or the incoming record as it is when the id is unknown. */
  function UpsertedRecord(store: Store, incoming: Record): (u: Record)
    ensures Keyed(store) ==> u.deviceId == incoming.deviceId
    ensures Keyed(store) ==> Keyed(store[incoming.deviceId := u])
    ensures incoming.deviceId !in store ==> u == incoming
    ensures incoming.deviceId in store ==> u.id == store[incoming.deviceId].id
  {
    if incoming.deviceId in store then Merge(store[incoming.deviceId], incoming) else incoming
  }

  /** What `notifyFrontend(r)` publishes: a record with a phone number goes through
      `sendLargePayload` to that phone's topic; one without goes, as
      `{deviceId, data}`, to the general topic. */
  function Notification(codec: Codec, r: Record): (ps: seq<Publication>)
    ensures forall i | 0 <= i < |ps| :: (ps[i].topic == DeviceUpdatesTopic <==> r.phoneNumber.None?)
    ensures r.phoneNumber.None? ==> |ps| == 1 && ps[0].message == General(r.deviceId, r)
    ensures r.phoneNumber.Some? ==> |ps| <= 1
  {
    if r.phoneNumber.Some? then LargePayloadPublications(codec, r.phoneNumber, r)
    else [Publication(DeviceUpdatesTopic, General(r.deviceId, r))]
  }

  /** Routing: a phone-bearing record is published at most once, never on the
      general topic, only on its own phone's topic; a record without a phone number
      is published exactly once, on the general topic, and nowhere else. */
  lemma NotificationRouting(codec: Codec, r: Record)
    ensures r.phoneNumber.Some? ==>
      && |Notification(codec, r)| <= 1
      && forall p | p in Notification(codec, r) ::
           p.topic == DeviceUpdatesTopic + "/" + r.phoneNumber.value && p.topic != DeviceUpdatesTopic
    ensures r.phoneNumber.None? ==>
      Notification(codec, r) == [Publication(DeviceUpdatesTopic, General(r.deviceId, r))]
  {
    LargePayloadPolicy(codec, r.phoneNumber, r);
  }

  /** Upserting the same telemetry twice stores what upserting it once does. */
  lemma UpsertIdempotent(store: Store, incoming: Record)
    requires Keyed(store)
    ensures var once := store[incoming.deviceId := UpsertedRecord(store, incoming)];
      UpsertedRecord(once, incoming) == UpsertedRecord(store, incoming)
  {
    var once := store[incoming.deviceId := UpsertedRecord(store, incoming)];
    if incoming.deviceId in store {
      var e := store[incoming.deviceId];
      assert Merge(Merge(e, incoming), incoming) == Merge(e, incoming);
    } else {
      assert Merge(incoming, incoming) == incoming;
    }
  }

  /** An update that carries only a battery level changes only the battery level. */
  lemma BatteryOnlyUpdate(store: Store, id: string, level: Int32)
    requires Some(id) in store
    ensures UpsertedRecord(store, Blank.(deviceId := Some(id), batteryLevel := Some(level)))
      == store[Some(id)].(batteryLevel := Some(level))
  {
  }

  class DeviceService {
    var store: Store
    const broker: Broker
    const largePayloadService: LargePayloadService

    ghost predicate Valid()
      reads this
    {
      largePayloadService.broker == broker && Keyed(store)
    }

    constructor (broker: Broker, largePayloadService: LargePayloadService)
      requires largePayloadService.broker == broker
      ensures Valid() && store == map[]
      ensures this.broker == broker && this.largePayloadService == largePayloadService
    {
      this.broker := broker;
      this.largePayloadService := largePayloadService;
      store := map[];
    }

    /** `findByDeviceId`: a freshly materialised object for the stored record, or null. */
    method FindByDeviceId(deviceId: Option<string>) returns (d: DeviceData?)
      ensures d == null <==> deviceId !in store
      ensures d != null ==> fresh(d) && d.Snapshot() == store[deviceId]
    {
      if deviceId in store {
        d := new DeviceData.Load(store[deviceId]);
      } else {
        d := null;
      }
    }

    /** `save`: store the record under its device id, then notify exactly once. */
    method Save(deviceData: DeviceData) returns (saved: DeviceData)
      requires Valid()
      modifies this, broker
      ensures Valid()
      ensures store == old(store)[deviceData.deviceId := deviceData.Snapshot()]
      ensures broker.sent == old(broker.sent) + Notification(largePayloadService.codec, deviceData.Snapshot())
      ensures saved == deviceData
    {
      store := store[deviceData.deviceId := deviceData.Snapshot()];
      saved := deviceData;
      NotifyFrontend(saved);
    }

    /** `upsert`: merge onto the stored record (through its setters) or take the
        incoming record as new, then save once. */
    method Upsert(deviceData: DeviceData) returns (saved: DeviceData)
      requires Valid()
      modifies this, broker
      ensures Valid()
      ensures var r := UpsertedRecord(old(store), deviceData.Snapshot());
        && store == old(store)[deviceData.deviceId := r]
        && saved.Snapshot() == r
        && broker.sent == old(broker.sent) + Notification(largePayloadService.codec, r)
    {
      var existing := FindByDeviceId(deviceData.deviceId);
      if existing != null {
        CopyNonNullFields(deviceData, existing);
        saved := Save(existing);
      } else {
        saved := Save(deviceData);
      }
    }

    /** The eight guarded setter calls of `upsert`, applied to the fetched record. */
    method CopyNonNullFields(deviceData: DeviceData, existing: DeviceData)
      requires existing != deviceData
      modifies existing
      ensures existing.Snapshot() == Merge(old(existing.Snapshot()), deviceData.Snapshot())
    {
      CopyContactFields(deviceData, existing);
      CopyHardwareFields(deviceData, existing);
    }

    /** The first four guarded setters: phone number, wifi status, battery, storage. */
    method CopyContactFields(deviceData: DeviceData, existing: DeviceData)
      requires existing != deviceData
      modifies existing`phoneNumber, existing`wifiStatus, existing`batteryLevel, existing`storageUsed
      ensures existing.phoneNumber == Prefer(deviceData.phoneNumber, old(existing.phoneNumber))
      ensures existing.wifiStatus == Prefer(deviceData.wifiStatus, old(existing.wifiStatus))
      ensures existing.batteryLevel == Prefer(deviceData.batteryLevel, old(existing.batteryLevel))
      ensures existing.storageUsed == Prefer(deviceData.storageUsed, old(existing.storageUsed))
    {
      if deviceData.phoneNumber.Some? { existing.SetPhoneNumber(deviceData.phoneNumber); }
      if deviceData.wifiStatus.Some? { existing.SetWifiStatus(deviceData.wifiStatus); }
      if deviceData.batteryLevel.Some? { existing.SetBatteryLevel(deviceData.batteryLevel); }
      if deviceData.storageUsed.Some? { existing.SetStorageUsed(deviceData.storageUsed); }
    }

    /** The last four guarded setters: signal strength, model, firmware, IMEI. */
    method CopyHardwareFields(deviceData: DeviceData, existing: DeviceData)
      requires existing != deviceData
      modifies existing`signalStrength, existing`model, existing`firmware, existing`imei
      ensures existing.signalStrength == Prefer(deviceData.signalStrength, old(existing.signalStrength))
      ensures existing.model == Prefer(deviceData.model, old(existing.model))
      ensures existing.firmware == Prefer(deviceData.firmware, old(existing.firmware))
      ensures existing.imei == Prefer(deviceData.imei, old(existing.imei))
    {
      if deviceData.signalStrength.Some? { existing.SetSignalStrength(deviceData.signalStrength); }
      if deviceData.model.Some? { existing.SetModel(deviceData.model); }
      if deviceData.firmware.Some? { existing.SetFirmware(deviceData.firmware); }
      if deviceData.imei.Some? { existing.SetImei(deviceData.imei); }
    }

    /** `deleteByDeviceId`: remove the record if there is one; nothing is published. */
    method DeleteByDeviceId(deviceId: Option<string>)
      requires Valid()
      modifies this
      ensures Valid()
      ensures store == old(store) - {deviceId}
    {
      var device := FindByDeviceId(deviceId);
      if device != null {
        store := store - {device.deviceId};
      }
    }

    method NotifyFrontend(deviceData: DeviceData)
      requires Valid()
      modifies broker
      ensures broker.sent == old(broker.sent) + Notification(largePayloadService.codec, deviceData.Snapshot())
    {
      if deviceData.phoneNumber.Some? {
        largePayloadService.SendLargePayload(deviceData.phoneNumber, deviceData);
      } else {
        broker.ConvertAndSend("/topic/device-updates", General(deviceData.deviceId, deviceData.Snapshot()));
      }
    }
  }
}
