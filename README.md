# Device telemetry over WebSocket: a Dafny model

This project models the sequential core of a Spring Boot service and its Angular
client. Mobile devices post telemetry. The service merges it into a device
repository and pushes every saved record to browsers over STOMP topics. Records
whose JSON is large are compressed or split into chunks, and the browser reassembles
the chunks.

The model covers:

- **`LargePayloadService`** (module `Payloads`). The compressed/plain choice at
  100*1024 UTF-16 units. The per-phone topic. The split of a long JSON text into
  `ceil(len / 500*1024)` numbered chunks, published one per loop iteration to an
  outbox of (topic, envelope) pairs.
- **`DeviceService` and `DeviceData`** (modules `Devices`, `Records`).
  - The repository is a map from device id to record.
  - `upsert` copies the eight non-null incoming fields onto the stored object
    through its setters.
  - `save` stores the record and then notifies exactly once.
  - The notification routes by phone number: a record with one goes to the
    large-payload path, a record without one goes to the general topic.
- **`MobileDeviceController`** (module `Controllers`). The telemetry endpoint. The
  push-response endpoint: find or create the record, apply two guarded updates from
  a loosely typed body, save once.
- **`SessionManager`** (module `Sessions`). The phone-to-session-ids multimap.
- **The Angular `App` component** (module `Frontend`).
  - The phone-number filter of the subscription callback.
  - The chunked > compressed > regular dispatch.
  - The per-session slot buffer that reassembles chunks.
  - The component fields those handlers set.
- **Cross-file properties** (module `Delivery`).
  - Any-order delivery of a transmission's chunks makes the client's reassembly
    rebuild exactly the JSON the backend serialised.
  - The client subscribes to the general topic only. What `notifyFrontend`
    publishes there (records without a phone number) never passes the client's
    filter, and what it publishes for a record with a phone goes to that phone's
    own topic, which the client does not subscribe to. The client gets its updates
    from the change-stream listener's general-topic messages instead, and those
    reach it exactly when the record carries the subscribed phone number.

Some calls are parameters rather than code: the serializer, GZIP+Base64, the
browser's `JSON.parse`/`JSON.stringify`/`atob`, the clock and the random roll of a
session id. An exception is modelled as `None`. The service classes are Dafny
classes whose methods change a field or the broker's outbox. Each method's
postcondition ties the new state to a specification function, and the lemmas are
stated about those functions.

## Model

| member | source | states |
|---|---|---|
| `Records.DeviceData.constructor` | websocket-demo/src/main/java/com/websocket/example/model/DeviceData.java:8-18 | a new record has every field, `id` included, null |
| `Records.DeviceData.Load` | websocket-demo/src/main/java/com/websocket/example/service/DeviceService.java:28-30 | the object the repository materialises holds exactly the stored record |
| `Records.DeviceData.SetDeviceId` | websocket-demo/src/main/java/com/websocket/example/model/DeviceData.java:22 | sets `deviceId`; its frame is that one field, so no other field changes |
| `Records.DeviceData.SetWifiStatus` | websocket-demo/src/main/java/com/websocket/example/model/DeviceData.java:25 | sets `wifiStatus` and nothing else |
| `Records.DeviceData.SetBatteryLevel` | websocket-demo/src/main/java/com/websocket/example/model/DeviceData.java:28 | sets `batteryLevel` and nothing else |
| `Records.DeviceData.SetStorageUsed` | websocket-demo/src/main/java/com/websocket/example/model/DeviceData.java:31 | sets `storageUsed` and nothing else |
| `Records.DeviceData.SetSignalStrength` | websocket-demo/src/main/java/com/websocket/example/model/DeviceData.java:34 | sets `signalStrength` and nothing else |
| `Records.DeviceData.SetModel` | websocket-demo/src/main/java/com/websocket/example/model/DeviceData.java:37 | sets `model` and nothing else |
| `Records.DeviceData.SetFirmware` | websocket-demo/src/main/java/com/websocket/example/model/DeviceData.java:40 | sets `firmware` and nothing else |
| `Records.DeviceData.SetImei` | websocket-demo/src/main/java/com/websocket/example/model/DeviceData.java:43 | sets `imei` and nothing else |
| `Records.DeviceData.SetPhoneNumber` | websocket-demo/src/main/java/com/websocket/example/model/DeviceData.java:47 | sets `phoneNumber` and nothing else |
| `Records.SetThenGet` | websocket-demo/src/main/java/com/websocket/example/model/DeviceData.java:21-47 | an example client of the setters: for one fixed sequence of setter calls, each getter returns the value most recently set, and the fields it did not set, `id` included, stay null; the general property is each setter's one-field frame |
| `Messaging.Broker.ConvertAndSend` | websocket-demo/src/main/java/com/websocket/example/service/LargePayloadService.java:107 | a publish appends exactly one (topic, envelope) pair to the outbox |
| `Payloads.PhoneTopic` | websocket-demo/src/main/java/com/websocket/example/service/LargePayloadService.java:106 | the per-phone topic is the general topic plus `/` plus the phone (`null` printed as Java prints it), so it is never the general topic |
| `Payloads.LargePayloadPolicy` | websocket-demo/src/main/java/com/websocket/example/service/LargePayloadService.java:30-62 | at most one envelope, on the phone's topic. Plain iff the JSON is at most 100*1024, and it carries the record itself. Compressed iff longer and compression succeeds, with the compressed text, the original length and the compressed length. Nothing when serialisation or compression throws |
| `Payloads.CompressionBoundary` | websocket-demo/src/main/java/com/websocket/example/service/LargePayloadService.java:36 | a JSON length of exactly 100*1024 goes out plain; 100*1024+1 goes out compressed |
| `Payloads.CompressedEnvelopeDecompresses` | websocket-demo/src/main/java/com/websocket/example/service/LargePayloadService.java:38-45 | assuming GZIP+Base64 round-trips, decompressing a compressed envelope's text gives back the serialised JSON |
| `Payloads.SessionId` | websocket-demo/src/main/java/com/websocket/example/service/LargePayloadService.java:126-128 | a session id starts with `session_` and has something after it |
| `Payloads.SessionIdInjective` | websocket-demo/src/main/java/com/websocket/example/service/LargePayloadService.java:126-128 | for non-negative clock and roll values, two session ids are equal only when both the milliseconds and the roll are equal: ids never collide across different (clock, roll) pairs |
| `Payloads.LargePayloadPublications` | websocket-demo/src/main/java/com/websocket/example/service/LargePayloadService.java:30-62 | what `sendLargePayload` publishes: at most one envelope, on the phone's topic, and none unless serialisation succeeds |
| `Payloads.ChunkedPublications` | websocket-demo/src/main/java/com/websocket/example/service/LargePayloadService.java:67-103 | what `sendChunkedPayload` publishes: everything on the phone's topic, nothing when serialisation throws, and a chunk only for a JSON longer than 500*1024 |
| `Payloads.TotalChunks` | websocket-demo/src/main/java/com/websocket/example/service/LargePayloadService.java:74 | the chunk count is the least `n` with `len <= n*c`: the chunks cover the text and the last one starts inside it |
| `Payloads.ChunkStartInside` | websocket-demo/src/main/java/com/websocket/example/service/LargePayloadService.java:76-77 | every chunk start `i*c` lies inside the text, and there are no more chunks than characters |
| `Payloads.ChunkEnd` | websocket-demo/src/main/java/com/websocket/example/service/LargePayloadService.java:78 | a chunk end is past its start and within the text; a chunk is at most `c` long, and exactly `c` unless it is the last |
| `Payloads.Pieces` | websocket-demo/src/main/java/com/websocket/example/service/LargePayloadService.java:76-79 | the substrings the loop cuts; there are `TotalChunks` of them |
| `Payloads.PieceShape` | websocket-demo/src/main/java/com/websocket/example/service/LargePayloadService.java:77-79 | each piece is non-empty, at most `c` long, and the slice of the text at `i*c` |
| `Payloads.PiecesPrefix` | websocket-demo/src/main/java/com/websocket/example/service/LargePayloadService.java:76-79 | the first `k` pieces joined are the text's prefix of length `min(k*c, len)` |
| `Payloads.PiecesRebuild` | websocket-demo/src/main/java/com/websocket/example/service/LargePayloadService.java:76-79 | joining all pieces in index order gives the text exactly |
| `Payloads.ChunkEnvelopes` | websocket-demo/src/main/java/com/websocket/example/service/LargePayloadService.java:76-90 | the loop's publications: `ceil(len/c)` chunk envelopes on the given topic, envelope `i` carrying index `i`, the session id and the total |
| `Payloads.ChunkedTransmission` | websocket-demo/src/main/java/com/websocket/example/service/LargePayloadService.java:72-93 | above 500*1024: `ceil(len/c)` envelopes, at least two, all on the phone's topic. They share one session id, are numbered 0..n-1 in publishing order and announce the same total. Each piece is 1..c long, and the pieces rebuild the JSON |
| `Payloads.ShortJsonIsNotChunked` | websocket-demo/src/main/java/com/websocket/example/service/LargePayloadService.java:96-98 | at or below 500*1024 no chunk is sent and the call publishes what `sendLargePayload` does |
| `Payloads.ChunkEndAsWritten` | websocket-demo/src/main/java/com/websocket/example/service/LargePayloadService.java:78 | the loop's `end` in Java `int` arithmetic: never past the text, but it can be negative |
| `Payloads.ChunkEndAsWrittenAgrees` | websocket-demo/src/main/java/com/websocket/example/service/LargePayloadService.java:78 | while `start + chunkSize` fits in an `int`, the loop's `end` is the intended one |
| `Payloads.ChunkEndOverflows` | websocket-demo/src/main/java/com/websocket/example/service/LargePayloadService.java:77-79 | a legal 2147400000-unit JSON needs 4195 chunks, and for the last one the `int` sum wraps to a negative `end` |
| `Payloads.LargePayloadService.SendToPhoneSpecificTopic` | websocket-demo/src/main/java/com/websocket/example/service/LargePayloadService.java:105-108 | publishes exactly one envelope, on the phone's topic |
| `Payloads.LargePayloadService.SendLargePayload` | websocket-demo/src/main/java/com/websocket/example/service/LargePayloadService.java:30-62 | appends exactly the policy's publications to the outbox |
| `Payloads.LargePayloadService.SendChunkedPayload` | websocket-demo/src/main/java/com/websocket/example/service/LargePayloadService.java:67-103 | appends the chunk envelopes under `session_<millis>_<roll>` when the JSON is longer than 500*1024, otherwise what `sendLargePayload` appends; nothing when serialisation throws. Chunk ends are the corrected, overflow-free ones (see "## Findings") |
| `Payloads.LargePayloadService.PublishChunks` | websocket-demo/src/main/java/com/websocket/example/service/LargePayloadService.java:76-93 | the loop publishes chunk 0, 1, ... n-1 in order, each as `json[i*c .. end)` with its index, the total and the session id, where `end` is the corrected, overflow-free end (see "## Findings") |
| `Devices.UpsertedRecord` | websocket-demo/src/main/java/com/websocket/example/service/DeviceService.java:38-57 | the record `upsert` saves keeps the incoming device id and, stored under it, keeps every record under its own id; an unknown id saves the incoming record as it is; a known one keeps the stored document id |
| `Devices.Notification` | websocket-demo/src/main/java/com/websocket/example/service/DeviceService.java:66-83 | a publication is on the general topic iff the record has no phone number; then there is exactly one, carrying `{deviceId, data}`; with a phone there is at most one |
| `Devices.Merge` | websocket-demo/src/main/java/com/websocket/example/service/DeviceService.java:44-51 | each of the eight fields takes the incoming value iff it is non-null, else keeps the stored one; `id` and `deviceId` stay as stored |
| `Devices.NotificationRouting` | websocket-demo/src/main/java/com/websocket/example/service/DeviceService.java:66-83 | a record with a phone is published at most once, only on its own phone's topic, never on the general one; a record without one is published exactly once, as `{deviceId, data}`, on the general topic |
| `Devices.UpsertIdempotent` | websocket-demo/src/main/java/com/websocket/example/service/DeviceService.java:38-57 | upserting the same telemetry twice stores what upserting it once does |
| `Devices.BatteryOnlyUpdate` | websocket-demo/src/main/java/com/websocket/example/service/DeviceService.java:40-52 | an update carrying only a battery level changes only the stored battery level |
| `Devices.DeviceService.FindByDeviceId` | websocket-demo/src/main/java/com/websocket/example/service/DeviceService.java:28-30 | null iff no record has that device id, else a fresh object holding the stored record |
| `Devices.DeviceService.Save` | websocket-demo/src/main/java/com/websocket/example/service/DeviceService.java:32-36 | stores the record under its device id, then publishes exactly one notification carrying it, and returns the record |
| `Devices.DeviceService.Upsert` | websocket-demo/src/main/java/com/websocket/example/service/DeviceService.java:38-57 | stores the merge onto the existing record, or the incoming record as it is when the id is unknown; exactly one notification of the stored record; other keys untouched |
| `Devices.DeviceService.CopyNonNullFields` | websocket-demo/src/main/java/com/websocket/example/service/DeviceService.java:44-51 | the eight guarded setter calls leave the fetched object holding the merge |
| `Devices.DeviceService.CopyContactFields` | websocket-demo/src/main/java/com/websocket/example/service/DeviceService.java:44-47 | phone, wifi, battery and storage each take the incoming value iff it is non-null; no other field is in the frame |
| `Devices.DeviceService.CopyHardwareFields` | websocket-demo/src/main/java/com/websocket/example/service/DeviceService.java:48-51 | signal, model, firmware and IMEI likewise |
| `Devices.DeviceService.DeleteByDeviceId` | websocket-demo/src/main/java/com/websocket/example/service/DeviceService.java:59-64 | removes the record if there is one and is a no-op otherwise; other keys untouched, nothing published |
| `Devices.DeviceService.NotifyFrontend` | websocket-demo/src/main/java/com/websocket/example/service/DeviceService.java:66-83 | appends exactly the routed notification to the outbox |
| `Controllers.FcmUnknownDevice` | websocket-demo/src/main/java/com/websocket/example/controller/MobileDeviceController.java:27-41 | for an id the repository does not know, the saved record holds the device id and exactly the wifi status and battery level the body supplied; every other field, `id` included, is null |
| `Controllers.FcmKnownDevice` | websocket-demo/src/main/java/com/websocket/example/controller/MobileDeviceController.java:27-41 | for a known id, the saved record is the stored one with at most the wifi status and battery level replaced; a field the body leaves null keeps its stored value |
| `Controllers.Get` | websocket-demo/src/main/java/com/websocket/example/controller/MobileDeviceController.java:36-39 | `response.get(key)` is null for an absent key and for JSON null alike; otherwise it is the bound value |
| `Controllers.FcmApplied` | websocket-demo/src/main/java/com/websocket/example/controller/MobileDeviceController.java:35-41 | the guarded updates change no field but `wifiStatus` and `batteryLevel`, and a body carrying neither leaves the record as it was |
| `Controllers.FcmUpdatesTwoFields` | websocket-demo/src/main/java/com/websocket/example/controller/MobileDeviceController.java:35-41 | `wifiStatus` is overwritten iff the body holds a non-null one, `batteryLevel` likewise, and no other field changes. A non-null value of the wrong type makes the call fail |
| `Controllers.MobileDeviceController.ReceiveTelemetry` | websocket-demo/src/main/java/com/websocket/example/controller/MobileDeviceController.java:17-22 | exactly one upsert of the posted record, and the reply names its device id |
| `Controllers.MobileDeviceController.HandleFcmResponse` | websocket-demo/src/main/java/com/websocket/example/controller/MobileDeviceController.java:25-45 | find or create, two guarded updates, exactly one save and one notification. On a failed cast nothing is stored or published and the call fails |
| `Sessions.WithSession` | websocket-demo/src/main/java/com/websocket/example/session/SessionManager.java:15 | afterwards the session is recorded for the phone; the phone's earlier sessions are kept; a new phone gets just this session; other phones are unchanged |
| `Sessions.WithSessionIdempotent` | websocket-demo/src/main/java/com/websocket/example/session/SessionManager.java:15 | adding the same (phone, session) twice gives the map of adding it once |
| `Sessions.WithSessionCommutes` | websocket-demo/src/main/java/com/websocket/example/session/SessionManager.java:15 | additions for two different phones commute |
| `Sessions.SessionManager.constructor` | websocket-demo/src/main/java/com/websocket/example/session/SessionManager.java:12 | the map starts empty |
| `Sessions.SessionManager.AddSession` | websocket-demo/src/main/java/com/websocket/example/session/SessionManager.java:14-16 | the map becomes `WithSession` of the old map |
| `Frontend.Receive` | websocket-front-end/src/app/app.ts:189-194 | the client's view of each backend envelope: never a top-level phone; `chunked` iff a chunk and `compressed` iff compressed; a record arrives under `data` without its document id (no getter), a compressed text with its original size, a chunk with its piece, session id, index and total |
| `Frontend.Matches` | websocket-front-end/src/app/app.ts:192 | the filter holds iff the top-level phone, or the phone of the device object under `data`, is the subscribed one |
| `Frontend.ChunkedStep` | websocket-front-end/src/app/app.ts:219-260 | a new session whose total `new Array` rejects changes nothing; the shown record changes only on completion, which sets the received status and drops the session |
| `Frontend.OtherSessionsUntouched` | websocket-front-end/src/app/app.ts:225-246 | a chunk changes no other session's slots and adds no session but its own |
| `Frontend.CompressedStep` | websocket-front-end/src/app/app.ts:262-286 | the chunk buffer is untouched; the state is unchanged or shows what the text parses to after `decompressData` (app.ts:323-331: `atob`, or the value itself when `atob` throws); `payloadInfo` is unchanged or marked compressed with no chunks |
| `Frontend.RegularStep` | websocket-front-end/src/app/app.ts:288-300 | the chunk buffer is untouched; the state is unchanged or shows the truthy `data` and marks the payload uncompressed |
| `Frontend.LargePayloadStep` | websocket-front-end/src/app/app.ts:206-217 | an update that is not chunked never touches the chunk buffer |
| `Frontend.MessageStep` | websocket-front-end/src/app/app.ts:189-196 | an update failing the filter changes nothing; one that is not chunked never touches the chunk buffer |
| `Frontend.DataPhone` | websocket-front-end/src/app/app.ts:192 | `data?.phoneNumber` is a string only when `data` is a device object holding that phone number |
| `Frontend.ChunkSlots` | websocket-front-end/src/app/app.ts:225-231 | no slots (a `RangeError`) iff the session is new and `new Array` rejects the total; otherwise an array index slot holds the chunk's data, and a new session has at least `totalChunks` slots |
| `Frontend.Holes` | websocket-front-end/src/app/app.ts:226 | `new Array(n)` has `n` slots, all empty |
| `Frontend.WriteSlot` | websocket-front-end/src/app/app.ts:231 | an array index writes exactly that slot (growing the array with holes past the end) and leaves every other slot; any other number leaves the slots alone |
| `Frontend.CountFilled` | websocket-front-end/src/app/app.ts:234 | the received count never exceeds the number of slots |
| `Frontend.Updated` | websocket-front-end/src/app/app.ts:302-321 | shows the value, sets the received status, clears the searching flag and touches neither `payloadInfo` nor the buffer |
| `Frontend.Status` | websocket-front-end/src/app/app.ts:258 | the progress status is never the received status |
| `Frontend.StatusShape` | websocket-front-end/src/app/app.ts:258 | the progress status is `Receiving chunks: ` followed by the received count, `/` and the total |
| `Frontend.JoinSlotsAppend` | websocket-front-end/src/app/app.ts:239 | `join('')` writes the slots in index order: one more slot at the end adds its text (nothing for a hole, `undefined` or `null`) at the end |
| `Frontend.DispatchPrecedence` | websocket-front-end/src/app/app.ts:206-217 | a chunked update is handled as a chunk even when also flagged compressed; otherwise compressed wins over regular |
| `Frontend.FilterGate` | websocket-front-end/src/app/app.ts:192-196 | an update that fails the filter leaves the state unchanged; one that passes it gets exactly the three-way dispatch of `handleLargePayload` |
| `Frontend.FilterOnEnvelopes` | websocket-front-end/src/app/app.ts:192 | chunk and compressed envelopes never pass the filter (no top-level phone, string `data`); a record envelope passes iff its record's phone matches |
| `Frontend.CountFilledWrite` | websocket-front-end/src/app/app.ts:230-234 | storing a chunk raises the count by one for an empty slot and not at all for a duplicate index |
| `Frontend.CountFilledFull` | websocket-front-end/src/app/app.ts:234-237 | the count equals the number of slots iff no slot is empty |
| `Frontend.FirstChunk` | websocket-front-end/src/app/app.ts:225-227 | the first chunk of an unknown session creates `totalChunks` empty slots and writes its own; a total `new Array` rejects changes nothing |
| `Frontend.PartialKeepsBuffer` | websocket-front-end/src/app/app.ts:230-258 | until the count reaches the total, the slots are kept, `payloadInfo.chunks` is the count, the status reads `Receiving chunks: r/t` and the shown record stays |
| `Frontend.CompletionOutcome` | websocket-front-end/src/app/app.ts:237-256 | at the total, the slots are joined in index order. A successful parse shows the value, sets `payloadInfo` to `{false, joined length, total}` and deletes the session. A failed parse keeps the slots in place |
| `Frontend.RegularPayloadCondition` | websocket-front-end/src/app/app.ts:288-300 | a regular payload is shown iff `data` is truthy and its or the envelope's phone matches, and then its serialised length is recorded |
| `Frontend.CompressedOutcome` | websocket-front-end/src/app/app.ts:262-286 | the compressed path shows what the decompressed text parses to, records a nonzero `originalSize`, and changes nothing when parsing throws |
| `Frontend.App.constructor` | websocket-front-end/src/app/app.ts:16-24 | the initial component fields |
| `Frontend.App.OnMessage` | websocket-front-end/src/app/app.ts:189-199 | the subscription callback's effect is the filtered dispatch |
| `Frontend.App.HandleLargePayload` | websocket-front-end/src/app/app.ts:206-217 | the effect of the three-way dispatch |
| `Frontend.App.HandleChunkedPayload` | websocket-front-end/src/app/app.ts:219-260 | the effect on buffer, count, status, shown record and `payloadInfo` of one chunk |
| `Frontend.App.HandleCompressedPayload` | websocket-front-end/src/app/app.ts:262-286 | the effect of one compressed update, including the exception paths |
| `Frontend.App.HandleRegularPayload` | websocket-front-end/src/app/app.ts:288-300 | the effect of one regular update |
| `Frontend.App.UpdateDeviceData` | websocket-front-end/src/app/app.ts:302-311 | sets the shown record, the status and the searching flag |
| `Delivery.ReceiveOne` | websocket-front-end/src/app/app.ts:230-235 | a chunk not yet received fills its own slot and raises the count by one |
| `Delivery.ArrivalsAreChunks` | websocket-demo/src/main/java/com/websocket/example/service/LargePayloadService.java:81-89 | what the client parses from envelope `i` is a chunk update for piece `i` with the session id and the total |
| `Delivery.ChunkArrival` | websocket-front-end/src/app/app.ts:219-258 | one more chunk of a partly received session lands in its slot, the count goes up by one, and while pieces are missing the buffer and status record it |
| `Delivery.ArrivalPrefix` | websocket-front-end/src/app/app.ts:225-258 | after the first `k < n` arrivals in any order, the session holds exactly those `k` pieces, each in its own slot. The status and `payloadInfo.chunks` report `k`, and other sessions are untouched |
| `Delivery.AllArrived` | websocket-front-end/src/app/app.ts:237-239 | once every index has arrived, the slots hold every piece and join to their concatenation |
| `Delivery.ReassemblyInAnyOrder` | websocket-front-end/src/app/app.ts:230-246 | every chunk delivered once, in any order, fills all slots in index order, whose join is the pieces' concatenation. It is shown and the session deleted on a successful parse, and kept on a failed one |
| `Delivery.ChunkedPayloadRoundTrip` | websocket-demo/src/main/java/com/websocket/example/service/LargePayloadService.java:67-103 | the chunk envelopes `sendChunkedPayload` publishes (with the corrected chunk ends), fed to the client's handler in any order, rebuild exactly the serialised JSON |
| `Delivery.NotificationsNeverReachClient` | websocket-front-end/src/app/app.ts:177-196 | every `notifyFrontend` publication on the general topic (the only one the client subscribes to) fails the filter; `notifyFrontend` never sends a phone-bearing record there |
| `Delivery.ListenerUpdateReachesClient` | websocket-demo/src/main/java/com/websocket/example/listener/MongoChangeStreamListener.java:28-33 | the listener's `{deviceId, data}` message on the general topic passes the filter iff the record carries the subscribed phone; then the record is shown without its document id and the chunk buffer is untouched; otherwise nothing changes |
| `Delivery.ChunksNeverReachClient` | websocket-demo/src/main/java/com/websocket/example/service/LargePayloadService.java:106 | everything `sendChunkedPayload` publishes goes to the phone's topic, never the general one, and its chunk and compressed envelopes would fail the filter even there |

## Left out

- Timestamps, `Thread.sleep(10)` between chunks and all logging are dropped. The
  clock and the random roll of `generateSessionId` are parameters.
- Jackson serialisation, GZIP and Base64 (`compressData`, `decompressData`) are
  abstract functions. Their round trip is a stated assumption (`RoundTrips`), not a
  theorem. The model makes no claim that compression makes anything smaller.
- The broker never fails to publish. A send-buffer or size limit of the transport
  is not modelled (including the 1 MiB message size limit in
  `WebSocketConfiguration.java`). Per-chunk publish failures are also out.
- Strings are sequences of Dafny `char`s, which are Unicode scalar values. For a
  text without supplementary characters (outside the Basic Multilingual Plane) one
  `char` is one UTF-16 code unit, so lengths agree with Java's `String.length()`
  and JavaScript's `length`. Only such texts are modelled unit for unit.
- Supplementary characters are not modelled: a JSON text containing one, and a
  chunk boundary at `LargePayloadService.java:79` that splits a surrogate pair,
  cannot be represented. Encodings are not modelled either.
- The repository is a map keyed by device id. Document ids, several documents
  sharing a device id, and `findAll` are not part of this model.
- `Sessions.SessionManager.AddSession`: takes non-null strings. A null phone or
  session id makes `ConcurrentHashMap` throw, and the model does not represent that.
  Concurrent access is out.
- `FCMService.java` is not part of this model (a semaphore, futures, sleeps and
  random mock data), and neither are the configuration classes, the change-stream
  and session listeners, `SearchController` or the repository interface.
- In the client: SockJS/STOMP connection, reconnection and health checks, HTTP
  polling, `generateUUID`, mock telemetry, `lastUpdate` (a clock),
  `stopPolling`/`logSearchAction` (HTTP) and change detection. A message body that
  is not JSON is caught before any handler runs, so the model starts from the
  parsed update.
- `Frontend.Update`: its fields are typed. A `chunkIndex` or `totalChunks` that is
  not an integer, a non-boolean `chunked`/`compressed` flag, an absent
  `sessionId`, and `data` values other than `undefined`, `null`, a string or a device
  object are not modelled. An object's absent and `null` fields are not told apart,
  so the initial `deviceData = {}` is the all-null record.
- `Frontend.JoinSlots`: a joined string beyond the browser's maximum string length
  would throw. The model does not represent that limit.
- `Controllers.MobileDeviceController.HandleFcmResponse`: a body that is not a JSON
  object is rejected by the framework before the handler runs. That case is not
  modelled.
- `MongoChangeStreamListener` publishes `{deviceId, data, timestamp}` on the
  general topic for every mapping event of a `DeviceData`: before and after each
  `save`, and after each load by `findByDeviceId`. That is how the client really
  gets its updates. The broker contracts of `Save`, `Upsert`, `DeleteByDeviceId`,
  `ReceiveTelemetry` and `HandleFcmResponse` leave those publications out.
  `Delivery.ListenerUpdateReachesClient` states what one of them does at the client.
- `Payloads.LargePayloadService.PublishChunks`: uses the corrected chunk end
  `ChunkEnd`. For a JSON longer than 2147328000 units the Java loop throws on chunk
  4194 and sends only the first 4194 chunks (see "## Findings");
  `Payloads.ChunkEndAsWritten` and `Payloads.ChunkEndOverflows` model that.
- `Payloads.LargePayloadService.SendChunkedPayload`: likewise uses the corrected
  chunk end, so it does not model the lost last chunk above 2147328000 units.
- `Delivery.ChunkedPayloadRoundTrip`: is about the corrected chunk ends; for a JSON
  longer than 2147328000 units the code as written never sends the last chunk, and
  the client never completes the session.
- `sendChunkedPayload` has no caller in the repository. It is modelled on its own,
  and `notifyFrontend` uses `sendLargePayload` only.
- Failed compression: the code catches the exception and publishes nothing for
  that save; there is no fallback to a plain envelope (`Payloads.LargePayloadPolicy`:
  nothing is published when compression throws).

## Findings

| source | as written | input that shows it | evidently intended | confidence | as-written member | corrected member |
|---|---|---|---|---|---|---|
| websocket-demo/src/main/java/com/websocket/example/service/LargePayloadService.java:78 | `int end = Math.min(start + chunkSize, jsonData.length())`, where `start + chunkSize` is a 32-bit `int` sum | a JSON text of 2147400000 units. It needs 4195 chunks. For `i = 4194`, `start = 2147328000` and `start + 512000` wraps to -2147127296, so `substring` throws and the last chunk is never published (the catch logs it after 4194 chunks went out) | `end = min(start + chunkSize, len)` without overflow, so that the chunks cover the whole text | low: not executed, and it needs a string of about 2^31 units | `Payloads.ChunkEndAsWritten`, `Payloads.ChunkEndOverflows` | `Payloads.ChunkEnd`, `Payloads.PiecesRebuild` |
