/** The Angular client (`App` in app.ts): the phone-number filter on the general
    topic, the three-way dispatch of an update, the per-session chunk buffer that
    reassembles chunked payloads, and the component fields those handlers set. */
module Frontend {
  import opened Common
  import opened Records
  import opened Messaging

  /** A JavaScript value where the client reads one: `undefined`, `null`, a string,
      or a device object (an object's absent and `null` fields are not told apart). */
  datatype Payload = Missing | Null | Text(s: string) | Object(record: Record)

  /** The fields of a parsed update object that the handlers read. Absent optional
      fields are `None`; an absent `chunked` or `compressed` flag is `false`. */
  datatype Update = Update(
    chunked: bool,
    compressed: bool,
    phoneNumber: Option<string>,
    data: Payload,
    sessionId: string,
    chunkIndex: int,
    totalChunks: int,
    originalSize: Option<int>)

  /** `payloadInfo`; `size` is `None` when the code stores `undefined` there. */
  datatype PayloadInfo = PayloadInfo(compressed: bool, size: Option<int>, chunks: int)

  /** The browser's `JSON.parse` (`None` when it throws), `JSON.stringify` and `atob`
      (`None` when it throws), which the model does not look inside. */
  datatype Runtime = Runtime(
    parse: string -> Option<Payload>,
    stringify: Payload -> string,
    atob: string -> Option<string>)

  /** The component fields the message handlers read or write. */
  datatype ClientState = ClientState(
    deviceData: Payload,
    searchStatus: string,
    isSearching: bool,
    payloadInfo: PayloadInfo,
    chunkBuffer: map<string, seq<Payload>>)

  /** `new Array(n)` accepts `0 <= n <= 2^32 - 1`; array indices are below that. */
  const MaxArrayLength: nat := 0xFFFF_FFFF

  const ReceivedStatus: string := "Device data received via WebSocket!"

  /** The component as constructed: `deviceData = {}`, empty status, no buffer. */
  const Initial: ClientState :=
    ClientState(Object(Blank), "", false, PayloadInfo(false, Some(0), 0), map[])

  /** The JSON view of a backend envelope as the client parses it. A record or a
      general-topic message carries the record under `data` and no top-level
      `phoneNumber`; a compressed or chunk envelope carries a string under `data`.
      The record arrives without its document id, which has no getter and so is
      never serialised. */
  function Receive(m: Message): (u: Update)
    ensures u.phoneNumber.None?
    ensures u.chunked <==> m.Chunk?
    ensures u.compressed <==> m.Compressed?
    ensures (m.Plain? || m.General?) ==> u.data == Object(m.data.(id := None))
    ensures m.Compressed? ==> u.data == Text(m.text) && u.originalSize == Some(m.originalSize)
    ensures m.Chunk? ==>
      && u.data == Text(m.piece) && u.sessionId == m.sessionId
      && u.chunkIndex == m.chunkIndex && u.totalChunks == m.totalChunks
  {
    match m
    case Plain(r) => Update(false, false, None, Object(r.(id := None)), "", 0, 0, None)
    case General(_, r) => Update(false, false, None, Object(r.(id := None)), "", 0, 0, None)
    case Compressed(z, original, _) => Update(false, true, None, Text(z), "", 0, 0, Some(original))
    case Chunk(sid, i, total, piece) => Update(true, false, None, Text(piece), sid, i, total, None)
  }

  /** JavaScript truthiness of a payload. */
  predicate Truthy(p: Payload)
  {
    match p
    case Missing => false
    case Null => false
    case Text(s) => s != ""
    case Object(_) => true
  }

  /** `data?.phoneNumber` as a string, when it is one. */
  function DataPhone(p: Payload): (phone: Option<string>)
    ensures phone.Some? ==> p.Object? && p.record.phoneNumber == phone
  {
    if p.Object? then p.record.phoneNumber else None
  }

  /** The subscription filter: the top-level or the nested phone number equals the
      subscribed one. */
  predicate Matches(u: Update, phone: string)
    ensures Matches(u, phone) <==>
      u.phoneNumber == Some(phone) || (u.data.Object? && u.data.record.phoneNumber == Some(phone))
  {
    u.phoneNumber == Some(phone) || DataPhone(u.data) == Some(phone)
  }

  /** `String(p)`. */
  function JsString(p: Payload): string
  {
    match p
    case Missing => "undefined"
    case Null => "null"
    case Text(s) => s
    case Object(_) => "[object Object]"
  }

  /** What `Array.prototype.join` writes for one slot: nothing for a hole,
      `undefined` or `null`, else the value as a string. */
  function SlotText(p: Payload): string
  {
    if p.Missing? || p.Null? then "" else JsString(p)
  }

  /** The slots of `new Array(n)`: all holes. */
  function Holes(n: nat): (slots: seq<Payload>)
    ensures |slots| == n && forall j | 0 <= j < n :: slots[j] == Missing
  {
    seq(n, _ => Missing)
  }

  /** `slots[i] = x`: an array index overwrites that slot, growing the array with
      holes when it lies past the end; any other number names a plain property,
      which the array's slots do not see. */
  function WriteSlot(slots: seq<Payload>, i: int, x: Payload): (r: seq<Payload>)
    ensures 0 <= i < MaxArrayLength ==>
      && |r| == (if i < |slots| then |slots| else i + 1)
      && r[i] == x
      && forall j | 0 <= j < |r| && j != i :: r[j] == (if j < |slots| then slots[j] else Missing)
    ensures !(0 <= i < MaxArrayLength) ==> r == slots
  {
    if !(0 <= i < MaxArrayLength) then slots
    else if i < |slots| then slots[i := x]
    else slots + Holes(i - |slots|) + [x]
  }

  /** `slots.filter(chunk => chunk !== undefined).length` (holes are skipped). */
  function CountFilled(slots: seq<Payload>): (n: nat)
    ensures n <= |slots|
  {
    if slots == [] then 0
    else CountFilled(slots[..|slots| - 1]) + (if slots[|slots| - 1] != Missing then 1 else 0)
  }

  /** `slots.join('')`. */
  function JoinSlots(slots: seq<Payload>): string
  {
    Join(seq(|slots|, j requires 0 <= j < |slots| => SlotText(slots[j])))
  }

  function Status(received: int, total: int): (r: string)
    ensures r != ReceivedStatus
  {
    var r := "Receiving chunks: " + Decimal(received) + "/" + Decimal(total);
    assert r[0] == 'R' && ReceivedStatus[0] == 'D';
    r
  }

  /** The progress status reads `Receiving chunks: ` followed by the received count,
      `/`, and the total. */
  lemma StatusShape(received: nat, total: nat)
    ensures Status(received, total) == "Receiving chunks: " + (NatDecimal(received) + ['/'] + NatDecimal(total))
    ensures Status(received, total)[..18] == "Receiving chunks: "
  {
    var w := NatDecimal(received) + ['/'] + NatDecimal(total);
    assert Status(received, total) == "Receiving chunks: " + w;
  }

  /** `updateDeviceData`: the shown record and the search status. */
  function Updated(s: ClientState, v: Payload): (t: ClientState)
    ensures t.deviceData == v && t.searchStatus == ReceivedStatus && !t.isSearching
    ensures t.payloadInfo == s.payloadInfo && t.chunkBuffer == s.chunkBuffer
  {
    s.(deviceData := v, searchStatus := ReceivedStatus, isSearching := false)
  }

  /** The slots a chunk update leaves under its session, or `None` when the session
      is new and `new Array(totalChunks)` throws a `RangeError`. */
  function ChunkSlots(s: ClientState, u: Update): (r: Option<seq<Payload>>)
    ensures r.None? <==> u.sessionId !in s.chunkBuffer && !(0 <= u.totalChunks <= MaxArrayLength)
    ensures r.Some? && 0 <= u.chunkIndex < MaxArrayLength ==>
      u.chunkIndex < |r.value| && r.value[u.chunkIndex] == u.data
    ensures r.Some? && u.sessionId !in s.chunkBuffer ==> u.totalChunks <= |r.value|
  {
    if u.sessionId in s.chunkBuffer then Some(WriteSlot(s.chunkBuffer[u.sessionId], u.chunkIndex, u.data))
    else if 0 <= u.totalChunks <= MaxArrayLength then Some(WriteSlot(Holes(u.totalChunks), u.chunkIndex, u.data))
    else None
  }

  /** `handleChunkedPayload`. An exception ends the handler and is caught by the
      subscription callback, so what was already written stays written. */
  function ChunkedStep(rt: Runtime, s: ClientState, u: Update): (t: ClientState)
    ensures u.sessionId !in s.chunkBuffer && !(0 <= u.totalChunks <= MaxArrayLength) ==> t == s
    ensures t.deviceData != s.deviceData ==> t.searchStatus == ReceivedStatus && u.sessionId !in t.chunkBuffer
  {
    match ChunkSlots(s, u)
    case None => s
    case Some(slots) =>
      var received := CountFilled(slots);
      var s1 := s.(chunkBuffer := s.chunkBuffer[u.sessionId := slots],
                   payloadInfo := s.payloadInfo.(chunks := received));
      if received == u.totalChunks then
        var complete := JoinSlots(slots);
        match rt.parse(complete)
        case None => s1
        case Some(v) =>
          Updated(s1, v).(payloadInfo := PayloadInfo(false, Some(|complete|), u.totalChunks),
                          chunkBuffer := s1.chunkBuffer - {u.sessionId})
      else
        s1.(searchStatus := Status(received, u.totalChunks))
  }

  /** `decompressData(update.data)`: `atob` of the value, or the value itself when
      `atob` throws. */
  function Decompressed(rt: Runtime, data: Payload): Payload
  {
    match rt.atob(JsString(data))
    case Some(t) => Text(t)
    case None => data
  }

  /** `handleCompressedPayload`. The size is `originalSize` when that is truthy,
      else the decompressed value's `length`, which throws for `null` and
      `undefined` (after the record is already shown) and is `undefined` for an
      object. */
  function CompressedStep(rt: Runtime, s: ClientState, u: Update): (t: ClientState)
    ensures t.chunkBuffer == s.chunkBuffer
    ensures t == s || (rt.parse(JsString(Decompressed(rt, u.data))).Some?
                      && t.deviceData == rt.parse(JsString(Decompressed(rt, u.data))).value)
    ensures t.payloadInfo == s.payloadInfo || (t.payloadInfo.compressed && t.payloadInfo.chunks == 0)
  {
    var d := Decompressed(rt, u.data);
    match rt.parse(JsString(d))
    case None => s
    case Some(v) =>
      var s1 := Updated(s, v);
      if u.originalSize.Some? && u.originalSize.value != 0 then
        s1.(payloadInfo := PayloadInfo(true, u.originalSize, 0))
      else
        match d
        case Text(t) => s1.(payloadInfo := PayloadInfo(true, Some(|t|), 0))
        case Object(_) => s1.(payloadInfo := PayloadInfo(true, None, 0))
        case _ => s1
  }

  /** `handleRegularPayload`: only a truthy `data` whose own or whose envelope's
      phone number matches is shown. */
  function RegularStep(rt: Runtime, s: ClientState, u: Update, phone: string): (t: ClientState)
    ensures t.chunkBuffer == s.chunkBuffer
    ensures t == s || (t.deviceData == u.data && Truthy(u.data) && !t.payloadInfo.compressed)
  {
    if Truthy(u.data) && (DataPhone(u.data) == Some(phone) || u.phoneNumber == Some(phone)) then
      Updated(s, u.data).(payloadInfo := PayloadInfo(false, Some(|rt.stringify(u.data)|), 0))
    else s
  }

  /** `handleLargePayload`: chunked before compressed before regular. */
  function LargePayloadStep(rt: Runtime, s: ClientState, u: Update, phone: string): (t: ClientState)
    ensures !u.chunked ==> t.chunkBuffer == s.chunkBuffer
  {
    if u.chunked then ChunkedStep(rt, s, u)
    else if u.compressed then CompressedStep(rt, s, u)
    else RegularStep(rt, s, u, phone)
  }

  /** The subscription callback on a parsed update. */
  function MessageStep(rt: Runtime, s: ClientState, u: Update, phone: string): (t: ClientState)
    ensures !u.chunked ==> t.chunkBuffer == s.chunkBuffer
  {
    if Matches(u, phone) then LargePayloadStep(rt, s, u, phone) else s
  }

  /** The dispatch order: a chunk is a chunk even when it is also flagged compressed;
      otherwise the compressed flag takes it away from the regular path. */
  lemma DispatchPrecedence(rt: Runtime, s: ClientState, u: Update, phone: string)
    ensures u.chunked ==> LargePayloadStep(rt, s, u, phone) == ChunkedStep(rt, s, u)
    ensures !u.chunked && u.compressed ==> LargePayloadStep(rt, s, u, phone) == CompressedStep(rt, s, u)
    ensures !u.chunked && !u.compressed ==> LargePayloadStep(rt, s, u, phone) == RegularStep(rt, s, u, phone)
  {
  }

  /** An update that fails the filter changes nothing; one that passes it is
      dispatched. */
  lemma FilterGate(rt: Runtime, s: ClientState, u: Update, phone: string)
    ensures !Matches(u, phone) ==> MessageStep(rt, s, u, phone) == s
    ensures Matches(u, phone) ==> MessageStep(rt, s, u, phone) == LargePayloadStep(rt, s, u, phone)
  {
  }

  /** No backend envelope carries a top-level phone number, and only the record-bearing
      ones carry a nested one: chunk and compressed envelopes never pass the filter,
      a record envelope passes it exactly when its record's phone number matches. */
  lemma FilterOnEnvelopes(m: Message, phone: string)
    ensures (m.Chunk? || m.Compressed?) ==> !Matches(Receive(m), phone)
    ensures m.Plain? ==> (Matches(Receive(m), phone) <==> m.data.phoneNumber == Some(phone))
    ensures m.General? ==> (Matches(Receive(m), phone) <==> m.data.phoneNumber == Some(phone))
  {
  }

  /** The join writes the slots in index order: one more slot at the end adds its
      text at the end. */
  lemma JoinSlotsAppend(slots: seq<Payload>, x: Payload)
    ensures JoinSlots(slots + [x]) == JoinSlots(slots) + SlotText(x)
  {
    var texts := seq(|slots|, j requires 0 <= j < |slots| => SlotText(slots[j]));
    assert seq(|slots + [x]|, j requires 0 <= j < |slots + [x]| => SlotText((slots + [x])[j])) == texts + [SlotText(x)];
    JoinAppend(texts, SlotText(x));
  }

  /** Adding one slot at the end adds one to the count exactly when it is filled. */
  lemma {:induction false} CountFilledAppend(a: seq<Payload>, b: seq<Payload>)
    ensures CountFilled(a + b) == CountFilled(a) + CountFilled(b)
    decreases |b|
  {
    if b == [] {
      assert a + b == a;
    } else {
      var b' := b[..|b| - 1];
      assert (a + b)[..|a + b| - 1] == a + b';
      CountFilledAppend(a, b');
    }
  }

  lemma {:induction false} CountFilledHoles(n: nat)
    ensures CountFilled(Holes(n)) == 0
  {
    if n > 0 {
      assert Holes(n)[..n - 1] == Holes(n - 1);
      CountFilledHoles(n - 1);
    }
  }

  /** Overwriting one slot changes the count by what was there and what is written. */
  lemma {:induction false} CountFilledUpdate(slots: seq<Payload>, i: nat, x: Payload)
    requires i < |slots|
    ensures CountFilled(slots[i := x])
      == CountFilled(slots) - (if slots[i] != Missing then 1 else 0) + (if x != Missing then 1 else 0)
  {
    var last := |slots| - 1;
    if i == last {
      assert slots[i := x][..last] == slots[..last];
    } else {
      assert slots[i := x][..last] == slots[..last][i := x];
      CountFilledUpdate(slots[..last], i, x);
    }
  }

  /** Storing a chunk in an array slot raises the received count by one when the slot
      was empty and by nothing when it already held a chunk (a duplicate index), as
      long as the stored value is defined. */
  lemma CountFilledWrite(slots: seq<Payload>, i: int, x: Payload)
    requires 0 <= i < MaxArrayLength && x != Missing
    ensures i < |slots| && slots[i] != Missing ==> CountFilled(WriteSlot(slots, i, x)) == CountFilled(slots)
    ensures (i >= |slots| || slots[i] == Missing) ==> CountFilled(WriteSlot(slots, i, x)) == CountFilled(slots) + 1
  {
    if i < |slots| {
      CountFilledUpdate(slots, i, x);
    } else {
      CountFilledAppend(slots + Holes(i - |slots|), [x]);
      CountFilledAppend(slots, Holes(i - |slots|));
      CountFilledHoles(i - |slots|);
      assert CountFilled([x]) == 1 by {
        assert [x][..0] == [];
      }
    }
  }

  /** The count reaches the number of slots exactly when no slot is empty. */
  lemma {:induction false} CountFilledFull(slots: seq<Payload>)
    ensures CountFilled(slots) == |slots| <==> forall j | 0 <= j < |slots| :: slots[j] != Missing
  {
    if slots != [] {
      var init := slots[..|slots| - 1];
      CountFilledFull(init);
      assert forall j | 0 <= j < |init| :: init[j] == slots[j];
    }
  }

  /** A chunk touches only its own session's slots: every other session keeps its
      slots, and no session other than the chunk's own appears. */
  lemma OtherSessionsUntouched(rt: Runtime, s: ClientState, u: Update)
    ensures var t := ChunkedStep(rt, s, u);
      && (forall k | k in s.chunkBuffer && k != u.sessionId :: k in t.chunkBuffer && t.chunkBuffer[k] == s.chunkBuffer[k])
      && (forall k | k in t.chunkBuffer :: k in s.chunkBuffer || k == u.sessionId)
  {
  }

  /** The first chunk of an unknown session: a total outside `new Array`'s range
      throws and changes nothing; otherwise the session gets `totalChunks` empty
      slots with this chunk's slot written. */
  lemma FirstChunk(rt: Runtime, s: ClientState, u: Update)
    requires u.sessionId !in s.chunkBuffer
    ensures !(0 <= u.totalChunks <= MaxArrayLength) ==> ChunkedStep(rt, s, u) == s
    ensures 0 <= u.totalChunks <= MaxArrayLength ==>
      ChunkSlots(s, u) == Some(WriteSlot(Holes(u.totalChunks), u.chunkIndex, u.data))
  {
  }

  /** Until the received count reaches the total, the session keeps its slots, the
      status reports the progress, the count is published in `payloadInfo.chunks`,
      and the shown record stays. */
  lemma PartialKeepsBuffer(rt: Runtime, s: ClientState, u: Update, slots: seq<Payload>)
    requires ChunkSlots(s, u) == Some(slots) && CountFilled(slots) != u.totalChunks
    ensures var t := ChunkedStep(rt, s, u);
      && t.chunkBuffer == s.chunkBuffer[u.sessionId := slots]
      && t.searchStatus == Status(CountFilled(slots), u.totalChunks)
      && t.payloadInfo == s.payloadInfo.(chunks := CountFilled(slots))
      && t.deviceData == s.deviceData && t.isSearching == s.isSearching
  {
  }

  /** When the count reaches the total the slots are joined in index order; a
      successful parse shows the result, deletes the session and records the joined
      length and the total; a failed parse leaves the slots in place for the session. */
  lemma CompletionOutcome(rt: Runtime, s: ClientState, u: Update, slots: seq<Payload>)
    requires ChunkSlots(s, u) == Some(slots) && CountFilled(slots) == u.totalChunks
    ensures var t := ChunkedStep(rt, s, u);
      match rt.parse(JoinSlots(slots))
      case Some(v) =>
        && t.deviceData == v && t.searchStatus == ReceivedStatus && !t.isSearching
        && t.payloadInfo == PayloadInfo(false, Some(|JoinSlots(slots)|), u.totalChunks)
        && t.chunkBuffer == s.chunkBuffer - {u.sessionId}
      case None =>
        && t.chunkBuffer == s.chunkBuffer[u.sessionId := slots]
        && t.deviceData == s.deviceData && t.searchStatus == s.searchStatus
        && t.payloadInfo == s.payloadInfo.(chunks := u.totalChunks)
  {
    var t := ChunkedStep(rt, s, u);
    if rt.parse(JoinSlots(slots)).Some? {
      assert t.chunkBuffer == s.chunkBuffer[u.sessionId := slots] - {u.sessionId};
      assert s.chunkBuffer[u.sessionId := slots] - {u.sessionId} == s.chunkBuffer - {u.sessionId};
    }
  }

  /** A regular payload is shown exactly when `data` is truthy and its phone number
      or the envelope's matches; then its serialised length is recorded. */
  lemma RegularPayloadCondition(rt: Runtime, s: ClientState, u: Update, phone: string)
    ensures var t := RegularStep(rt, s, u, phone);
      var shown := Truthy(u.data) && (DataPhone(u.data) == Some(phone) || u.phoneNumber == Some(phone));
      && (shown ==> t == Updated(s, u.data).(payloadInfo := PayloadInfo(false, Some(|rt.stringify(u.data)|), 0)))
      && (!shown ==> t == s)
  {
  }

  /** The compressed path records `originalSize` when the envelope carries a nonzero
      one, and shows whatever the decompressed text parses to. */
  lemma CompressedOutcome(rt: Runtime, s: ClientState, u: Update)
    ensures var t := CompressedStep(rt, s, u);
      var d := Decompressed(rt, u.data);
      && (rt.parse(JsString(d)).None? ==> t == s)
      && (rt.parse(JsString(d)).Some? ==>
            && t.deviceData == rt.parse(JsString(d)).value && t.chunkBuffer == s.chunkBuffer
            && (u.originalSize.Some? && u.originalSize.value != 0 ==>
                  t.payloadInfo == PayloadInfo(true, u.originalSize, 0)))
  {
  }

  /** The component's message-handling state. Each handler is specified by the step
      function of the same name. */
  class App {
    var deviceData: Payload
    var searchStatus: string
    var isSearching: bool
    var payloadInfo: PayloadInfo
    var chunkBuffer: map<string, seq<Payload>>
    const rt: Runtime

    function State(): ClientState
      reads this
    {
      ClientState(deviceData, searchStatus, isSearching, payloadInfo, chunkBuffer)
    }

    constructor (rt: Runtime)
      ensures State() == Initial && this.rt == rt
    {
      this.rt := rt;
      deviceData := Object(Blank);
      searchStatus := "";
      isSearching := false;
      payloadInfo := PayloadInfo(false, Some(0), 0);
      chunkBuffer := map[];
    }

    /** The callback of the subscription to the general topic. */
    method OnMessage(update: Update, phoneNumber: string)
      modifies this
      ensures State() == MessageStep(rt, old(State()), update, phoneNumber)
    {
      if update.phoneNumber == Some(phoneNumber) || DataPhone(update.data) == Some(phoneNumber) {
        HandleLargePayload(update, phoneNumber);
      }
    }

    method HandleLargePayload(update: Update, phoneNumber: string)
      modifies this
      ensures State() == LargePayloadStep(rt, old(State()), update, phoneNumber)
    {
      if update.chunked {
        HandleChunkedPayload(update);
      } else if update.compressed {
        HandleCompressedPayload(update);
      } else {
        HandleRegularPayload(update, phoneNumber);
      }
    }

    method HandleChunkedPayload(update: Update)
      modifies this
      ensures State() == ChunkedStep(rt, old(State()), update)
    {
      ghost var s0 := State();
      var sessionId := update.sessionId;
      if sessionId !in chunkBuffer {
        if !(0 <= update.totalChunks <= MaxArrayLength) {
          return;
        }
        chunkBuffer := chunkBuffer[sessionId := Holes(update.totalChunks)];
      }
      var chunks := WriteSlot(chunkBuffer[sessionId], update.chunkIndex, update.data);
      assert ChunkSlots(s0, update) == Some(chunks);
      assert chunkBuffer[sessionId := chunks] == s0.chunkBuffer[sessionId := chunks];
      chunkBuffer := chunkBuffer[sessionId := chunks];
      var receivedChunks := CountFilled(chunks);
      payloadInfo := payloadInfo.(chunks := receivedChunks);
      if receivedChunks == update.totalChunks {
        var completeData := JoinSlots(chunks);
        var parsed := rt.parse(completeData);
        if parsed.Some? {
          UpdateDeviceData(parsed.value);
          payloadInfo := PayloadInfo(false, Some(|completeData|), update.totalChunks);
          chunkBuffer := chunkBuffer - {sessionId};
        }
      } else {
        searchStatus := Status(receivedChunks, update.totalChunks);
      }
    }

    method HandleCompressedPayload(update: Update)
      modifies this
      ensures State() == CompressedStep(rt, old(State()), update)
    {
      var decompressedData := Decompressed(rt, update.data);
      var parsed := rt.parse(JsString(decompressedData));
      if parsed.None? {
        return;
      }
      UpdateDeviceData(parsed.value);
      if update.originalSize.Some? && update.originalSize.value != 0 {
        payloadInfo := PayloadInfo(true, update.originalSize, 0);
      } else if decompressedData.Text? {
        payloadInfo := PayloadInfo(true, Some(|decompressedData.s|), 0);
      } else if decompressedData.Object? {
        payloadInfo := PayloadInfo(true, None, 0);
      }
    }

    method HandleRegularPayload(update: Update, phoneNumber: string)
      modifies this
      ensures State() == RegularStep(rt, old(State()), update, phoneNumber)
    {
      if Truthy(update.data) && (DataPhone(update.data) == Some(phoneNumber) || update.phoneNumber == Some(phoneNumber)) {
        UpdateDeviceData(update.data);
        payloadInfo := PayloadInfo(false, Some(|rt.stringify(update.data)|), 0);
      }
    }

    method UpdateDeviceData(v: Payload)
      modifies this
      ensures State() == Updated(old(State()), v)
    {
      deviceData := v;
      searchStatus := ReceivedStatus;
      isSearching := false;
    }
  }
}
