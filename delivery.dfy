/** How the backend's publications meet the client: chunks fed to the client's
    reassembly in any order rebuild the serialised record, and the client's
    subscription never lets a backend notification through. */
module Delivery {
  import opened Common
  import opened Records
  import opened Messaging
  import opened Payloads
  import opened Devices
  import opened Frontend

  /** The client handing each update, in turn, to `handleLargePayload`. */
  function Deliver(rt: Runtime, s: ClientState, us: seq<Update>, phone: string): ClientState
  {
    if us == [] then s
    else LargePayloadStep(rt, Deliver(rt, s, us[..|us| - 1], phone), us[|us| - 1], phone)
  }

  /** `order` lists every index below `n` exactly once. */
  ghost predicate IsOrdering(order: seq<int>, n: nat)
  {
    && |order| == n
    && (forall k | 0 <= k < n :: 0 <= order[k] < n)
    && (forall k, l | 0 <= k < l < n :: order[k] != order[l])
    && (forall j | 0 <= j < n :: j in order)
  }

  /** The updates the client parses from the publications, taken in the given order. */
  function Arrivals(es: seq<Publication>, order: seq<int>): (us: seq<Update>)
    requires forall k | 0 <= k < |order| :: 0 <= order[k] < |es|
    ensures |us| == |order|
  {
    seq(|order|, k requires 0 <= k < |order| => Receive(es[order[k]].message))
  }

  /** A session's slots once the chunks whose indices are listed in `got` arrived. */
  function Received(ps: seq<string>, got: seq<int>): (slots: seq<Payload>)
    ensures |slots| == |ps|
  {
    seq(|ps|, j requires 0 <= j < |ps| => if j in got then Text(ps[j]) else Missing)
  }

  /** One more arrival: the slot of a chunk not yet received is written, and the
      received count goes up by one. */
  lemma ReceiveOne(ps: seq<string>, got: seq<int>, i: int)
    requires 0 <= i < |ps| < MaxArrayLength && i !in got
    ensures WriteSlot(Received(ps, got), i, Text(ps[i])) == Received(ps, got + [i])
    ensures CountFilled(Received(ps, got + [i])) == CountFilled(Received(ps, got)) + 1
  {
    var before := Received(ps, got);
    var after := WriteSlot(before, i, Text(ps[i]));
    assert |after| == |ps|;
    forall j | 0 <= j < |ps| ensures after[j] == Received(ps, got + [i])[j] {
      assert (j in got + [i]) <==> (j in got || j == i);
    }
    CountFilledWrite(before, i, Text(ps[i]));
  }

  /** Delivering one more update is one more `handleLargePayload` step. */
  lemma DeliverStep(rt: Runtime, s: ClientState, us: seq<Update>, phone: string, k: nat)
    requires 0 < k <= |us|
    ensures Deliver(rt, s, us[..k], phone) == LargePayloadStep(rt, Deliver(rt, s, us[..k - 1], phone), us[k - 1], phone)
  {
    assert us[..k][..k - 1] == us[..k - 1];
  }

  /** The update the client parses from chunk `i` of a transmission of `ps`. */
  function ChunkUpdate(sid: string, ps: seq<string>, i: nat): Update
    requires i < |ps|
  {
    Update(true, false, None, Text(ps[i]), sid, i, |ps|, None)
  }

  /** The arrivals of a transmission's envelopes are its chunk updates, by index. */
  lemma ArrivalsAreChunks(topic: string, sid: string, json: string, order: seq<int>)
    requires IsOrdering(order, |ChunkEnvelopes(topic, sid, json)|)
    ensures var ps := Pieces(json, ChunkSize);
      var us := Arrivals(ChunkEnvelopes(topic, sid, json), order);
      forall m | 0 <= m < |us| :: 0 <= order[m] < |ps| && us[m] == ChunkUpdate(sid, ps, order[m])
  {
  }

  /** An index listed once is not among the ones listed before it. */
  lemma NotYetArrived(order: seq<int>, n: nat, k: nat)
    requires IsOrdering(order, n) && k < n
    ensures order[k] !in order[..k]
    ensures order[..k + 1] == order[..k] + [order[k]]
  {
  }

  /** One chunk of a transmission whose session held the pieces listed in `got` (or
      was not yet buffered, when `got` is empty): the chunk lands in its own slot and
      the count goes up by one; while pieces are still missing, the buffer keeps the
      new slots and the status and `payloadInfo.chunks` report the count. */
  lemma ChunkArrival(rt: Runtime, prev: ClientState, base: map<string, seq<Payload>>, sid: string,
                     ps: seq<string>, got: seq<int>, i: int, phone: string)
    requires 0 <= i < |ps| < MaxArrayLength && i !in got && sid !in base
    requires got != [] ==> CountFilled(Received(ps, got)) == |got|
    requires prev.chunkBuffer == if got == [] then base else base[sid := Received(ps, got)]
    ensures var u := ChunkUpdate(sid, ps, i);
      var t := LargePayloadStep(rt, prev, u, phone);
      var slots := Received(ps, got + [i]);
      && ChunkSlots(prev, u) == Some(slots)
      && CountFilled(slots) == |got| + 1
      && (|got| + 1 != |ps| ==>
            && t.chunkBuffer == base[sid := slots]
            && t.searchStatus == Status(|got| + 1, |ps|)
            && t.payloadInfo.chunks == |got| + 1)
  {
    ReceiveOne(ps, got, i);
    if got == [] {
      CountFilledHoles(|ps|);
      assert Received(ps, got) == Holes(|ps|);
    }
  }

  /** While chunks are still missing, after the first `k` arrivals of a
      transmission of the pieces `ps` the session holds exactly the `k` pieces
      received so far, each in its own slot, the status and `payloadInfo.chunks`
      report `k` of the total, and no other session is touched. */
  lemma {:induction false} ArrivalPrefix(rt: Runtime, s: ClientState, sid: string, ps: seq<string>,
                                         us: seq<Update>, order: seq<int>, phone: string, k: nat)
    requires 0 < |ps| < MaxArrayLength && sid !in s.chunkBuffer
    requires IsOrdering(order, |ps|) && |us| == |ps|
    requires forall m | 0 <= m < |us| :: us[m] == ChunkUpdate(sid, ps, order[m])
    requires k < |ps|
    ensures var t := Deliver(rt, s, us[..k], phone);
      && (k == 0 ==> t == s)
      && (0 < k ==>
            && t.chunkBuffer == s.chunkBuffer[sid := Received(ps, order[..k])]
            && CountFilled(Received(ps, order[..k])) == k
            && t.searchStatus == Status(k, |ps|)
            && t.payloadInfo.chunks == k)
  {
    if k == 0 {
      assert us[..k] == [];
    } else {
      ArrivalPrefix(rt, s, sid, ps, us, order, phone, k - 1);
      DeliverStep(rt, s, us, phone, k);
      NotYetArrived(order, |ps|, k - 1);
      ChunkArrival(rt, Deliver(rt, s, us[..k - 1], phone), s.chunkBuffer, sid, ps, order[..k - 1], order[k - 1], phone);
    }
  }

  /** Once every index is listed, the slots hold every piece. */
  lemma AllArrived(ps: seq<string>, order: seq<int>)
    requires IsOrdering(order, |ps|)
    ensures Received(ps, order) == seq(|ps|, j requires 0 <= j < |ps| => Text(ps[j]))
    ensures JoinSlots(Received(ps, order)) == Join(ps)
  {
    var full := seq(|ps|, j requires 0 <= j < |ps| => Text(ps[j]));
    forall j | 0 <= j < |ps| ensures Received(ps, order)[j] == full[j] {
      assert j in order;
    }
    assert Received(ps, order) == full;
    assert seq(|ps|, j requires 0 <= j < |ps| => SlotText(full[j])) == ps;
  }

  /** Any-order reassembly of the pieces `ps`: once every chunk has arrived, each
      exactly once and in any order, the session's slots hold the pieces in index
      order and join to their concatenation. If the client's parser accepts that,
      the parsed value is shown, the joined length and the total are recorded and
      the session is gone; if not, the complete slots stay buffered. */
  lemma {:induction false} ReassemblyInAnyOrder(rt: Runtime, s: ClientState, sid: string, ps: seq<string>,
                                                us: seq<Update>, order: seq<int>, phone: string)
    requires 0 < |ps| < MaxArrayLength && sid !in s.chunkBuffer
    requires IsOrdering(order, |ps|) && |us| == |ps|
    requires forall m | 0 <= m < |us| :: us[m] == ChunkUpdate(sid, ps, order[m])
    ensures var full := seq(|ps|, j requires 0 <= j < |ps| => Text(ps[j]));
      var t := Deliver(rt, s, us, phone);
      && JoinSlots(full) == Join(ps)
      && match rt.parse(Join(ps))
         case Some(v) =>
           && t.deviceData == v
           && t.payloadInfo == PayloadInfo(false, Some(|Join(ps)|), |ps|)
           && t.chunkBuffer == s.chunkBuffer - {sid}
         case None =>
           t.chunkBuffer == s.chunkBuffer[sid := full]
  {
    var n := |ps|;
    BeforeLastArrival(rt, s, sid, ps, us, order, phone);
    NotYetArrived(order, n, n - 1);
    DeliverStep(rt, s, us, phone, n);
    assert us[..n] == us;
    LastCompletes(ps, order);
    LastArrival(rt, Deliver(rt, s, us[..n - 1], phone), s.chunkBuffer, sid, ps, order[..n - 1], order[n - 1], phone);
  }

  /** The buffer a transmission has when only its last arrival is still to come. */
  lemma BeforeLastArrival(rt: Runtime, s: ClientState, sid: string, ps: seq<string>,
                          us: seq<Update>, order: seq<int>, phone: string)
    requires 0 < |ps| < MaxArrayLength && sid !in s.chunkBuffer
    requires IsOrdering(order, |ps|) && |us| == |ps|
    requires forall m | 0 <= m < |us| :: us[m] == ChunkUpdate(sid, ps, order[m])
    ensures var n := |ps|;
      var got := order[..n - 1];
      var prev := Deliver(rt, s, us[..n - 1], phone);
      && (got != [] ==> CountFilled(Received(ps, got)) == |got|)
      && prev.chunkBuffer == (if got == [] then s.chunkBuffer else s.chunkBuffer[sid := Received(ps, got)])
  {
    var n := |ps|;
    var got := order[..n - 1];
    ArrivalPrefix(rt, s, sid, ps, us, order, phone, n - 1);
    if n == 1 {
      assert got == [];
    } else {
      assert |got| == n - 1 && got != [];
    }
  }

  /** The last arrival completes the set: the earlier arrivals plus it list every
      index, so the slots then hold every piece in index order. */
  lemma LastCompletes(ps: seq<string>, order: seq<int>)
    requires 0 < |ps| && IsOrdering(order, |ps|)
    ensures var n := |ps|;
      var got, i := order[..n - 1], order[n - 1];
      && Received(ps, got + [i]) == seq(n, j requires 0 <= j < n => Text(ps[j]))
      && JoinSlots(Received(ps, got + [i])) == Join(ps)
  {
    var n := |ps|;
    NotYetArrived(order, n, n - 1);
    assert order[..n] == order;
    AllArrived(ps, order);
  }

  /** The chunk that completes a transmission: the slots then hold every piece in
      index order, and the parse outcome decides between showing the result and
      dropping the session, or keeping the complete slots. */
  lemma LastArrival(rt: Runtime, prev: ClientState, base: map<string, seq<Payload>>, sid: string,
                    ps: seq<string>, got: seq<int>, i: int, phone: string)
    requires 0 <= i < |ps| < MaxArrayLength && i !in got && sid !in base && |got| + 1 == |ps|
    requires got != [] ==> CountFilled(Received(ps, got)) == |got|
    requires prev.chunkBuffer == if got == [] then base else base[sid := Received(ps, got)]
    requires Received(ps, got + [i]) == seq(|ps|, j requires 0 <= j < |ps| => Text(ps[j]))
    requires JoinSlots(Received(ps, got + [i])) == Join(ps)
    ensures var full := seq(|ps|, j requires 0 <= j < |ps| => Text(ps[j]));
      var t := LargePayloadStep(rt, prev, ChunkUpdate(sid, ps, i), phone);
      match rt.parse(Join(ps))
      case Some(v) =>
        && t.deviceData == v
        && t.payloadInfo == PayloadInfo(false, Some(|Join(ps)|), |ps|)
        && t.chunkBuffer == base - {sid}
      case None =>
        t.chunkBuffer == base[sid := full]
  {
    ChunkArrival(rt, prev, base, sid, ps, got, i, phone);
    CompletionOutcome(rt, prev, ChunkUpdate(sid, ps, i), Received(ps, got + [i]));
    if got != [] {
      UpdateThenRemove(base, sid, Received(ps, got));
    }
  }

  /** Removing a key undoes an update of it. */
  lemma UpdateThenRemove(m: map<string, seq<Payload>>, key: string, v: seq<Payload>)
    ensures m[key := v] - {key} == m - {key}
  {
  }

  /** The headline property for `sendChunkedPayload`: whatever order the broker
      delivers its chunks in, the client's reassembly rebuilds exactly the JSON the
      backend serialised. */
  lemma ChunkedPayloadRoundTrip(codec: Codec, phone: Option<string>, r: Record, sid: string,
                                rt: Runtime, s: ClientState, order: seq<int>, subscribed: string)
    requires codec.serialize(r).Some?
    requires ChunkSize < |codec.serialize(r).value| <= MaxStringLength
    requires sid !in s.chunkBuffer
    requires IsOrdering(order, |ChunkedPublications(codec, phone, r, sid)|)
    ensures var json := codec.serialize(r).value;
      var t := Deliver(rt, s, Arrivals(ChunkedPublications(codec, phone, r, sid), order), subscribed);
      && (rt.parse(json).Some? ==>
            && t.deviceData == rt.parse(json).value
            && t.payloadInfo == PayloadInfo(false, Some(|json|), TotalChunks(|json|, ChunkSize))
            && t.chunkBuffer == s.chunkBuffer - {sid})
      && (rt.parse(json).None? ==>
            && sid in t.chunkBuffer
            && JoinSlots(t.chunkBuffer[sid]) == json)
  {
    var json := codec.serialize(r).value;
    var ps := Pieces(json, ChunkSize);
    var es := ChunkEnvelopes(PhoneTopic(phone), sid, json);
    ChunkStartInside(|json|, ChunkSize, 0);
    ArrivalsAreChunks(PhoneTopic(phone), sid, json, order);
    ReassemblyInAnyOrder(rt, s, sid, ps, Arrivals(es, order), order, subscribed);
    PiecesRebuild(json, ChunkSize);
    AllArrived(ps, order);
  }

  /** The client subscribes to the general topic only, and nothing `notifyFrontend`
      publishes there passes its filter: a record with a phone number is published
      on that phone's own topic, and the one without a phone number that reaches the
      general topic matches no subscribed phone. */
  lemma NotificationsNeverReachClient(codec: Codec, r: Record, rt: Runtime, s: ClientState, phone: string)
    ensures forall p | p in Notification(codec, r) ::
      p.topic != DeviceUpdatesTopic || MessageStep(rt, s, Receive(p.message), phone) == s
  {
    NotificationRouting(codec, r);
  }

  /** The change-stream listener publishes `{deviceId, data}` on the general topic
      for each record the repository saves or loads. That message reaches the client
      exactly when the record carries the subscribed phone number, and then the
      regular path shows the record (without its document id) and leaves the chunk
      buffer alone. */
  lemma ListenerUpdateReachesClient(rt: Runtime, s: ClientState, r: Record, phone: string)
    ensures var t := MessageStep(rt, s, Receive(General(r.deviceId, r)), phone);
      && (r.phoneNumber == Some(phone) ==>
            && t.deviceData == Object(r.(id := None))
            && t.searchStatus == ReceivedStatus && !t.isSearching
            && t.payloadInfo.size.Some? && !t.payloadInfo.compressed
            && t.chunkBuffer == s.chunkBuffer)
      && (r.phoneNumber != Some(phone) ==> t == s)
  {
  }

  /** Everything `sendChunkedPayload` publishes goes to the phone's own topic, never
      to the one the client listens on, and its chunk and compressed envelopes would
      fail the filter even there. */
  lemma ChunksNeverReachClient(codec: Codec, phone: Option<string>, r: Record, sid: string,
                               rt: Runtime, s: ClientState, subscribed: string)
    ensures forall p | p in ChunkedPublications(codec, phone, r, sid) ::
      && p.topic == PhoneTopic(phone) && p.topic != DeviceUpdatesTopic
      && ((p.message.Chunk? || p.message.Compressed?) ==> MessageStep(rt, s, Receive(p.message), subscribed) == s)
  {
    LargePayloadPolicy(codec, phone, r);
    forall p | p in ChunkedPublications(codec, phone, r, sid)
      ensures p.topic == PhoneTopic(phone)
    {
      if codec.serialize(r).Some? && |codec.serialize(r).value| > ChunkSize {
        var es := ChunkEnvelopes(PhoneTopic(phone), sid, codec.serialize(r).value);
        var k :| 0 <= k < |es| && es[k] == p;
      }
    }
  }
}
