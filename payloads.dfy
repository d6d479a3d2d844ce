/** `LargePayloadService`: the size-based choice between a plain and a compressed
    envelope, the splitting of a long JSON text into numbered chunks, and the
    per-phone topic every one of them is published to. */
module Payloads {
  import opened Common
  import opened Records
  import opened Messaging

  /** JSON longer than this (in UTF-16 units, `String.length()`) is compressed. */
  const CompressThreshold: nat := 100 * 1024

  /** JSON longer than this is split, and this is the length of every chunk but the last. */
  const ChunkSize: nat := 500 * 1024

  /** The library calls the service makes: Jackson's `writeValueAsString`, and
      GZIP followed by Base64 (`compressData`) with its inverse (`decompressData`).
      `None` stands for the exception the call throws. */
  datatype Codec = Codec(
    serialize: Record -> Option<string>,
    compress: string -> Option<string>,
    decompress: string -> Option<string>)

  /** The round trip GZIP and Base64 are meant to give. It is an assumption about
      the libraries, stated here so that lemmas can name it; nothing proves it. */
  ghost predicate RoundTrips(codec: Codec)
  {
    forall s :: codec.compress(s).Some? ==> codec.decompress(codec.compress(s).value) == Some(s)
  }

  /** `"/topic/device-updates/" + phoneNumber` (a null phone number prints as "null"). */
  function PhoneTopic(phone: Option<string>): (t: string)
    ensures t == DeviceUpdatesTopic + "/" + JavaText(phone)
    ensures |DeviceUpdatesTopic| < |t| && t[..|DeviceUpdatesTopic|] == DeviceUpdatesTopic
  {
    "/topic/device-updates/" + JavaText(phone)
  }

  /** `generateSessionId()` given the two values it reads: the clock in
      milliseconds and `(int)(Math.random() * 1000)`. */
  function SessionId(millis: int, roll: int): (id: string)
    ensures |id| > 9 && id[..8] == "session_"
  {
    "session_" + Decimal(millis) + "_" + Decimal(roll)
  }

  /** After the `session_` prefix an id is the clock's digits, `_`, the roll's digits. */
  lemma SessionIdShape(millis: nat, roll: nat)
    ensures SessionId(millis, roll)[8..] == NatDecimal(millis) + ['_'] + NatDecimal(roll)
  {
    var w := NatDecimal(millis) + ['_'] + NatDecimal(roll);
    assert SessionId(millis, roll) == "session_" + w;
    assert ("session_" + w)[8..] == w;
  }

  /** Ids are unique per (clock, roll) pair: different milliseconds or different
      rolls give different session ids. */
  lemma SessionIdInjective(m1: nat, r1: nat, m2: nat, r2: nat)
    requires SessionId(m1, r1) == SessionId(m2, r2)
    ensures m1 == m2 && r1 == r2
  {
    SessionIdShape(m1, r1);
    SessionIdShape(m2, r2);
    DigitsThenSeparator(NatDecimal(m1), NatDecimal(r1), NatDecimal(m2), NatDecimal(r2), '_');
    NatDecimalInjective(m1, m2);
    NatDecimalInjective(r1, r2);
  }

  // ---------------------------------------------------------------------------
  // The plain / compressed choice (sendLargePayload)

  /** What `sendLargePayload(phone, r)` publishes: nothing when serialization or
      compression throws (the exception is caught), else one envelope. */
  function LargePayloadPublications(codec: Codec, phone: Option<string>, r: Record): (ps: seq<Publication>)
    ensures |ps| <= 1
    ensures forall i | 0 <= i < |ps| :: ps[i].topic == PhoneTopic(phone)
    ensures ps != [] ==> codec.serialize(r).Some?
  {
    match codec.serialize(r)
    case None => []
    case Some(json) =>
      if |json| > CompressThreshold then
        match codec.compress(json)
        case None => []
        case Some(z) => [Publication(PhoneTopic(phone), Compressed(z, |json|, |z|))]
      else
        [Publication(PhoneTopic(phone), Plain(r))]
  }

  /** The full policy: at most one envelope, always on the phone's topic; a plain
      one exactly when the JSON is at most the threshold, and it carries the record
      itself; a compressed one exactly when the JSON is longer and compression
      succeeds, carrying the compressed text and both lengths. */
  lemma LargePayloadPolicy(codec: Codec, phone: Option<string>, r: Record)
    ensures var ps := LargePayloadPublications(codec, phone, r);
      && |ps| <= 1
      && (forall p | p in ps :: p.topic == PhoneTopic(phone))
      && (codec.serialize(r).None? ==> ps == [])
      && (codec.serialize(r).Some? ==>
            var json := codec.serialize(r).value;
            && (|json| <= CompressThreshold <==> (ps != [] && ps[0].message.Plain?))
            && (ps != [] && ps[0].message.Plain? ==> ps[0].message.data == r)
            && (|json| > CompressThreshold && codec.compress(json).Some? <==> (ps != [] && ps[0].message.Compressed?))
            && (ps != [] && ps[0].message.Compressed? ==>
                  && ps[0].message.text == codec.compress(json).value
                  && ps[0].message.originalSize == |json|
                  && ps[0].message.compressedSize == |ps[0].message.text|)
            && (ps == [] <==> |json| > CompressThreshold && codec.compress(json).None?))
  {
  }

  /** The threshold is exclusive: 100*1024 units go out plain, one more is compressed. */
  lemma CompressionBoundary(codec: Codec, phone: Option<string>, r: Record, json: string)
    requires codec.serialize(r) == Some(json)
    ensures |json| == CompressThreshold ==>
      LargePayloadPublications(codec, phone, r) == [Publication(PhoneTopic(phone), Plain(r))]
    ensures |json| == CompressThreshold + 1 && codec.compress(json).Some? ==>
      var z := codec.compress(json).value;
      LargePayloadPublications(codec, phone, r)
        == [Publication(PhoneTopic(phone), Compressed(z, CompressThreshold + 1, |z|))]
  {
  }

  /** Under the round-trip assumption, a receiver that decompresses a compressed
      envelope gets back exactly the JSON that was measured. */
  lemma CompressedEnvelopeDecompresses(codec: Codec, phone: Option<string>, r: Record)
    requires RoundTrips(codec)
    requires var ps := LargePayloadPublications(codec, phone, r); ps != [] && ps[0].message.Compressed?
    ensures codec.serialize(r).Some?
    ensures codec.decompress(LargePayloadPublications(codec, phone, r)[0].message.text) == codec.serialize(r)
  {
    var json := codec.serialize(r).value;
    assert codec.compress(json).Some?;
  }

  // ---------------------------------------------------------------------------
  // Chunk arithmetic (sendChunkedPayload)

  /** `(int) Math.ceil((double) len / c)`. For a Java string length the quotient
      is exact enough in a double that this is the integer ceiling. */
  function TotalChunks(len: nat, c: nat): (n: nat)
    requires 0 < c
    ensures len <= n * c
    ensures 0 < n ==> (n - 1) * c < len
    ensures n == 0 <==> len == 0
  {
    var n := (len + c - 1) / c;
    assert len + c - 1 == n * c + (len + c - 1) % c;
    assert (n - 1) * c == n * c - c;
    n
  }

  lemma MulMonotone(a: nat, b: nat, c: nat)
    requires a <= b
    ensures a * c <= b * c
  {
    assert b * c == a * c + (b - a) * c;
  }

  /** A chunk's start lies inside the text, and there are at most as many chunks as units. */
  lemma ChunkStartInside(len: nat, c: nat, i: nat)
    requires 0 < c && i < TotalChunks(len, c)
    ensures i * c < len
    ensures TotalChunks(len, c) <= len
  {
    var n := TotalChunks(len, c);
    MulMonotone(i, n - 1, c);
    MulMonotone(1, c, n - 1);
  }

  /** `Math.min(start + chunkSize, jsonData.length())` evaluated without overflow:
      the end the loop evidently intends. */
  function ChunkEnd(i: nat, c: nat, len: nat): (end: int)
    requires 0 < c && i < TotalChunks(len, c)
    ensures i * c < end <= len
    ensures end - i * c <= c
    ensures end < len ==> end - i * c == c
  {
    ChunkStartInside(len, c, i);
    Min(i * c + c, len)
  }

  /** The pieces the loop cuts: piece `i` is `s[i*c .. min(i*c + c, |s|)]`. */
  function Pieces(s: string, c: nat): (ps: seq<string>)
    requires 0 < c
    ensures |ps| == TotalChunks(|s|, c)
  {
    var n := TotalChunks(|s|, c);
    seq(n, i requires 0 <= i < n => (ChunkStartInside(|s|, c, i); s[i * c .. ChunkEnd(i, c, |s|)]))
  }

  /** Every piece is non-empty and at most `c` long, every piece but the last is
      exactly `c` long, and piece `i` starts at offset `i * c`. */
  lemma PieceShape(s: string, c: nat, i: nat)
    requires 0 < c && i < TotalChunks(|s|, c)
    ensures var p := Pieces(s, c)[i];
      && 0 < |p| <= c
      && (i + 1 < TotalChunks(|s|, c) ==> |p| == c)
      && i * c + |p| <= |s|
      && p == s[i * c .. i * c + |p|]
  {
    var n := TotalChunks(|s|, c);
    if i + 1 < n {
      ChunkStartInside(|s|, c, i + 1);
      assert (i + 1) * c == i * c + c;
    }
  }

  lemma MulSucc(k: nat, c: nat)
    requires 0 < k
    ensures (k - 1) * c + c == k * c
  {
  }

  /** The first `k` pieces, written one after the other, are the first `k * c`
      units of the text (or all of it). */
  lemma {:induction false} PiecesPrefix(s: string, c: nat, k: nat)
    requires 0 < c && k <= TotalChunks(|s|, c)
    ensures Join(Pieces(s, c)[..k]) == s[..Min(k * c, |s|)]
  {
    var ps := Pieces(s, c);
    if k == 0 {
      assert ps[..0] == [];
    } else {
      var start := (k - 1) * c;
      MulSucc(k, c);
      ChunkStartInside(|s|, c, k - 1);
      PiecesPrefix(s, c, k - 1);
      var end := ChunkEnd(k - 1, c, |s|);
      assert end == Min(k * c, |s|);
      assert ps[k - 1] == s[start..end];
      assert ps[..k] == ps[..k - 1] + [ps[k - 1]];
      JoinAppend(ps[..k - 1], ps[k - 1]);
      assert s[..start] + s[start..end] == s[..end];
    }
  }

  /** Splitting loses and reorders nothing: the pieces in index order are the text. */
  lemma PiecesRebuild(s: string, c: nat)
    requires 0 < c
    ensures Join(Pieces(s, c)) == s
  {
    var n := TotalChunks(|s|, c);
    PiecesPrefix(s, c, n);
    assert Pieces(s, c)[..n] == Pieces(s, c);
  }

  /** The envelopes of one chunked transmission, in the order they are published. */
  function ChunkEnvelopes(topic: string, sessionId: string, json: string): (es: seq<Publication>)
    ensures |es| == TotalChunks(|json|, ChunkSize)
    ensures forall i | 0 <= i < |es| ::
      && es[i].topic == topic && es[i].message.Chunk?
      && es[i].message.sessionId == sessionId
      && es[i].message.chunkIndex == i && es[i].message.totalChunks == |es|
  {
    var ps := Pieces(json, ChunkSize);
    seq(|ps|, i requires 0 <= i < |ps| => Publication(topic, Chunk(sessionId, i, |ps|, ps[i])))
  }

  /** What `sendChunkedPayload(phone, r)` publishes when the clock and the random
      roll give `sessionId`: chunks when the JSON is longer than the chunk size,
      otherwise whatever `sendLargePayload` publishes. */
  function ChunkedPublications(codec: Codec, phone: Option<string>, r: Record, sessionId: string): (ps: seq<Publication>)
    ensures forall i | 0 <= i < |ps| :: ps[i].topic == PhoneTopic(phone)
    ensures codec.serialize(r).None? ==> ps == []
    ensures (exists i | 0 <= i < |ps| :: ps[i].message.Chunk?) ==> |codec.serialize(r).value| > ChunkSize
  {
    match codec.serialize(r)
    case None => []
    case Some(json) =>
      if |json| > ChunkSize then ChunkEnvelopes(PhoneTopic(phone), sessionId, json)
      else LargePayloadPublications(codec, phone, r)
  }

  /** A chunked transmission: ceil(|json| / c) envelopes, at least two, all on the
      phone's topic under one session id, numbered 0, 1, ... in publishing order,
      each announcing the same total, and whose pieces rebuild the JSON. */
  lemma ChunkedTransmission(codec: Codec, phone: Option<string>, r: Record, sessionId: string)
    requires codec.serialize(r).Some? && |codec.serialize(r).value| > ChunkSize
    ensures var json := codec.serialize(r).value;
      var es := ChunkedPublications(codec, phone, r, sessionId);
      && |es| == TotalChunks(|json|, ChunkSize)
      && 2 <= |es|
      && (forall i :: 0 <= i < |es| ==>
            && es[i].topic == PhoneTopic(phone)
            && es[i].message.Chunk?
            && es[i].message.sessionId == sessionId
            && es[i].message.chunkIndex == i
            && es[i].message.totalChunks == |es|
            && 0 < |es[i].message.piece| <= ChunkSize)
      && Join(seq(|es|, i requires 0 <= i < |es| => es[i].message.piece)) == json
  {
    var json := codec.serialize(r).value;
    var es := ChunkedPublications(codec, phone, r, sessionId);
    var ps := Pieces(json, ChunkSize);
    forall i | 0 <= i < |es| ensures 0 < |es[i].message.piece| <= ChunkSize {
      PieceShape(json, ChunkSize, i);
    }
    assert seq(|es|, i requires 0 <= i < |es| => es[i].message.piece) == ps;
    PiecesRebuild(json, ChunkSize);
  }

  /** At or below the chunk size nothing is chunked: the call is `sendLargePayload`. */
  lemma ShortJsonIsNotChunked(codec: Codec, phone: Option<string>, r: Record, sessionId: string)
    requires codec.serialize(r).Some? && |codec.serialize(r).value| <= ChunkSize
    ensures ChunkedPublications(codec, phone, r, sessionId) == LargePayloadPublications(codec, phone, r)
    ensures forall p | p in ChunkedPublications(codec, phone, r, sessionId) :: !p.message.Chunk?
  {
  }

  // ---------------------------------------------------------------------------
  // The loop's `end` as written, in Java `int` arithmetic

  /** Java `int` arithmetic: two's-complement wrap-around. */
  function WrapInt32(x: int): int
  {
    (x + 0x8000_0000) % 0x1_0000_0000 - 0x8000_0000
  }

  /** `Math.min(start + chunkSize, jsonData.length())` as the loop computes it:
      `start + chunkSize` is an `int` sum and wraps. */
  function ChunkEndAsWritten(i: nat, c: nat, len: nat): (e: int)
    ensures -0x8000_0000 <= e <= len
  {
    Min(WrapInt32(i * c + c), len)
  }

  /** Below the overflow the loop's `end` is the intended one. */
  lemma ChunkEndAsWrittenAgrees(i: nat, c: nat, len: nat)
    requires 0 < c && i < TotalChunks(len, c)
    requires i * c + c < 0x8000_0000
    ensures ChunkEndAsWritten(i, c, len) == ChunkEnd(i, c, len)
  {
  }

  /** A JSON text of 2147400000 units (a legal Java string length) needs 4195
      chunks; for the last one `start + chunkSize` wraps to a negative `end`, so
      `substring(start, end)` throws and that chunk is never published. */
  lemma ChunkEndOverflows()
    ensures var len := 2147400000;
      && len <= MaxStringLength
      && TotalChunks(len, ChunkSize) == 4195
      && ChunkEndAsWritten(4194, ChunkSize, len) < 0
      && ChunkEnd(4194, ChunkSize, len) == len
  {
  }

  // ---------------------------------------------------------------------------
  // The service

  class LargePayloadService {
    const broker: Broker
    const codec: Codec

    constructor (broker: Broker, codec: Codec)
      ensures this.broker == broker && this.codec == codec
    {
      this.broker := broker;
      this.codec := codec;
    }

    method SendToPhoneSpecificTopic(phone: Option<string>, message: Message)
      modifies broker
      ensures broker.sent == old(broker.sent) + [Publication(PhoneTopic(phone), message)]
    {
      var topic := "/topic/device-updates/" + JavaText(phone);
      broker.ConvertAndSend(topic, message);
    }

    method SendLargePayload(phone: Option<string>, deviceData: DeviceData)
      modifies broker
      ensures broker.sent == old(broker.sent) + LargePayloadPublications(codec, phone, deviceData.Snapshot())
    {
      var jsonData := codec.serialize(deviceData.Snapshot());
      if jsonData.None? {
        return;  // the serialization exception is caught and logged
      }
      var json := jsonData.value;
      if |json| > CompressThreshold {
        var compressedData := codec.compress(json);
        if compressedData.None? {
          return;  // the compression exception is caught and logged
        }
        var z := compressedData.value;
        SendToPhoneSpecificTopic(phone, Compressed(z, |json|, |z|));
      } else {
        SendToPhoneSpecificTopic(phone, Plain(deviceData.Snapshot()));
      }
    }

    /** `sendChunkedPayload`; `millis` and `roll` are what `generateSessionId` reads. */
    method SendChunkedPayload(phone: Option<string>, deviceData: DeviceData, millis: int, roll: int)
      requires 0 <= roll < 1000
      modifies broker
      ensures broker.sent == old(broker.sent)
        + ChunkedPublications(codec, phone, deviceData.Snapshot(), SessionId(millis, roll))
    {
      var jsonData := codec.serialize(deviceData.Snapshot());
      if jsonData.None? {
        return;  // the serialization exception is caught and logged
      }
      var json := jsonData.value;
      if |json| > ChunkSize {
        var sessionId := SessionId(millis, roll);
        PublishChunks(phone, sessionId, json);
      } else {
        SendLargePayload(phone, deviceData);
      }
    }

    /** The loop of `sendChunkedPayload`: chunk `i` is cut at `[i * chunkSize, end)`
        and published before chunk `i + 1`. */
    method PublishChunks(phone: Option<string>, sessionId: string, json: string)
      modifies broker
      ensures broker.sent == old(broker.sent) + ChunkEnvelopes(PhoneTopic(phone), sessionId, json)
    {
      var totalChunks := TotalChunks(|json|, ChunkSize);
      ghost var envelopes := ChunkEnvelopes(PhoneTopic(phone), sessionId, json);
      var i := 0;
      while i < totalChunks
        invariant 0 <= i <= totalChunks
        invariant broker.sent == old(broker.sent) + envelopes[..i]
      {
        var start := i * ChunkSize;
        var end := ChunkEnd(i, ChunkSize, |json|);
        var chunk := json[start..end];
        assert envelopes[i] == Publication(PhoneTopic(phone), Chunk(sessionId, i, totalChunks, chunk));
        SendToPhoneSpecificTopic(phone, Chunk(sessionId, i, totalChunks, chunk));
        assert envelopes[..i + 1] == envelopes[..i] + [envelopes[i]];
        i := i + 1;
      }
      assert envelopes[..totalChunks] == envelopes;
    }
  }
}
