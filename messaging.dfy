/** The envelopes the backend hands to the broker (`SimpMessagingTemplate.convertAndSend`)
    and the broker itself, modelled as an append-only outbox of (topic, envelope) pairs. */
module Messaging {
  import opened Common
  import opened Records

  /** The general topic every frontend subscribes to. */
  const DeviceUpdatesTopic: string := "/topic/device-updates"

  /** The maps the backend publishes, one variant per shape. The `timestamp` entry
      every shape carries is not modelled. */
  datatype Message =
    /** `{compressed: false, data: <record>}` */
    | Plain(data: Record)
    /** `{compressed: true, data: <base64 gzip of the JSON>, originalSize, compressedSize}` */
    | Compressed(text: string, originalSize: int, compressedSize: int)
    /** `{chunked: true, sessionId, chunkIndex, totalChunks, data: <piece of the JSON>}` */
    | Chunk(sessionId: string, chunkIndex: int, totalChunks: int, piece: string)
    /** `{deviceId, data: <record>}`, the general-topic update */
    | General(deviceId: Option<string>, data: Record)

  datatype Publication = Publication(topic: string, message: Message)

  /** The message broker. Every `convertAndSend` is recorded, in call order. */
  class Broker {
    var sent: seq<Publication>

    constructor ()
      ensures sent == []
    {
      sent := [];
    }

    method ConvertAndSend(topic: string, message: Message)
      modifies this
      ensures sent == old(sent) + [Publication(topic, message)]
    {
      sent := sent + [Publication(topic, message)];
    }
  }
}
