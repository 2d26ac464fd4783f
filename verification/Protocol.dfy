/** The data exchanged on a data channel: tuple buffers, the two wire alphabets and the
    messages a producer puts in a channel's control queue. */
module Protocol {
  newtype Byte = x: int | 0 <= x < 256

  /** (sequence number, chunk number): the key under which a buffer is acknowledged. */
  type Sequence = (nat, nat)

  datatype TupleBuffer = TupleBuffer(
    sequenceNumber: nat, originId: nat, watermark: nat, chunkNumber: nat, numberOfTuples: nat,
    lastChunk: bool, data: seq<Byte>, childBuffers: seq<seq<Byte>>)
  {
    function Sequence(): Sequence { (sequenceNumber, chunkNumber) }
  }

  datatype DataChannelRequest = Data(buffer: TupleBuffer) | Close

  datatype DataChannelResponse = AckData(ack: Sequence) | NAckData(nack: Sequence) | CloseResponse

  /** `Flush` carries the identity of the one-shot channel completed when the flush is done. */
  datatype ControlMessage = DataMessage(buffer: TupleBuffer) | Flush(done: nat) | Terminate

  datatype Option<+T> = None | Some(value: T)

  /** Most buffers a sender awaits acknowledgements for. */
  const MAX_PENDING_ACKS: nat := 64

  /** Room in the queue between a receiver and its application, and in a channel's control queue. */
  const DATA_QUEUE_CAPACITY: nat := 10
  const CONTROL_QUEUE_CAPACITY: nat := 100
}
