/** The serial port a device talks through, seen from the adapter: the framework's
    purge / write / read-until-terminator calls and the port device's properties.

    The wire itself is an oracle fixed when the channel is made: the status of the
    k-th write is `writeStatusAt(k)` and the k-th read returns `replyAt(k)`, an
    answer with its terminator already stripped. Everything the adapter sends is
    recorded in `trace`, in order. */
module Serial {

  datatype Reply = Reply(status: int, text: string)

  datatype Event = Purged | Sent(data: string)

  // Property names of a serial port device.
  const AnswerTimeoutKey: string := "AnswerTimeout"
  const HandshakingKey: string := "Handshaking"
  const BaudRateKey: string := "BaudRate"
  const StopBitsKey: string := "StopBits"
  const DelayBetweenCharsKey: string := "DelayBetweenCharsMs"
  const VerboseKey: string := "Verbose"

  /** The carriage return that terminates every text command. */
  const CR: string := "\r"

  class Channel {
    const writeStatusAt: nat -> int
    const replyAt: nat -> Reply
    var writeCount: nat
    var readCount: nat
    var trace: seq<Event>
    var props: map<string, string>

    /** A serial port device always carries an answer time-out. */
    predicate IsSerialPort()
      reads this
    {
      AnswerTimeoutKey in props
    }

    /** The status the next write will report. */
    function NextWriteStatus(): int
      reads this`writeCount
    {
      writeStatusAt(writeCount)
    }

    /** The answer the next read will return. */
    function NextReply(): Reply
      reads this`readCount
    {
      replyAt(readCount)
    }

    constructor (writeStatusAt: nat -> int, replyAt: nat -> Reply, props: map<string, string>)
      ensures this.writeStatusAt == writeStatusAt && this.replyAt == replyAt
      ensures this.props == props
      ensures writeCount == 0 && readCount == 0 && trace == []
    {
      this.writeStatusAt := writeStatusAt;
      this.replyAt := replyAt;
      this.props := props;
      writeCount, readCount, trace := 0, 0, [];
    }

    /** `PurgeComPort`: drops stale input; its status is never inspected by the adapter. */
    method PurgeComPort()
      modifies this
      ensures trace == old(trace) + [Purged]
      ensures writeCount == old(writeCount) && readCount == old(readCount) && props == old(props)
    {
      trace := trace + [Purged];
    }

    /** `WriteToComPort` / `SendSerialCommand`: sends `data` and reports the transport status. */
    method Write(data: string) returns (ret: int)
      modifies this
      ensures ret == writeStatusAt(old(writeCount))
      ensures trace == old(trace) + [Sent(data)]
      ensures writeCount == old(writeCount) + 1 && readCount == old(readCount) && props == old(props)
    {
      ret := writeStatusAt(writeCount);
      trace := trace + [Sent(data)];
      writeCount := writeCount + 1;
    }

    /** `GetSerialAnswer`: the next answer, terminator stripped, and the transport status. */
    method ReadAnswer() returns (ret: int, answer: string)
      modifies this
      ensures ret == replyAt(old(readCount)).status && answer == replyAt(old(readCount)).text
      ensures readCount == old(readCount) + 1
      ensures writeCount == old(writeCount) && trace == old(trace) && props == old(props)
    {
      ret, answer := replyAt(readCount).status, replyAt(readCount).text;
      readCount := readCount + 1;
    }

    /** The core's `GetDeviceProperty` on this port. */
    method GetProperty(key: string) returns (value: string)
      requires key in props
      ensures value == props[key]
    {
      value := props[key];
    }

    /** The core's `SetDeviceProperty` on this port. */
    method SetProperty(key: string, value: string)
      modifies this
      ensures props == old(props)[key := value]
      ensures writeCount == old(writeCount) && readCount == old(readCount) && trace == old(trace)
    {
      props := props[key := value];
    }
  }
}

/** The answers of the host framework calls whose status decides an early return
    (`CreateProperty`, `UpdateStatus`); the framework itself is not modelled. */
module Host {
  datatype Option<T> = None | Some(value: T)

  datatype HostCalls = HostCalls(
    createName: int,
    createDescription: int,
    createState: int,
    createLabel: int,
    updateStatus: int)
}
