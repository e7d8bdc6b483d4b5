/** The hub of ArduinoHub.cpp / ArduinoHub.h, which speaks the binary dialect: the
    byte 0x01 asks for the firmware's identity, the byte 0x02 for its version. */
module ArduinoHubAdapter {
  import opened ErrorCodes
  import opened Text
  import opened Serial
  import opened Host
  import opened Detection

  const HubDeviceName: string := "Arduino-Hub"
  const WheelDeviceName: string := "Arduino-Filter-Wheel"

  /** The firmware versions named in the version-mismatch message; the stub
      `Initialize` never compares against them. */
  const MinVersion: int := 1
  const MaxVersion: int := 2

  /** The baud rate `DetectDevice` probes at. */
  const ProbeBaud: string := "57600"

  const IdentityQuery: string := [1 as char]
  const VersionQuery: string := [2 as char]
  const Identity: string := "Arduino-FW"

  datatype Device = ArduinoHubDevice | ArduinoFilterWheelDevice

  /** `CreateDevice`: the hub or the stand-alone wheel for their registered names,
      nothing for a null or unknown name. */
  function CreateDevice(name: Option<string>): (d: Option<Device>)
    ensures d == Some(ArduinoHubDevice) <==> name == Some(HubDeviceName)
    ensures d == Some(ArduinoFilterWheelDevice) <==> name == Some(WheelDeviceName)
    ensures d.None? <==> name.None? || name.value !in {HubDeviceName, WheelDeviceName}
  {
    match name
    case None => None
    case Some(n) =>
      if n == HubDeviceName then Some(ArduinoHubDevice)
      else if n == WheelDeviceName then Some(ArduinoFilterWheelDevice)
      else None
  }

  /** The identity exchange succeeded and named this firmware. */
  predicate IdentityConfirmed(identitySend: int, identityReply: Reply) {
    identitySend == DeviceOk && identityReply.status == DeviceOk && identityReply.text == Identity
  }

  /** The outcome of `GetArduinoVersion` from the statuses of its two writes and the
      two answers read back. */
  function ArduinoVersion(identitySend: int, identityReply: Reply, versionSend: int, versionReply: Reply): (h: Handshake)
    ensures identitySend != DeviceOk ==> h == Handshake(identitySend, 0)
    ensures identitySend == DeviceOk && identityReply.status != DeviceOk ==> h == Handshake(identityReply.status, 0)
    ensures identitySend == DeviceOk && identityReply.status == DeviceOk && identityReply.text != Identity ==>
      h == Handshake(ErrBoardNotFound, 0)
    ensures IdentityConfirmed(identitySend, identityReply) && versionSend != DeviceOk ==> h == Handshake(versionSend, 0)
    ensures IdentityConfirmed(identitySend, identityReply) && versionSend == DeviceOk && versionReply.status != DeviceOk ==>
      h == Handshake(versionReply.status, 0)
    ensures h.ret == DeviceOk <==>
      IdentityConfirmed(identitySend, identityReply) && versionSend == DeviceOk && versionReply.status == DeviceOk
    ensures h.ret == DeviceOk ==> h.version == ParseInt(versionReply.text)
    ensures h.ret != DeviceOk ==> h.version == 0
  {
    if identitySend != DeviceOk then Handshake(identitySend, 0)
    else if identityReply.status != DeviceOk then Handshake(identityReply.status, 0)
    else if identityReply.text != Identity then Handshake(ErrBoardNotFound, 0)
    else if versionSend != DeviceOk then Handshake(versionSend, 0)
    else if versionReply.status != DeviceOk then Handshake(versionReply.status, 0)
    else Handshake(DeviceOk, ParseInt(versionReply.text))
  }

  /** What the handshake puts on the wire: the version query only after the
      identity was confirmed. */
  function ArduinoVersionTrace(identitySend: int, identityReply: Reply): seq<Event> {
    [Sent(IdentityQuery)] + (if IdentityConfirmed(identitySend, identityReply) then [Sent(VersionQuery)] else [])
  }

  /** How many answers the handshake reads: the identity once the first write
      succeeded, and the version once the identity was confirmed and the second
      write succeeded. */
  function ArduinoVersionReads(identitySend: int, identityReply: Reply, versionSend: int): (n: nat)
    ensures n <= |ArduinoVersionTrace(identitySend, identityReply)|
  {
    (if identitySend == DeviceOk then 1 else 0)
    + (if IdentityConfirmed(identitySend, identityReply) && versionSend == DeviceOk then 1 else 0)
  }

  /** The handshake over the port's write statuses from the `w`-th and answers
      from the `r`-th on. */
  function VersionFrom(ch: Channel, w: nat, r: nat): Handshake {
    ArduinoVersion(ch.writeStatusAt(w), ch.replyAt(r), ch.writeStatusAt(w + 1), ch.replyAt(r + 1))
  }

  /** The wire trace of that handshake. */
  function VersionTraceFrom(ch: Channel, w: nat, r: nat): seq<Event> {
    ArduinoVersionTrace(ch.writeStatusAt(w), ch.replyAt(r))
  }

  /** The number of answers that handshake reads. */
  function VersionReadsFrom(ch: Channel, w: nat, r: nat): nat {
    ArduinoVersionReads(ch.writeStatusAt(w), ch.replyAt(r), ch.writeStatusAt(w + 1))
  }

  /** A board that identifies itself and answers the decimal text of its version
      `v` is reported as communicating, with version `v`. */
  lemma ArduinoVersionReportsFirmware(v: int)
    requires IntMin <= v <= IntMax
    ensures ArduinoVersion(DeviceOk, Reply(DeviceOk, Identity), DeviceOk, Reply(DeviceOk, DecimalText(v))) ==
      Handshake(DeviceOk, v)
  {
    ParseDecimalText(v);
  }

  /** `ArduinoHub`. */
  class ArduinoHub {
    var port: string
    var initialized: bool
    var portAvailable: bool
    var version: int
    var filterWheelState: uint32
    /** The serial port device that `port` names. `OnPort`, which would assign
        `port`, is declared in the header but its body is not in the source. */
    const channel: Channel

    constructor (channel: Channel)
      ensures this.channel == channel
      ensures port == "" && !initialized && !portAvailable && filterWheelState == 0
    {
      this.channel := channel;
      port := "";
      initialized := false;
      portAvailable := false;
      filterWheelState := 0;
    }

    /** The stub `Initialize` succeeds without doing anything. */
    method Initialize() returns (ret: int)
      ensures ret == DeviceOk
    {
      ret := 0;
    }

    function Busy(): (r: bool)
      ensures !r
    {
      false
    }

    /** The stub `Shutdown` succeeds without doing anything. */
    method Shutdown() returns (ret: int)
      ensures ret == DeviceOk
    {
      ret := 0;
    }

    function IsPortAvailable(): bool
      reads this
    {
      portAvailable
    }

    function GetFilterWheelState(): uint32
      reads this
    {
      filterWheelState
    }

    /** Stores the last wheel position; nothing else changes. */
    method SetFilterWheelState(state: uint32)
      modifies this`filterWheelState
      ensures GetFilterWheelState() == state
    {
      filterWheelState := state;
    }

    /** `GetArduinoVersion`: writes 0x01 and expects "Arduino-FW", then writes 0x02
        and reads the version as a decimal number. Transport errors are returned as
        they are, with version 0. */
    method GetArduinoVersion() returns (ret: int, version: int)
      modifies channel
      ensures Handshake(ret, version) == VersionFrom(channel, old(channel.writeCount), old(channel.readCount))
      ensures channel.trace == old(channel.trace) +
        VersionTraceFrom(channel, old(channel.writeCount), old(channel.readCount))
      ensures channel.writeCount == old(channel.writeCount) +
        |VersionTraceFrom(channel, old(channel.writeCount), old(channel.readCount))|
      ensures channel.readCount == old(channel.readCount) +
        VersionReadsFrom(channel, old(channel.writeCount), old(channel.readCount))
      ensures channel.props == old(channel.props)
    {
      ghost var w0, r0 := channel.writeCount, channel.readCount;
      version := 0;
      ret := channel.Write(IdentityQuery);
      if ret != DeviceOk {
        return ret, version;
      }
      var answer;
      ret, answer := channel.ReadAnswer();
      if ret != DeviceOk {
        return ret, version;
      }
      if answer != Identity {
        return ErrBoardNotFound, version;
      }
      assert IdentityConfirmed(channel.writeStatusAt(w0), channel.replyAt(r0));
      assert channel.writeCount == w0 + 1 && channel.readCount == r0 + 1;
      ret := channel.Write(VersionQuery);
      if ret != DeviceOk {
        return ret, version;
      }
      var ans;
      ret, ans := channel.ReadAnswer();
      if ret != DeviceOk {
        return ret, version;
      }
      version := ParseInt(ans);
    }

    /** `DetectDevice`: as the other hub's, with this dialect's handshake at 57600 baud. */
    method DetectDevice() returns (result: DetectionStatus)
      requires !initialized && UsablePortName(port) ==> channel.IsSerialPort()
      modifies channel
      ensures result ==
        DetectionOutcome(initialized, port, VersionFrom(channel, old(channel.writeCount), old(channel.readCount)).ret)
      ensures initialized || !UsablePortName(port) ==> unchanged(channel)
      ensures !initialized && UsablePortName(port) ==>
        && channel.props == ProbeSettings(old(channel.props), ProbeBaud)
        && channel.trace == old(channel.trace) + [Purged] +
             VersionTraceFrom(channel, old(channel.writeCount), old(channel.readCount))
        && channel.writeCount == old(channel.writeCount) +
             |VersionTraceFrom(channel, old(channel.writeCount), old(channel.readCount))|
        && channel.readCount == old(channel.readCount) +
             VersionReadsFrom(channel, old(channel.writeCount), old(channel.readCount))
    {
      ghost var props0 := channel.props;
      if initialized {
        return CanCommunicate;
      }
      result := Misconfigured;
      var lower := LowerCase(port);
      if 0 < |lower| && lower != "undefined" && lower != "unknown" {
        result := CanNotCommunicate;
        var answerTimeout := channel.GetProperty(AnswerTimeoutKey);
        channel.SetProperty(HandshakingKey, "Off");
        channel.SetProperty(BaudRateKey, ProbeBaud);
        channel.SetProperty(StopBitsKey, "1");
        channel.SetProperty(AnswerTimeoutKey, "500.0");
        channel.SetProperty(DelayBetweenCharsKey, "0");
        channel.PurgeComPort();
        assert channel.writeCount == old(channel.writeCount) && channel.readCount == old(channel.readCount);
        var ret, v := GetArduinoVersion();
        if ret == DeviceOk {
          result := CanCommunicate;
        }
        channel.SetProperty(AnswerTimeoutKey, answerTimeout);
        assert channel.props == ProbeSettings(props0, ProbeBaud);
      }
    }
  }

  /** A port that accepts every write. */
  function AlwaysAccepted(k: nat): int {
    DeviceOk
  }

  /** A board that identifies itself, then answers version "2". */
  function BoardAnswer(k: nat): Reply {
    if k == 0 then Reply(DeviceOk, Identity) else Reply(DeviceOk, "2")
  }

  /** The wire trace of a probe that found the board answering `BoardAnswer`. */
  lemma BoardProbeTrace(t: seq<Event>)
    requires t == [] + [Purged] + ArduinoVersionTrace(AlwaysAccepted(0), BoardAnswer(0))
    ensures t == [Purged, Sent([1 as char]), Sent([2 as char])]
  {
  }

  /** A board on "COM7" that identifies itself is detected, and the probe leaves
      the answer time-out as it found it. */
  method DetectScenario() returns (result: DetectionStatus, timeout: string, sent: seq<Event>)
    ensures result == CanCommunicate && timeout == "300.0"
    ensures sent == [Purged, Sent([1 as char]), Sent([2 as char])]
  {
    var ch := new Channel(AlwaysAccepted, BoardAnswer, map[AnswerTimeoutKey := "300.0"]);
    var hub := new ArduinoHub(ch);
    hub.port := "COM7";
    NamedPortIsProbed();
    result := hub.DetectDevice();
    timeout := ch.props[AnswerTimeoutKey];
    sent := ch.trace;
    BoardProbeTrace(sent);
  }

  /** The same board's version answer "2" is read as version 2. */
  method VersionScenario() returns (ret: int, version: int)
    ensures ret == DeviceOk && version == 2
  {
    var ch := new Channel(k => DeviceOk, k => if k == 0 then Reply(DeviceOk, Identity) else Reply(DeviceOk, "2"),
                          map[AnswerTimeoutKey := "300.0"]);
    var hub := new ArduinoHub(ch);
    ArduinoVersionReportsFirmware(2);
    assert DecimalText(2) == "2";
    ret, version := hub.GetArduinoVersion();
  }
}
