/** The hub and filter wheel of ArduinoFilterWheel.cpp / ArduinoFilterWheel.h: the
    "V" + CR handshake, device detection, and a wheel that forwards every move
    through its hub. */
module FilterWheelHubAdapter {
  import opened ErrorCodes
  import opened Text
  import opened Serial
  import opened Host
  import opened Detection

  const HubDeviceName: string := "ArduinoFilterWheel-Hub"
  const WheelDeviceName: string := "ArduinoFilterWheel-FilterWheel"

  /** The firmware versions this adapter accepts. */
  const MinVersion: int := 0
  const MaxVersion: int := 1

  /** The baud rate `DetectDevice` probes at. */
  const ProbeBaud: string := "9600"

  /** The version probe: the single character V, sent with a carriage return. */
  const VersionCommand: string := "V"

  /** The answers that identify the firmware; some revisions send a line feed first. */
  predicate IsIdentity(answer: string) {
    answer == "ArduinoFilterWheel" || answer == "\nArduinoFilterWheel"
  }

  datatype Device = FilterWheelHubDevice | FilterWheelDevice

  /** `CreateDevice`: a device for each of the two registered names, nothing otherwise. */
  function CreateDevice(name: Option<string>): (d: Option<Device>)
    ensures d == Some(FilterWheelHubDevice) <==> name == Some(HubDeviceName)
    ensures d == Some(FilterWheelDevice) <==> name == Some(WheelDeviceName)
    ensures d.None? <==> name.None? || name.value !in {HubDeviceName, WheelDeviceName}
  {
    match name
    case None => None
    case Some(n) =>
      if n == HubDeviceName then Some(FilterWheelHubDevice)
      else if n == WheelDeviceName then Some(FilterWheelDevice)
      else None
  }

  /** The outcome of `GetControllerVersion` given whether a port is set, the status
      of the write of "V" + CR, and the answer read back. */
  function ControllerVersion(portAvailable: bool, sendStatus: int, reply: Reply): (h: Handshake)
    ensures !portAvailable ==> h == Handshake(ErrNoPortSet, 0)
    ensures portAvailable && sendStatus != DeviceOk ==> h == Handshake(sendStatus, 0)
    ensures portAvailable && sendStatus == DeviceOk && reply.status != DeviceOk ==> h == Handshake(reply.status, 0)
    ensures portAvailable && sendStatus == DeviceOk && reply.status == DeviceOk && !IsIdentity(reply.text) ==>
      h == Handshake(ErrBoardNotFound, 0)
    ensures h.ret == DeviceOk <==>
      portAvailable && sendStatus == DeviceOk && reply.status == DeviceOk && IsIdentity(reply.text)
    ensures h.version == (if h.ret == DeviceOk then 1 else 0)
  {
    if !portAvailable then Handshake(ErrNoPortSet, 0)
    else if sendStatus != DeviceOk then Handshake(sendStatus, 0)
    else if reply.status != DeviceOk then Handshake(reply.status, 0)
    else if !IsIdentity(reply.text) then Handshake(ErrBoardNotFound, 0)
    else Handshake(DeviceOk, 1)
  }

  /** What the handshake puts on the wire. */
  function ControllerVersionTrace(portAvailable: bool): seq<Event> {
    if portAvailable then [Sent(VersionCommand + CR)] else []
  }

  /** This dialect always reports version 1 on success, so the hub's version range
      check can never fail after a successful handshake. */
  lemma HandshakeVersionSupported(portAvailable: bool, sendStatus: int, reply: Reply)
    ensures var h := ControllerVersion(portAvailable, sendStatus, reply);
      h.ret == DeviceOk ==> MinVersion <= h.version <= MaxVersion
  {
  }

  /** `CArduinoFilterWheelHub`. */
  class FilterWheelHub {
    var port: string
    var initialized: bool
    var portAvailable: bool
    var version: int
    var filterWheelState: uint32
    /** The serial port device that `port` names. */
    const channel: Channel

    /** The constructor leaves `version` indeterminate, as the source does. */
    constructor (channel: Channel)
      ensures this.channel == channel
      ensures port == "" && !initialized && !portAvailable && filterWheelState == 0
    {
      this.channel := channel;
      port := "";
      initialized := false;
      portAvailable := false;
      filterWheelState := 0;
    }

    function Busy(): (r: bool)
      ensures !r
    {
      false
    }

    function IsPortAvailable(): bool
      reads this
    {
      portAvailable
    }

    function GetFilterWheelState(): uint32
      reads this
    {
      filterWheelState
    }

    /** Stores the last position a wheel moved to; nothing else changes. */
    method SetFilterWheelState(state: uint32)
      modifies this`filterWheelState
      ensures GetFilterWheelState() == state
    {
      filterWheelState := state;
    }

    /** `OnPort`, BeforeGet: the property shows the port name. */
    method OnPortBeforeGet() returns (ret: int, value: string)
      ensures ret == DeviceOk && value == port
    {
      ret, value := DeviceOk, port;
    }

    /** `OnPort`, AfterSet: takes the new port name and marks the port available. */
    method OnPortAfterSet(value: string) returns (ret: int)
      modifies this`port, this`portAvailable
      ensures ret == DeviceOk && port == value && IsPortAvailable()
    {
      port := value;
      portAvailable := true;
      ret := DeviceOk;
    }

    /** `OnVersion`, BeforeGet: the property shows the stored version. */
    method OnVersionBeforeGet() returns (ret: int, value: int)
      ensures ret == DeviceOk && value == version
    {
      ret, value := DeviceOk, version;
    }

    /** `GetControllerVersion`: sends "V" + CR and accepts one of the two identity
        answers. Transport errors are returned as they are, with version 0. */
    method GetControllerVersion() returns (ret: int, version: int)
      modifies channel
      ensures Handshake(ret, version) ==
        ControllerVersion(portAvailable, old(channel.NextWriteStatus()), old(channel.NextReply()))
      ensures channel.trace == old(channel.trace) + ControllerVersionTrace(portAvailable)
      ensures channel.writeCount == old(channel.writeCount) + |ControllerVersionTrace(portAvailable)|
      ensures channel.readCount ==
        old(channel.readCount) + (if portAvailable && old(channel.NextWriteStatus()) == DeviceOk then 1 else 0)
      ensures channel.props == old(channel.props)
    {
      version := 0;
      if !portAvailable {
        return ErrNoPortSet, version;
      }
      ret := channel.Write(VersionCommand + CR);
      if ret != DeviceOk {
        return ret, version;
      }
      var answer;
      ret, answer := channel.ReadAnswer();
      if ret != DeviceOk {
        return ret, version;
      }
      if !IsIdentity(answer) {
        return ErrBoardNotFound, version;
      }
      version := 1;
    }

    /** `WriteToComPortH`: sends `command` + CR on the hub's port (the length argument
        of the source is unused there). */
    method WriteToComPortH(command: string) returns (ret: int)
      modifies channel
      ensures ret == old(channel.NextWriteStatus())
      ensures channel.trace == old(channel.trace) + [Sent(command + CR)]
      ensures channel.writeCount == old(channel.writeCount) + 1
      ensures channel.readCount == old(channel.readCount) && channel.props == old(channel.props)
    {
      ret := channel.Write(command + CR);
    }

    /** `DetectDevice`: an initialized hub communicates; a hub without a usable port
        name is misconfigured; otherwise the port is set up for the probe, purged,
        the handshake is run, and the answer time-out is put back. */
    method DetectDevice() returns (result: DetectionStatus)
      requires !initialized && UsablePortName(port) ==> channel.IsSerialPort()
      modifies channel
      ensures result == DetectionOutcome(initialized, port,
        ControllerVersion(portAvailable, old(channel.NextWriteStatus()), old(channel.NextReply())).ret)
      ensures initialized || !UsablePortName(port) ==> unchanged(channel)
      ensures !initialized && UsablePortName(port) ==>
        && channel.props == ProbeSettings(old(channel.props), ProbeBaud)
        && channel.trace == old(channel.trace) + [Purged] + ControllerVersionTrace(portAvailable)
        && channel.writeCount == old(channel.writeCount) + |ControllerVersionTrace(portAvailable)|
        && channel.readCount ==
          old(channel.readCount) + (if portAvailable && old(channel.NextWriteStatus()) == DeviceOk then 1 else 0)
    {
      if initialized {
        return CanCommunicate;
      }
      result := Misconfigured;
      var lower := LowerCase(port);
      if 0 < |lower| && lower != "undefined" && lower != "unknown" {
        result := CanNotCommunicate;
        var answerTimeout := channel.GetProperty(AnswerTimeoutKey);
        channel.SetProperty(HandshakingKey, "Off");
        channel.SetProperty(BaudRateKey, ProbeBaud);
        channel.SetProperty(StopBitsKey, "1");
        channel.SetProperty(AnswerTimeoutKey, "500.0");
        channel.SetProperty(DelayBetweenCharsKey, "0");
        channel.PurgeComPort();
        var ret, v := GetControllerVersion();
        if ret == DeviceOk {
          result := CanCommunicate;
        }
        channel.SetProperty(AnswerTimeoutKey, answerTimeout);
      }
    }

    /** `Initialize`: after the name property is created, purges the port, runs the
        handshake into `version`, checks the version range and the status update,
        turns on verbose serial logging, and only then marks the hub initialized. */
    method Initialize(host: HostCalls) returns (ret: int)
      modifies this`version, this`initialized, channel
      ensures host.createName != DeviceOk ==>
        ret == host.createName && unchanged(this) && unchanged(channel)
      ensures host.createName == DeviceOk ==>
        var h := ControllerVersion(portAvailable, old(channel.NextWriteStatus()), old(channel.NextReply()));
        && version == h.version
        && ret == (if h.ret != DeviceOk then h.ret
                   else if h.version < MinVersion || h.version > MaxVersion then ErrVersionMismatch
                   else host.updateStatus)
        && channel.trace == old(channel.trace) + [Purged] + ControllerVersionTrace(portAvailable)
        && channel.writeCount == old(channel.writeCount) + |ControllerVersionTrace(portAvailable)|
        && channel.readCount ==
          old(channel.readCount) + (if portAvailable && old(channel.NextWriteStatus()) == DeviceOk then 1 else 0)
        && channel.props == (if ret == DeviceOk then old(channel.props)[VerboseKey := "1"] else old(channel.props))
      ensures initialized == (old(initialized) || ret == DeviceOk)
    {
      if host.createName != DeviceOk {
        return host.createName;
      }
      channel.PurgeComPort();
      ret, version := GetControllerVersion();
      if ret != DeviceOk {
        return ret;
      }
      if version < MinVersion || version > MaxVersion {
        return ErrVersionMismatch;
      }
      ret := host.updateStatus;
      if ret != DeviceOk {
        return ret;
      }
      channel.SetProperty(VerboseKey, "1");
      initialized := true;
      ret := DeviceOk;
    }

    /** `DetectInstalledDevices`: offers the filter wheel when the probe communicates. */
    method DetectInstalledDevices() returns (ret: int, installed: seq<Device>)
      requires !initialized && UsablePortName(port) ==> channel.IsSerialPort()
      modifies channel
      ensures ret == DeviceOk
      ensures initialized || !UsablePortName(port) ==> unchanged(channel)
      ensures !initialized && UsablePortName(port) ==>
        && channel.props == ProbeSettings(old(channel.props), ProbeBaud)
        && channel.trace == old(channel.trace) + [Purged] + ControllerVersionTrace(portAvailable)
        && channel.writeCount == old(channel.writeCount) + |ControllerVersionTrace(portAvailable)|
        && channel.readCount ==
          old(channel.readCount) + (if portAvailable && old(channel.NextWriteStatus()) == DeviceOk then 1 else 0)
      ensures installed == (if DetectionOutcome(initialized, port,
        ControllerVersion(portAvailable, old(channel.NextWriteStatus()), old(channel.NextReply())).ret) == CanCommunicate
        then [FilterWheelDevice] else [])
    {
      var status := DetectDevice();
      installed := [];
      if status == CanCommunicate {
        var d := CreateDevice(Some(WheelDeviceName));
        if d.Some? {
          installed := installed + [d.value];
        }
      }
      ret := DeviceOk;
    }

    /** `Shutdown`: clears the initialized flag; calling it again changes nothing. */
    method Shutdown() returns (ret: int)
      modifies this`initialized
      ensures ret == DeviceOk && !initialized
    {
      initialized := false;
      ret := DeviceOk;
    }
  }

  /** The labels `Initialize` gives the seven positions. */
  const WheelLabels: map<int, string> := map[
    1 := "Cy3", 2 := "TxRed", 3 := "Cy5", 4 := "Mirror", 5 := "Empty", 6 := "Fitc", 0 := "Stop"]

  /** Every position of the wheel gets exactly one label, and no two positions share one. */
  lemma WheelLabelsCoverPositions()
    ensures forall p :: p in WheelLabels <==> 0 <= p < 7
    ensures forall p, q :: p in WheelLabels && q in WheelLabels && p != q ==> WheelLabels[p] != WheelLabels[q]
  {
  }

  /** `CArduinoFilterWheel`: a seven-position wheel whose moves go through the hub. */
  class FilterWheel {
    const numPos: nat := 7
    var initialized: bool
    var busy: bool
    var changedTime: int
    var position: int
    var labels: map<int, string>
    /** The parent hub, when the framework found one. */
    const hub: FilterWheelHub?

    /** `busy_` is never raised. */
    ghost predicate Valid()
      reads this
    {
      !busy
    }

    constructor (hub: FilterWheelHub?)
      ensures Valid() && this.hub == hub
      ensures !initialized && changedTime == 0 && position == 6 && labels == map[]
    {
      this.hub := hub;
      initialized := false;
      busy := false;
      changedTime := 0;
      position := 6;
      labels := map[];
    }

    /** A parent hub exists and has a port. */
    predicate HubReady()
      reads this, hub
    {
      hub != null && hub.IsPortAvailable()
    }

    /** The number of positions: exactly the labelled positions 0..n-1. */
    function GetNumberOfPositions(): (n: nat)
      ensures forall p :: p in WheelLabels <==> 0 <= p < n
    {
      WheelLabelsCoverPositions();
      numPos
    }

    /** `Busy` reports `busy_`, which nothing sets. */
    function Busy(): (r: bool)
      reads this
      requires Valid()
      ensures !r
    {
      busy
    }

    /** `Initialize`: refuses without a hub port; otherwise labels the positions and
        creates the state and label properties, and is initialized once the status
        update succeeds. */
    method Initialize(host: HostCalls) returns (ret: int)
      modifies this`labels, this`initialized
      ensures !HubReady() ==> ret == ErrNoPortSet && labels == old(labels) && initialized == old(initialized)
      ensures HubReady() ==>
        && labels == old(labels) + WheelLabels
        && ret == (if host.createState != DeviceOk then host.createState
                   else if host.createLabel != DeviceOk then host.createLabel
                   else host.updateStatus)
        && initialized == (old(initialized) || ret == DeviceOk)
    {
      if hub == null || !hub.IsPortAvailable() {
        return ErrNoPortSet;
      }
      labels := labels[1 := "Cy3"][2 := "TxRed"][3 := "Cy5"][4 := "Mirror"][5 := "Empty"][6 := "Fitc"][0 := "Stop"];
      if host.createState != DeviceOk {
        return host.createState;
      }
      if host.createLabel != DeviceOk {
        return host.createLabel;
      }
      ret := host.updateStatus;
      if ret != DeviceOk {
        return ret;
      }
      initialized := true;
    }

    /** `Shutdown`: clears the initialized flag and always succeeds. */
    method Shutdown() returns (ret: int)
      modifies this`initialized
      ensures ret == DeviceOk && !initialized
    {
      if initialized {
        initialized := false;
      }
      ret := DeviceOk;
    }

    /** `OnState`, BeforeGet: the property shows the cached position, without traffic. */
    method OnStateBeforeGet(prop: int) returns (ret: int, value: int)
      ensures !HubReady() ==> ret == ErrNoPortSet && value == prop
      ensures HubReady() ==> ret == DeviceOk && value == position
    {
      if hub == null || !hub.IsPortAvailable() {
        return ErrNoPortSet, prop;
      }
      ret, value := DeviceOk, position;
    }

    /** `OnState`, AfterSet, as the source has it: no range check; the position and
        the hub's last state are stored before the decimal text of `pos` is written,
        so a failed write leaves them at `pos`. */
    method OnStateAfterSet(pos: int, now: int) returns (ret: int)
      modifies this`changedTime, this`position, hub, if hub == null then {} else {hub.channel}
      ensures !old(HubReady()) ==>
        && ret == ErrNoPortSet && changedTime == old(changedTime) && position == old(position)
        && (hub != null ==> unchanged(hub) && unchanged(hub.channel))
      ensures old(HubReady()) ==>
        && changedTime == now && position == pos
        && hub.filterWheelState == ToUnsigned32(pos)
        && ret == old(hub.channel.NextWriteStatus())
        && hub.channel.trace == old(hub.channel.trace) + [Sent(DecimalText(pos) + CR)]
        && hub.channel.writeCount == old(hub.channel.writeCount) + 1
        && hub.channel.readCount == old(hub.channel.readCount)
        && hub.channel.props == old(hub.channel.props)
      ensures hub != null ==>
        hub.port == old(hub.port) && hub.portAvailable == old(hub.portAvailable)
        && hub.initialized == old(hub.initialized) && hub.version == old(hub.version)
    {
      if hub == null || !hub.IsPortAvailable() {
        return ErrNoPortSet;
      }
      changedTime := now;
      var text := DecimalText(pos);
      position := pos;
      hub.SetFilterWheelState(ToUnsigned32(pos));
      if hub.GetFilterWheelState() >= 0 {
        ret := hub.WriteToComPortH(text);
        return ret;
      }
      ret := DeviceOk;
    }

    /** `OnState`, AfterSet, with the range check the source leaves commented out and
        the cache updated only after a successful write: a rejected or failed move
        leaves the position and the hub's last state as they were. */
    method OnStateAfterSetChecked(pos: int, now: int) returns (ret: int)
      modifies this`changedTime, this`position, hub, if hub == null then {} else {hub.channel}
      ensures !old(HubReady()) ==>
        && ret == ErrNoPortSet && changedTime == old(changedTime) && position == old(position)
        && (hub != null ==> unchanged(hub) && unchanged(hub.channel))
      ensures old(HubReady()) && !(0 <= pos < numPos) ==>
        && ret == ErrUnknownPosition && changedTime == now && position == old(position)
        && unchanged(hub) && unchanged(hub.channel)
      ensures old(HubReady()) && 0 <= pos < numPos ==>
        && changedTime == now
        && ret == old(hub.channel.NextWriteStatus())
        && hub.channel.trace == old(hub.channel.trace) + [Sent(DecimalText(pos) + CR)]
        && hub.channel.writeCount == old(hub.channel.writeCount) + 1
        && hub.channel.readCount == old(hub.channel.readCount)
        && hub.channel.props == old(hub.channel.props)
        && position == (if ret == DeviceOk then pos else old(position))
        && hub.filterWheelState == (if ret == DeviceOk then pos else old(hub.filterWheelState))
      ensures hub != null && old(hub.filterWheelState) == old(position) ==> hub.filterWheelState == position
      ensures hub != null ==>
        hub.port == old(hub.port) && hub.portAvailable == old(hub.portAvailable)
        && hub.initialized == old(hub.initialized) && hub.version == old(hub.version)
    {
      if hub == null || !hub.IsPortAvailable() {
        return ErrNoPortSet;
      }
      changedTime := now;
      if pos < 0 || pos >= numPos {
        return ErrUnknownPosition;
      }
      ret := hub.WriteToComPortH(DecimalText(pos));
      if ret == DeviceOk {
        position := pos;
        hub.SetFilterWheelState(ToUnsigned32(pos));
      }
    }
  }

  /** A hub on "COM7" whose writes all report `writeStatus` and whose reads all
      answer `answer`. */
  method NewHub(answer: string, writeStatus: int) returns (hub: FilterWheelHub)
    ensures fresh(hub) && fresh(hub.channel) && hub.port == "COM7" && hub.portAvailable && !hub.initialized
    ensures hub.filterWheelState == 0 && hub.channel.trace == [] && hub.channel.props == map[AnswerTimeoutKey := "300.0"]
    ensures forall k :: hub.channel.writeStatusAt(k) == writeStatus && hub.channel.replyAt(k) == Reply(DeviceOk, answer)
  {
    var ch := new Channel(k => writeStatus, k => Reply(DeviceOk, answer), map[AnswerTimeoutKey := "300.0"]);
    hub := new FilterWheelHub(ch);
    var _ := hub.OnPortAfterSet("COM7");
  }

  /** Port "COM7", the controller answers its identity: the hub initializes with
      version 1, and a move to 3 is cached and written as "3" + CR. */
  method ReadyScenario() returns (initRet: int, version: int, moveRet: int, position: int, sent: seq<Event>)
    ensures initRet == DeviceOk && version == 1
    ensures moveRet == DeviceOk && position == 3
    ensures sent == [Purged, Sent("V\r"), Sent("3\r")]
  {
    var hub := NewHub("ArduinoFilterWheel", DeviceOk);
    initRet := hub.Initialize(HostCalls(DeviceOk, DeviceOk, DeviceOk, DeviceOk, DeviceOk));
    version := hub.version;
    assert VersionCommand + CR == "V\r";
    assert hub.channel.trace == [Purged, Sent("V\r")];
    var wheel := new FilterWheel(hub);
    moveRet := wheel.OnStateAfterSet(3, 1000);
    position := wheel.position;
    assert DecimalText(3) + CR == "3\r";
    sent := hub.channel.trace;
  }

  /** A controller that answers "SomethingElse" is not the board: initialization
      fails with ERR_BOARD_NOT_FOUND and the hub stays uninitialized. */
  method WrongBoardScenario() returns (initRet: int, initialized: bool, detected: DetectionStatus, timeout: string)
    ensures initRet == ErrBoardNotFound && !initialized
    ensures detected == CanNotCommunicate && timeout == "300.0"
  {
    var hub := NewHub("SomethingElse", DeviceOk);
    initRet := hub.Initialize(HostCalls(DeviceOk, DeviceOk, DeviceOk, DeviceOk, DeviceOk));
    initialized := hub.initialized;
    assert !initialized;
    NamedPortIsProbed();
    detected := hub.DetectDevice();
    assert detected == CanNotCommunicate;
    timeout := hub.channel.props[AnswerTimeoutKey];
  }

  /** As written, a move to -1 is accepted: the wheel caches -1 while the hub's
      unsigned last state becomes 2^32 - 1, and "-1" + CR goes out. */
  method NegativePositionAsWritten() returns (ret: int, position: int, hubState: int)
    ensures ret == DeviceOk && position == -1 && hubState == 0xFFFF_FFFF
  {
    var hub := NewHub("ArduinoFilterWheel", DeviceOk);
    var wheel := new FilterWheel(hub);
    ret := wheel.OnStateAfterSet(-1, 0);
    position, hubState := wheel.position, hub.filterWheelState;
  }

  /** With the range check, -1 is refused and a valid move leaves the wheel and the
      hub agreeing on the position. */
  method NegativePositionChecked() returns (refused: int, position: int, accepted: int, hubState: int)
    ensures refused == ErrUnknownPosition && accepted == DeviceOk
    ensures position == 3 && hubState == 3
  {
    var hub := NewHub("ArduinoFilterWheel", DeviceOk);
    var wheel := new FilterWheel(hub);
    refused := wheel.OnStateAfterSetChecked(-1, 0);
    accepted := wheel.OnStateAfterSetChecked(3, 10);
    position, hubState := wheel.position, hub.filterWheelState;
  }

  /** As written, a move whose write fails is still cached: the wheel and the hub
      both report position 3 although the controller never received it. */
  method FailedMoveAsWritten() returns (ret: int, position: int, hubState: int)
    ensures ret == ErrWriteFailed && position == 3 && hubState == 3
  {
    var hub := NewHub("ArduinoFilterWheel", ErrWriteFailed);
    var wheel := new FilterWheel(hub);
    ret := wheel.OnStateAfterSet(3, 0);
    position, hubState := wheel.position, hub.filterWheelState;
  }

  /** With the cache updated only after a successful write, the failed move leaves
      the wheel at its start position 6 and the hub at its initial state 0. */
  method FailedMoveChecked() returns (ret: int, position: int, hubState: int)
    ensures ret == ErrWriteFailed && position == 6 && hubState == 0
  {
    var hub := NewHub("ArduinoFilterWheel", ErrWriteFailed);
    var wheel := new FilterWheel(hub);
    ret := wheel.OnStateAfterSetChecked(3, 0);
    position, hubState := wheel.position, hub.filterWheelState;
  }
}
