/** The stand-alone wheel of FilterWheel.cpp / FilterWheel.h: six positions,
    moves sent as "pos=N" on its own port, a time-based busy signal, and a port
    that cannot change once the wheel is initialized. */
module SerialFilterWheel {
  import opened ErrorCodes
  import opened Text
  import opened Serial
  import opened Host

  const DeviceName: string := "Arduino Filter Wheel"

  datatype Device = ArduinoFilterWheelDevice

  /** `CreateDevice`: the wheel for its registered name, nothing otherwise. */
  function CreateDevice(name: Option<string>): (d: Option<Device>)
    ensures d.Some? <==> name == Some(DeviceName)
  {
    if name == Some(DeviceName) then Some(ArduinoFilterWheelDevice) else None
  }

  /** The label of filter position `i`, as "Filter %ld" writes it. */
  function FilterLabel(i: int): string {
    "Filter " + DecimalText(i)
  }

  /** Position 0 is "Home"; positions 1..last are "Filter 1".."Filter last". */
  function LabelTable(last: nat): (t: map<int, string>)
    ensures forall p :: p in t <==> 0 <= p <= last
    ensures 0 in t && t[0] == "Home"
    ensures forall p :: 1 <= p <= last ==> p in t && t[p] == FilterLabel(p)
  {
    map p | 0 <= p <= last :: if p == 0 then "Home" else FilterLabel(p)
  }

  /** No two positions of a label table share a label, so a label names one position. */
  lemma LabelTableDistinct(last: nat, p: int, q: int)
    requires p in LabelTable(last) && q in LabelTable(last) && p != q
    ensures LabelTable(last)[p] != LabelTable(last)[q]
  {
    if p != 0 && q != 0 {
      if FilterLabel(p) == FilterLabel(q) {
        assert DecimalText(p) == FilterLabel(p)[7..];
        assert DecimalText(q) == FilterLabel(q)[7..];
        DecimalTextInjective(p, q);
      }
    } else if p == 0 {
      assert LabelTable(last)[q][..1] == "F";
    } else {
      assert LabelTable(last)[p][..1] == "F";
    }
  }

  /** A map that keeps `base` outside 0..last and agrees with the label table on
      0..last is `base` overridden by that table. */
  lemma LabelsFilledIn(base: map<int, string>, m: map<int, string>, last: nat)
    requires forall p :: p in m <==> p in base || 0 <= p < last + 1
    requires 0 in m && m[0] == "Home"
    requires forall p :: 1 <= p < last + 1 ==> m[p] == FilterLabel(p)
    requires forall p :: p in base && !(0 <= p < last + 1) ==> m[p] == base[p]
    ensures m == base + LabelTable(last)
  {
  }

  /** The label table with one label per valid position 0..numPos-1: what the
      labelling loop evidently means to build. */
  function CorrectedLabels(numPos: nat): (t: map<int, string>)
    requires numPos >= 1
    ensures forall p :: p in t <==> 0 <= p < numPos
    ensures forall p :: p in t ==> !Rejects(p, numPos)
  {
    LabelTable(numPos - 1)
  }

  /** The move command for `pos`: the keyword "pos=" and at least one character
      of the position, digits only for a position that is not negative. */
  function MoveCommand(pos: int): (c: string)
    ensures 5 <= |c| && c[..4] == "pos="
    ensures pos >= 0 ==> AllDigits(c[4..])
  {
    "pos=" + DecimalText(pos)
  }

  /** The text after "pos=" is the position exactly: the adapter's own decimal
      reader (`ParseInt`) gives it back. */
  lemma MoveCommandDecodes(pos: int)
    requires IntMin <= pos <= IntMax
    ensures MoveCommand(pos)[..4] == "pos=" && ParseInt(MoveCommand(pos)[4..]) == pos
  {
    assert MoveCommand(pos)[4..] == DecimalText(pos);
    ParseDecimalText(pos);
  }

  /** The rejection test `pos >= numPos_ || pos < 0`, where the comparison with the
      unsigned `numPos_` converts `pos` to `unsigned long`. */
  predicate Rejects(pos: int, numPos: nat)
    ensures pos < 0 ==> Rejects(pos, numPos)
    ensures 0 <= pos < numPos ==> !Rejects(pos, numPos)
  {
    ToUnsigned64(pos) >= numPos || pos < 0
  }

  /** For every `long` position and every realistic wheel size, the test rejects
      exactly the positions outside 0..numPos-1. */
  lemma RejectsExactlyOutOfRange(pos: int64, numPos: nat)
    requires numPos <= 0x8000_0000_0000_0000
    ensures Rejects(pos, numPos) <==> !(0 <= pos < numPos)
  {
  }

  /** `ArduinoFilterWheel` of FilterWheel.cpp. */
  class ArduinoFilterWheel {
    const numPos: nat := 6
    var initialized: bool
    var changedTime: int
    var position: int
    var port: string
    var labels: map<int, string>
    /** The serial port device that `port` names. */
    const channel: Channel

    constructor (channel: Channel)
      ensures this.channel == channel
      ensures !initialized && changedTime == 0 && position == 0 && port == "" && labels == map[]
    {
      this.channel := channel;
      initialized := false;
      changedTime := 0;
      position := 0;
      port := "";
      labels := map[];
    }

    /** The number of positions: exactly the positions 0..n-1 pass the move test. */
    function GetNumberOfPositions(): (n: nat)
      ensures forall p: int64 :: !Rejects(p, numPos) <==> 0 <= p < n
    {
      assert forall p: int64 :: Rejects(p, numPos) <==> !(0 <= p < numPos) by {
        forall p: int64 ensures Rejects(p, numPos) <==> !(0 <= p < numPos) {
          RejectsExactlyOutOfRange(p, numPos);
        }
      }
      numPos
    }

    /** `Initialize`: does nothing when already initialized. Otherwise, once the name
        and description properties exist, it starts the busy timer, labels position 0
        "Home" (replacing "Stop") and positions 1..numPos "Filter i", creates the state
        and label properties, and is initialized once the status update succeeds. */
    method Initialize(host: HostCalls, now: int) returns (ret: int)
      modifies this`changedTime, this`labels, this`initialized
      ensures old(initialized) ==> ret == DeviceOk && unchanged(this)
      ensures !old(initialized) && host.createName != DeviceOk ==> ret == host.createName && unchanged(this)
      ensures !old(initialized) && host.createName == DeviceOk && host.createDescription != DeviceOk ==>
        ret == host.createDescription && unchanged(this)
      ensures !old(initialized) && host.createName == DeviceOk && host.createDescription == DeviceOk ==>
        && changedTime == now
        && labels == old(labels) + LabelTable(numPos)
        && ret == (if host.createState != DeviceOk then host.createState
                   else if host.createLabel != DeviceOk then host.createLabel
                   else host.updateStatus)
        && initialized == (ret == DeviceOk)
    {
      if initialized {
        return DeviceOk;
      }
      if host.createName != DeviceOk {
        return host.createName;
      }
      if host.createDescription != DeviceOk {
        return host.createDescription;
      }
      changedTime := now;
      LabelPositions();
      if host.createState != DeviceOk {
        return host.createState;
      }
      if host.createLabel != DeviceOk {
        return host.createLabel;
      }
      ret := host.updateStatus;
      if ret != DeviceOk {
        return ret;
      }
      initialized := true;
    }

    /** The labelling step of `Initialize`: position 0 is labelled "Stop" and then
        "Home", and positions 1..numPos "Filter i"; other labels stay. */
    method LabelPositions()
      modifies this`labels
      ensures labels == old(labels) + LabelTable(numPos)
    {
      labels := labels[0 := "Stop"];
      labels := labels[0 := "Home"];
      var i := 1;
      while i <= numPos
        invariant 1 <= i <= numPos + 1
        invariant forall p :: p in labels <==> p in old(labels) || 0 <= p < i
        invariant labels[0] == "Home"
        invariant forall p :: 1 <= p < i ==> labels[p] == FilterLabel(p)
        invariant forall p :: p in old(labels) && !(0 <= p < i) ==> labels[p] == old(labels)[p]
      {
        labels := labels[i := FilterLabel(i)];
        i := i + 1;
      }
      LabelsFilledIn(old(labels), labels, numPos);
    }

    /** `Busy`: a move is settling while less than the delay (in ms) has elapsed,
        counted in microseconds, since the last state change. */
    function Busy(now: int, delayMs: int): (r: bool)
      reads this
      ensures r <==> now < changedTime + delayMs * 1000
      ensures delayMs <= 0 && now >= changedTime ==> !r
    {
      now - changedTime < delayMs * 1000
    }

    /** `Shutdown`: clears the initialized flag and always succeeds. */
    method Shutdown() returns (ret: int)
      modifies this`initialized
      ensures ret == DeviceOk && !initialized
    {
      if initialized {
        initialized := false;
      }
      ret := DeviceOk;
    }

    /** `OnState`, BeforeGet: the property shows the cached position; the port is
        not touched. */
    method OnStateBeforeGet() returns (ret: int, value: int)
      ensures ret == DeviceOk && value == position
    {
      ret, value := DeviceOk, position;
    }

    /** `OnState`, AfterSet: restarts the busy timer; a position outside 0..numPos-1
        is refused and the property reverted to the cached position; a valid one is
        sent as "pos=N" + CR and cached, whatever the write reports. */
    method OnStateAfterSet(pos: int64, now: int) returns (ret: int, value: int)
      modifies this`changedTime, this`position, channel
      ensures changedTime == now
      ensures !(0 <= pos < numPos) ==>
        ret == WheelErrUnknownPosition && value == position == old(position) && unchanged(channel)
      ensures 0 <= pos < numPos ==>
        && ret == DeviceOk && value == position == pos
        && channel.trace == old(channel.trace) + [Sent(MoveCommand(pos) + CR)]
        && channel.writeCount == old(channel.writeCount) + 1
        && channel.readCount == old(channel.readCount) && channel.props == old(channel.props)
    {
      changedTime := now;
      RejectsExactlyOutOfRange(pos, numPos);
      if ToUnsigned64(pos) >= numPos || pos < 0 {
        return WheelErrUnknownPosition, position;
      }
      var _ := channel.Write(MoveCommand(pos) + CR);
      position := pos;
      ret, value := DeviceOk, pos;
    }

    /** `OnCOMPort`, BeforeGet: the property shows the port name. */
    method OnCOMPortBeforeGet() returns (ret: int, value: string)
      ensures ret == DeviceOk && value == port
    {
      ret, value := DeviceOk, port;
    }

    /** `OnCOMPort`, AfterSet: before initialization the port takes the new value;
        afterwards the property is reset to the current port, which stays. */
    method OnCOMPortAfterSet(prop: string) returns (ret: int, value: string)
      modifies this`port
      ensures ret == DeviceOk && value == port
      ensures port == if initialized then old(port) else prop
    {
      value := prop;
      if initialized {
        value := port;
      }
      port := value;
      ret := DeviceOk;
    }

    /** `InitializeFilterWheel`: turns the sensors off, asks for the position and
        caches the number read back; statuses are ignored, and an unreadable answer
        reads as position 0. */
    method InitializeFilterWheel()
      modifies this`position, channel
      ensures channel.trace == old(channel.trace) + [Sent("sensors=0" + CR), Sent("pos?" + CR)]
      ensures var reply := old(channel.NextReply());
        position == ParseInt(if reply.status == DeviceOk then reply.text else "")
      ensures channel.writeCount == old(channel.writeCount) + 2
      ensures channel.readCount == old(channel.readCount) + 1
      ensures channel.props == old(channel.props)
    {
      var _ := channel.Write("sensors=0" + CR);
      var _ := channel.Write("pos?" + CR);
      var ans := "";
      var ret, answer := channel.ReadAnswer();
      if ret == DeviceOk {
        ans := answer;
      }
      position := ParseInt(ans);
    }
  }

  /** A move through the wheel is reported by the next BeforeGet, and the wheel is
      busy at once and idle when the delay has passed. */
  lemma SettleWindow(w: ArduinoFilterWheel, delayMs: nat, later: int)
    requires later >= w.changedTime + delayMs * 1000
    ensures delayMs > 0 ==> w.Busy(w.changedTime, delayMs)
    ensures !w.Busy(later, delayMs)
  {
  }

  /** Once idle, the wheel stays idle until the next state change. */
  lemma IdleStaysIdle(w: ArduinoFilterWheel, delayMs: int, t1: int, t2: int)
    requires t1 <= t2 && !w.Busy(t1, delayMs)
    ensures !w.Busy(t2, delayMs)
  {
  }

  /** A wheel on a port that always accepts writes and answers "4". */
  method NewWheel() returns (w: ArduinoFilterWheel)
    ensures fresh(w) && fresh(w.channel) && !w.initialized && w.position == 0 && w.labels == map[]
    ensures w.channel.trace == []
  {
    var ch := new Channel(k => DeviceOk, k => Reply(DeviceOk, "4"), map[AnswerTimeoutKey := "300.0"]);
    w := new ArduinoFilterWheel(ch);
  }

  /** A valid move is cached and reported, the wheel is busy right after it and idle
      once the delay has passed; an invalid move is refused and changes nothing. */
  method MoveScenario() returns (moved: int, shown: int, busyAtOnce: bool, busyLater: bool, refused: int, kept: int)
    ensures moved == DeviceOk && shown == 3 && busyAtOnce && !busyLater
    ensures refused == WheelErrUnknownPosition && kept == 3
  {
    var w := NewWheel();
    var v;
    moved, v := w.OnStateAfterSet(3, 5000);
    var _, s := w.OnStateBeforeGet();
    shown := s;
    busyAtOnce, busyLater := w.Busy(5000, 100), w.Busy(5000 + 100 * 1000, 100);
    refused, kept := w.OnStateAfterSet(-1, 6000);
  }

  /** As written, the labels run to position numPos = 6, which the wheel refuses:
      "Filter 6" names a position no move can reach. */
  method UnreachableLabelScenario() returns (shownLabel: string, ret: int)
    ensures shownLabel == "Filter 6" && ret == WheelErrUnknownPosition
  {
    var w := NewWheel();
    var _ := w.Initialize(HostCalls(DeviceOk, DeviceOk, DeviceOk, DeviceOk, DeviceOk), 0);
    assert DecimalText(6) == "6";
    shownLabel := w.labels[6];
    var reverted;
    ret, reverted := w.OnStateAfterSet(6, 10);
  }
}
