/** What both hubs' `DetectDevice` share: the port-name test, the classification of
    the probe, and the serial settings the probe leaves behind. */
module Detection {
  import opened ErrorCodes
  import opened Text
  import opened Serial

  datatype DetectionStatus = Misconfigured | CanNotCommunicate | CanCommunicate

  /** Status and firmware version reported by a handshake. */
  datatype Handshake = Handshake(ret: int, version: int)

  /** A port name worth probing: not empty and, ignoring case, neither "undefined"
      nor "unknown". */
  predicate UsablePortName(port: string)
    ensures UsablePortName(port) <==>
      0 < |port| && !SameIgnoringCase(port, "undefined") && !SameIgnoringCase(port, "unknown")
  {
    assert Lowered("undefined") == "undefined";
    assert Lowered("unknown") == "unknown";
    LoweredMatches(port, "undefined");
    LoweredMatches(port, "unknown");
    0 < |Lowered(port)| && Lowered(port) != "undefined" && Lowered(port) != "unknown"
  }

  /** `DetectDevice`'s lower-casing loop, over a copy of the port name. */
  method LowerCase(s: string) returns (t: string)
    ensures t == Lowered(s)
  {
    var buf := new char[|s|](i requires 0 <= i < |s| => s[i]);
    var k := 0;
    while k < buf.Length
      invariant 0 <= k <= buf.Length == |s|
      invariant forall j :: 0 <= j < k ==> buf[j] == ToLower(s[j])
      invariant forall j :: k <= j < buf.Length ==> buf[j] == s[j]
    {
      buf[k] := ToLower(buf[k]);
      k := k + 1;
    }
    t := buf[..];
  }

  /** The probe's verdict, from whether the hub is initialized, its port name and
      the status of the handshake (read only when the name is usable). */
  function DetectionOutcome(initialized: bool, port: string, handshakeRet: int): (r: DetectionStatus)
    ensures r == CanCommunicate <==> initialized || (UsablePortName(port) && handshakeRet == DeviceOk)
    ensures r == Misconfigured <==> !initialized && !UsablePortName(port)
  {
    if initialized then CanCommunicate
    else if !UsablePortName(port) then Misconfigured
    else if handshakeRet == DeviceOk then CanCommunicate
    else CanNotCommunicate
  }

  /** The port settings after a probe at `baud`: handshaking off, one stop bit, no
      delay between characters, and the answer time-out put back as it was. */
  function ProbeSettings(props: map<string, string>, baud: string): (after: map<string, string>)
    requires AnswerTimeoutKey in props
    ensures after.Keys == props.Keys + {HandshakingKey, BaudRateKey, StopBitsKey, DelayBetweenCharsKey}
    ensures after[AnswerTimeoutKey] == props[AnswerTimeoutKey]
    ensures after[HandshakingKey] == "Off" && after[BaudRateKey] == baud
    ensures after[StopBitsKey] == "1" && after[DelayBetweenCharsKey] == "0"
    ensures forall key :: key in props && key !in {HandshakingKey, BaudRateKey, StopBitsKey, DelayBetweenCharsKey} ==>
      after[key] == props[key]
  {
    props[HandshakingKey := "Off"][BaudRateKey := baud][StopBitsKey := "1"]
      [AnswerTimeoutKey := "500.0"][DelayBetweenCharsKey := "0"]
      [AnswerTimeoutKey := props[AnswerTimeoutKey]]
  }

  /** A second probe leaves the port as the first one did. */
  lemma ProbeSettingsIdempotent(props: map<string, string>, baud: string)
    requires AnswerTimeoutKey in props
    ensures ProbeSettings(ProbeSettings(props, baud), baud) == ProbeSettings(props, baud)
  {
  }

  /** Both hubs' constructors give the port property the default "Undefined", which
      the probe refuses whatever the case. */
  lemma DefaultPortNameMisconfigured(initialized: bool, ret: int)
    ensures !UsablePortName("Undefined") && !UsablePortName("UNKNOWN") && !UsablePortName("")
    ensures !initialized ==> DetectionOutcome(initialized, "Undefined", ret) == Misconfigured
  {
    assert Lowered("Undefined") == "undefined";
    assert Lowered("UNKNOWN") == "unknown";
  }

  /** Any port name other than the two reserved words is probed, e.g. "COM7". */
  lemma NamedPortIsProbed()
    ensures UsablePortName("COM7")
  {
    assert Lowered("COM7") == "com7";
  }
}
