/** Status codes shared by the adapter.

    The two hub headers define the same nine codes 101..109; the stand-alone
    wheel header defines its own two codes, and its ERR_UNKNOWN_POSITION (103)
    is not the hub headers' ERR_UNKNOWN_POSITION (101). */
module ErrorCodes {

  /** The framework's success code. */
  const DeviceOk: int := 0

  // ArduinoFilterWheel.h and ArduinoHub.h
  const ErrUnknownPosition: int := 101
  const ErrInitializeFailed: int := 102
  const ErrWriteFailed: int := 103
  const ErrCloseFailed: int := 104
  const ErrBoardNotFound: int := 105
  const ErrPortOpenFailed: int := 106
  const ErrCommunication: int := 107
  const ErrNoPortSet: int := 108
  const ErrVersionMismatch: int := 109

  // FilterWheel.h
  const WheelErrUnknownMode: int := 102
  const WheelErrUnknownPosition: int := 103

  /** The hub headers' codes, in declaration order. */
  const HubErrorCodes: seq<int> := [
    ErrUnknownPosition, ErrInitializeFailed, ErrWriteFailed, ErrCloseFailed,
    ErrBoardNotFound, ErrPortOpenFailed, ErrCommunication, ErrNoPortSet,
    ErrVersionMismatch
  ]

  /** Every hub error code names one failure only, and none of them is success. */
  lemma HubErrorCodesDistinct()
    ensures forall i, j :: 0 <= i < j < |HubErrorCodes| ==> HubErrorCodes[i] != HubErrorCodes[j]
    ensures DeviceOk !in HubErrorCodes
  {
  }

  /** The stand-alone wheel's "unknown position" has the same number as the hubs'
      "write failed", and a different number from the hubs' "unknown position".
      ArduinoHub.cpp includes both ArduinoHub.h and FilterWheel.h, so in that file
      the name ERR_UNKNOWN_POSITION stands for 103. */
  lemma WheelUnknownPositionCollides()
    ensures WheelErrUnknownPosition == ErrWriteFailed
    ensures WheelErrUnknownPosition != ErrUnknownPosition
  {
  }
}
