/**
 * The boundary to the vendor libraries (libiruvc, libirtemp, the sample's data.c) and libc.
 * Their source is not part of this model: each call is recorded in a shared log, and the value
 * it returns is whatever the caller of the binding supplies, so every branch of the bindings is
 * verified for every possible SDK outcome.
 */
module Vendor {

  /** One call into the vendor SDK (or into libc's sleep), in the order the bindings issue them. */
  datatype Call =
    // libiruvc, used by python_bindings_tiny.cpp
    | UvcCameraInit
    | UvcCameraList
    | UvcCameraInfoGet
    | UvcCameraOpen
    | VdcmdSetPollingWaitTime(ms: int)
    | VdcmdInit
    | UvcCameraStreamStart
    | Y16PreviewStart
    | UvcCameraStreamClose
    | UvcCameraClose
    | UvcCameraRelease
    | UvcFrameGet
    // the sample layer used by python_bindings.cpp
    | IrCameraOpen
    | LoadStreamFrameInfo
    | CommandInit
    | IrCameraStreamOn
    | IrCameraStreamOff
    | IrCameraClose
    | RawDataCut
    // libc
    | Sleep(seconds: int)

  /** The SDK as one process-wide object: the calls made so far. */
  class Sdk {
    var log: seq<Call>

    constructor ()
      ensures log == []
    {
      log := [];
    }

    /** A call whose integer result the binding inspects; `outcome` is what the SDK returned. */
    method Invoke(c: Call, outcome: int) returns (r: int)
      modifies this
      ensures r == outcome
      ensures log == old(log) + [c]
    {
      r := outcome;
      log := log + [c];
    }

    /** A call whose result the binding ignores. */
    method Perform(c: Call)
      modifies this
      ensures log == old(log) + [c]
    {
      log := log + [c];
    }
  }
}
