/**
 * SimpleThermalCamera of python_bindings_tiny.cpp: a session over the libiruvc SDK with three
 * flags, three heap buffers allocated by start_streaming and the frame geometry fixed by
 * open_camera. Every SDK result is a parameter of the method that receives it, and every SDK
 * call is appended to the shared log, so each branch is verified for every SDK outcome.
 *
 * The C++ heap is modelled by the ghost set `heap`: the buffers this camera allocated with
 * new[] and has not yet released with delete[]. A buffer in `heap` that no field points to any
 * more has leaked.
 */
module TinyCamera {
  import opened Ints
  import opened Vendor
  import opened NdArrays
  import opened TinyDevices

  /** The empty py::array_t<uint16_t>() returned when no frame is available. */
  const NO_FRAME: NdArray := NdArray([0], [])

  /** The calls of a successful open_camera, preceded by uvc_camera_init when the SDK is not yet initialized. */
  function OpenProtocol(initialized: bool): seq<Call> {
    (if initialized then [] else [UvcCameraInit])
    + [UvcCameraList, UvcCameraInfoGet, UvcCameraOpen, VdcmdSetPollingWaitTime(POLLING_WAIT_MS), VdcmdInit]
  }

  /** Whether open_camera succeeds on a closed camera, given each SDK result and the matched slot. */
  predicate OpenSucceeds(initialized: bool, initResult: int, listResult: int, devIndex: int,
                         infoResult: int, openResult: int)
  {
    (initialized || initResult == IRUVC_SUCCESS)
    && listResult >= 0 && devIndex >= 0 && infoResult >= 0 && openResult >= 0
  }

  /** The SDK calls open_camera makes once the SDK is initialized: it stops at the first step that fails. */
  function DeviceTrace(listResult: int, devIndex: int, infoResult: int, openResult: int): seq<Call> {
    if listResult < 0 || devIndex < 0 then [UvcCameraList]
    else if infoResult < 0 then [UvcCameraList, UvcCameraInfoGet]
    else if openResult < 0 then [UvcCameraList, UvcCameraInfoGet, UvcCameraOpen]
    else [UvcCameraList, UvcCameraInfoGet, UvcCameraOpen, VdcmdSetPollingWaitTime(POLLING_WAIT_MS), VdcmdInit]
  }

  /** The SDK calls open_camera makes on a closed camera, initializing on demand. */
  function OpenTrace(initialized: bool, initResult: int, listResult: int, devIndex: int,
                     infoResult: int, openResult: int): seq<Call>
  {
    if initialized then DeviceTrace(listResult, devIndex, infoResult, openResult)
    else if initResult != IRUVC_SUCCESS then [UvcCameraInit]
    else [UvcCameraInit] + DeviceTrace(listResult, devIndex, infoResult, openResult)
  }

  /**
   * open_camera always issues a prefix of its protocol, and the whole protocol exactly when it
   * succeeds: a failed open never configures the command channel.
   */
  lemma OpenTraceIsProtocolPrefix(initialized: bool, initResult: int, listResult: int, devIndex: int,
                                  infoResult: int, openResult: int)
    ensures var trace := OpenTrace(initialized, initResult, listResult, devIndex, infoResult, openResult);
            trace <= OpenProtocol(initialized)
            && (trace == OpenProtocol(initialized)
                <==> OpenSucceeds(initialized, initResult, listResult, devIndex, infoResult, openResult))
  {
  }

  /** The SDK calls start_streaming makes on an open, idle camera. */
  function StartTrace(streamResult: int, enableTemperatureMode: bool, waitSeconds: int): seq<Call> {
    [UvcCameraStreamStart]
    + (if streamResult >= 0 && enableTemperatureMode then [Sleep(waitSeconds), Y16PreviewStart] else [])
  }

  class SimpleThermalCamera {
    const sdk: Sdk
    var isInitialized: bool
    var isOpen: bool
    var isStreaming: bool
    var cameraParam: CameraParam
    var rawFrameBuffer: array?<u8>
    var imageFrameBuffer: array?<u8>
    var tempFrameBuffer: array?<u8>
    var frameSize: nat
    var imageWidth: nat
    var imageHeight: nat
    var tempWidth: nat
    var tempHeight: nat
    /** The buffers allocated by this camera and not yet deleted. */
    ghost var heap: set<array<u8>>

    /** The buffer fields that are not null. */
    ghost function Owned(): set<array<u8>>
      reads this
    {
      (if rawFrameBuffer != null then {rawFrameBuffer} else {})
      + (if imageFrameBuffer != null then {imageFrameBuffer} else {})
      + (if tempFrameBuffer != null then {tempFrameBuffer} else {})
    }

    ghost function Buffers(): (array?<u8>, array?<u8>, array?<u8>)
      reads this
    {
      (rawFrameBuffer, imageFrameBuffer, tempFrameBuffer)
    }

    ghost function Geometry(): (CameraParam, nat, nat, nat, nat, nat)
      reads this
    {
      (cameraParam, frameSize, imageWidth, imageHeight, tempWidth, tempHeight)
    }

    /** What holds between calls: the flags are nested, a stream owns its three buffers, and every buffer held is live. */
    ghost predicate Valid()
      reads this
    {
      (isStreaming ==> isOpen)
      && (isOpen ==> isInitialized)
      && (isOpen ==>
            frameSize == cameraParam.frameSize
            && imageWidth == tempWidth == cameraParam.width
            && imageHeight == tempHeight == cameraParam.height / 2)
      && (isStreaming ==>
            rawFrameBuffer != null && imageFrameBuffer != null && tempFrameBuffer != null
            && rawFrameBuffer != imageFrameBuffer && rawFrameBuffer != tempFrameBuffer
            && imageFrameBuffer != tempFrameBuffer
            && rawFrameBuffer.Length == frameSize
            && imageFrameBuffer.Length == ImageBytes(imageWidth, imageHeight)
            && tempFrameBuffer.Length == FrameSize(tempWidth, tempHeight))
      && Owned() <= heap
    }

    /** Every live buffer is held by a field. */
    ghost predicate NoLeak()
      reads this
    {
      heap == Owned()
    }

    /** The discipline under which nothing leaks: buffers are held exactly while streaming. */
    ghost predicate Tidy()
      reads this
    {
      NoLeak() && (!isStreaming ==> Owned() == {})
    }

    constructor (sdk: Sdk)
      ensures this.sdk == sdk
      ensures !isInitialized && !isOpen && !isStreaming
      ensures Buffers() == (null, null, null) && frameSize == 0
      ensures heap == {}
      ensures Valid() && Tidy()
    {
      this.sdk := sdk;
      isInitialized, isOpen, isStreaming := false, false, false;
      cameraParam := NO_PARAM;
      rawFrameBuffer, imageFrameBuffer, tempFrameBuffer := null, null, null;
      frameSize := 0;
      imageWidth, imageHeight, tempWidth, tempHeight := 0, 0, 0, 0;
      heap := {};
    }

    /** initialize: idempotent; a failed uvc_camera_init leaves the SDK uninitialized. */
    method Initialize(initResult: int) returns (ok: bool)
      requires Valid()
      modifies this, sdk
      ensures Valid()
      ensures old(isInitialized) ==> ok && sdk.log == old(sdk.log)
      ensures !old(isInitialized) ==> ok == (initResult == IRUVC_SUCCESS) && sdk.log == old(sdk.log) + [UvcCameraInit]
      ensures isInitialized == ok
      ensures isOpen == old(isOpen) && isStreaming == old(isStreaming)
      ensures Buffers() == old(Buffers()) && Geometry() == old(Geometry()) && heap == old(heap)
      ensures old(Tidy()) ==> Tidy()
    {
      if isInitialized {
        return true;
      }
      var result := sdk.Invoke(UvcCameraInit, initResult);
      if result == IRUVC_SUCCESS {
        isInitialized := true;
        return true;
      }
      return false;
    }

    /** get_device_list: initializes on demand, then reports the slots before the first empty one. */
    method GetDeviceList(initResult: int, listResult: int, table: seq<DevCfg>) returns (ok: bool, devices: seq<DeviceInfo>)
      requires Valid() && |table| == DEVICE_SLOTS
      modifies this, sdk
      ensures Valid()
      ensures isInitialized == (old(isInitialized) || initResult == IRUVC_SUCCESS)
      ensures ok <==> isInitialized && listResult >= 0
      ensures devices == if ok then Listing(table) else []
      ensures sdk.log == old(sdk.log) + (if old(isInitialized) then [] else [UvcCameraInit])
                         + (if isInitialized then [UvcCameraList] else [])
      ensures isOpen == old(isOpen) && isStreaming == old(isStreaming)
      ensures Buffers() == old(Buffers()) && Geometry() == old(Geometry()) && heap == old(heap)
      ensures old(Tidy()) ==> Tidy()
    {
      if !isInitialized {
        var initialized := Initialize(initResult);
        if !initialized {
          return false, [];
        }
      }
      var result := sdk.Invoke(UvcCameraList, listResult);
      if result < 0 {
        return false, [];
      }
      devices := CollectDevices(table);
      ok := true;
    }

    /** The camera parameters and plane sizes open_camera records for the chosen device and its first stream. */
    method SetStream(dev: DevCfg, s: StreamInfo)
      modifies this
      ensures cameraParam == OpenedParam(dev, s)
      ensures frameSize == cameraParam.frameSize
      ensures imageWidth == tempWidth == cameraParam.width
      ensures imageHeight == tempHeight == cameraParam.height / 2
      ensures isInitialized == old(isInitialized) && isOpen == old(isOpen) && isStreaming == old(isStreaming)
      ensures Buffers() == old(Buffers()) && heap == old(heap)
    {
      cameraParam := CameraParam(dev, s.format, s.width, s.height, s.fps, TIMEOUT_MS, FrameSize(s.width, s.height));
      imageWidth := cameraParam.width;
      imageHeight := cameraParam.height / 2;
      tempWidth := cameraParam.width;
      tempHeight := cameraParam.height / 2;
      frameSize := cameraParam.frameSize;
    }

    /**
     * open_camera: idempotent; initializes on demand, opens the first slot matching both ids and
     * fixes the geometry from the first stream the camera describes.
     */
    method OpenCamera(vid: int, pid: int, initResult: int, listResult: int, table: seq<DevCfg>,
                      infoResult: int, streams: seq<StreamInfo>, openResult: int) returns (ok: bool)
      requires Valid() && |table| == DEVICE_SLOTS && |streams| == STREAM_SLOTS
      modifies this, sdk
      ensures Valid()
      ensures old(isOpen) ==>
                ok && sdk.log == old(sdk.log) && isInitialized == old(isInitialized) && Geometry() == old(Geometry())
      ensures !old(isOpen) ==>
                var devIndex := FirstMatch(table, vid, pid);
                && (ok <==> OpenSucceeds(old(isInitialized), initResult, listResult, devIndex, infoResult, openResult))
                && sdk.log == old(sdk.log) + OpenTrace(old(isInitialized), initResult, listResult, devIndex, infoResult, openResult)
                && isInitialized == (old(isInitialized) || initResult == IRUVC_SUCCESS)
                && (ok ==> cameraParam == OpenedParam(table[devIndex], streams[0]))
                && (!ok ==> Geometry() == old(Geometry()))
      ensures ok ==> frameSize == cameraParam.frameSize
                     && imageWidth == tempWidth == cameraParam.width
                     && imageHeight == tempHeight == cameraParam.height / 2
      ensures isOpen == ok
      ensures isStreaming == old(isStreaming)
      ensures Buffers() == old(Buffers()) && heap == old(heap)
      ensures old(Tidy()) ==> Tidy()
    {
      if isOpen {
        return true;
      }
      if !isInitialized {
        var initialized := Initialize(initResult);
        if !initialized {
          return false;
        }
      }
      ok := OpenDevice(vid, pid, listResult, table, infoResult, streams, openResult);
    }

    /** The part of open_camera after initialization: list, choose, query, open, configure. */
    method OpenDevice(vid: int, pid: int, listResult: int, table: seq<DevCfg>,
                      infoResult: int, streams: seq<StreamInfo>, openResult: int) returns (ok: bool)
      requires Valid() && isInitialized && !isOpen
      requires |table| == DEVICE_SLOTS && |streams| == STREAM_SLOTS
      modifies this, sdk
      ensures Valid()
      ensures var devIndex := FirstMatch(table, vid, pid);
              && (ok <==> listResult >= 0 && devIndex >= 0 && infoResult >= 0 && openResult >= 0)
              && sdk.log == old(sdk.log) + DeviceTrace(listResult, devIndex, infoResult, openResult)
              && (ok ==> cameraParam == OpenedParam(table[devIndex], streams[0]))
      ensures !ok ==> Geometry() == old(Geometry())
      ensures ok ==> frameSize == cameraParam.frameSize
                     && imageWidth == tempWidth == cameraParam.width
                     && imageHeight == tempHeight == cameraParam.height / 2
      ensures isOpen == ok
      ensures isInitialized && isStreaming == old(isStreaming)
      ensures Buffers() == old(Buffers()) && heap == old(heap)
      ensures old(Tidy()) ==> Tidy()
    {
      var result := sdk.Invoke(UvcCameraList, listResult);
      if result < 0 {
        return false;
      }
      var devIndex := FindDevice(table, vid, pid);
      if devIndex < 0 {
        return false;
      }
      result := sdk.Invoke(UvcCameraInfoGet, infoResult);
      if result < 0 {
        return false;
      }
      result := sdk.Invoke(UvcCameraOpen, openResult);
      if result < 0 {
        return false;
      }
      sdk.Perform(VdcmdSetPollingWaitTime(POLLING_WAIT_MS));
      sdk.Perform(VdcmdInit);
      SetStream(table[devIndex], streams[0]);
      isOpen := true;
      return true;
    }

    /** The three new[] of start_streaming: fresh buffers sized by the geometry open_camera fixed. */
    method AllocateBuffers()
      modifies this
      ensures fresh(rawFrameBuffer) && fresh(imageFrameBuffer) && fresh(tempFrameBuffer)
      ensures rawFrameBuffer != null && imageFrameBuffer != null && tempFrameBuffer != null
      ensures rawFrameBuffer != imageFrameBuffer && rawFrameBuffer != tempFrameBuffer
      ensures imageFrameBuffer != tempFrameBuffer
      ensures rawFrameBuffer.Length == frameSize
      ensures imageFrameBuffer.Length == ImageBytes(imageWidth, imageHeight)
      ensures tempFrameBuffer.Length == FrameSize(tempWidth, tempHeight)
      ensures heap == old(heap) + Owned()
      ensures isInitialized == old(isInitialized) && isOpen == old(isOpen) && isStreaming == old(isStreaming)
      ensures Geometry() == old(Geometry())
    {
      var raw := new u8[frameSize];
      var image := new u8[ImageBytes(imageWidth, imageHeight)];
      var temp := new u8[FrameSize(tempWidth, tempHeight)];
      rawFrameBuffer, imageFrameBuffer, tempFrameBuffer := raw, image, temp;
      heap := heap + {raw, image, temp};
    }

    /** delete[] of every buffer the fields hold, each pointer then reset to null. */
    method ReleaseBuffers()
      modifies this
      ensures Buffers() == (null, null, null)
      ensures heap == old(heap) - old(Owned())
      ensures isInitialized == old(isInitialized) && isOpen == old(isOpen) && isStreaming == old(isStreaming)
      ensures Geometry() == old(Geometry())
    {
      heap := heap - Owned();
      rawFrameBuffer, imageFrameBuffer, tempFrameBuffer := null, null, null;
    }

    /**
     * start_streaming: refused unless open and idle; allocates the three buffers, releases them
     * again when the stream does not start, and succeeds once it starts whatever y16_preview_start
     * answers. The pointers it overwrites are not released.
     */
    method StartStreaming(enableTemperatureMode: bool, waitSeconds: int, streamResult: int, previewResult: int)
      returns (ok: bool)
      requires Valid()
      modifies this, sdk
      ensures Valid()
      ensures !old(isOpen) || old(isStreaming) ==>
                !ok && isStreaming == old(isStreaming) && sdk.log == old(sdk.log)
                && Buffers() == old(Buffers()) && heap == old(heap)
      ensures old(isOpen) && !old(isStreaming) ==>
                ok == (streamResult >= 0)
                && sdk.log == old(sdk.log) + StartTrace(streamResult, enableTemperatureMode, waitSeconds)
      ensures old(isOpen) && !old(isStreaming) && !ok ==>
                !isStreaming && Buffers() == (null, null, null) && heap == old(heap)
      ensures ok ==>
                isStreaming && fresh(rawFrameBuffer) && fresh(imageFrameBuffer) && fresh(tempFrameBuffer)
                && heap == old(heap) + Owned()
      ensures ok ==> (NoLeak() <==> old(heap) == {})
      ensures isInitialized == old(isInitialized) && isOpen == old(isOpen) && Geometry() == old(Geometry())
      ensures old(Tidy()) ==> Tidy()
    {
      if !isOpen || isStreaming {
        return false;
      }
      AllocateBuffers();
      var result := sdk.Invoke(UvcCameraStreamStart, streamResult);
      if result < 0 {
        ReleaseBuffers();
        return false;
      }

      isStreaming := true;
      if enableTemperatureMode {
        sdk.Perform(Sleep(waitSeconds));
        result := sdk.Invoke(Y16PreviewStart, previewResult);
      }
      return true;
    }

    /**
     * stop_streaming as the source writes it: a no-op when idle; otherwise the stream is marked
     * stopped whatever uvc_camera_stream_close answers, and the buffers stay allocated.
     */
    method StopStreamingAsWritten(closeResult: int) returns (ok: bool)
      requires Valid()
      modifies this, sdk
      ensures Valid()
      ensures !old(isStreaming) ==> ok && sdk.log == old(sdk.log)
      ensures old(isStreaming) ==> ok == (closeResult >= 0) && sdk.log == old(sdk.log) + [UvcCameraStreamClose]
      ensures old(isStreaming) ==> Owned() != {} && !Tidy()
      ensures !isStreaming
      ensures isInitialized == old(isInitialized) && isOpen == old(isOpen) && Geometry() == old(Geometry())
      ensures Buffers() == old(Buffers()) && heap == old(heap)
    {
      if !isStreaming {
        return true;
      }
      var result := sdk.Invoke(UvcCameraStreamClose, closeResult);
      isStreaming := false;
      return result >= 0;
    }

    /** stop_streaming, corrected to release the buffers the stream owned, as the failure path of start_streaming does. */
    method StopStreaming(closeResult: int) returns (ok: bool)
      requires Valid()
      modifies this, sdk
      ensures Valid()
      ensures !old(isStreaming) ==> ok && sdk.log == old(sdk.log) && Buffers() == old(Buffers()) && heap == old(heap)
      ensures old(isStreaming) ==>
                ok == (closeResult >= 0) && sdk.log == old(sdk.log) + [UvcCameraStreamClose]
                && Buffers() == (null, null, null) && heap == old(heap) - old(Owned())
      ensures !isStreaming
      ensures isInitialized == old(isInitialized) && isOpen == old(isOpen) && Geometry() == old(Geometry())
      ensures old(Tidy()) ==> Tidy()
    {
      if !isStreaming {
        return true;
      }
      var result := sdk.Invoke(UvcCameraStreamClose, closeResult);
      isStreaming := false;
      ReleaseBuffers();
      return result >= 0;
    }

    /**
     * close_camera as the source writes it: a no-op when closed; otherwise stops an active stream
     * with the as-written stop, closes the device and keeps the SDK initialized. The buffers of a
     * stream closed this way stay allocated.
     */
    method CloseCamera(closeStreamResult: int) returns (ok: bool)
      requires Valid()
      modifies this, sdk
      ensures Valid()
      ensures ok
      ensures sdk.log == old(sdk.log) + (if old(isStreaming) then [UvcCameraStreamClose] else [])
                         + (if old(isOpen) then [UvcCameraClose] else [])
      ensures !isOpen && !isStreaming && isInitialized == old(isInitialized)
      ensures Buffers() == old(Buffers()) && heap == old(heap)
      ensures old(isStreaming) ==> Owned() != {} && !Tidy()
      ensures Geometry() == old(Geometry())
      ensures !old(isStreaming) && old(Tidy()) ==> Tidy()
    {
      if !isOpen {
        return true;
      }
      if isStreaming {
        var _ := StopStreamingAsWritten(closeStreamResult);
      }
      sdk.Perform(UvcCameraClose);
      isOpen := false;
      return true;
    }

    /** close_camera with the corrected stop: the buffers of an active stream are released. */
    method CloseCameraReleasing(closeStreamResult: int) returns (ok: bool)
      requires Valid()
      modifies this, sdk
      ensures Valid()
      ensures ok
      ensures sdk.log == old(sdk.log) + (if old(isStreaming) then [UvcCameraStreamClose] else [])
                         + (if old(isOpen) then [UvcCameraClose] else [])
      ensures !isOpen && !isStreaming && isInitialized == old(isInitialized)
      ensures old(isStreaming) ==> Buffers() == (null, null, null) && heap == old(heap) - old(Owned())
      ensures !old(isStreaming) ==> Buffers() == old(Buffers()) && heap == old(heap)
      ensures Geometry() == old(Geometry())
      ensures old(Tidy()) ==> Tidy()
    {
      if !isOpen {
        return true;
      }
      if isStreaming {
        var _ := StopStreaming(closeStreamResult);
      }
      sdk.Perform(UvcCameraClose);
      isOpen := false;
      return true;
    }

    /** get_camera_info: (width, height, fps) of the open stream, (0, 0, 0) when closed. */
    function CameraInfo(): (info: (int, int, int))
      reads this
      requires Valid()
      ensures !isOpen ==> info == (0, 0, 0)
      ensures isOpen ==> info.1 == cameraParam.height && info.2 == cameraParam.fps
      ensures isOpen ==> info.0 == imageWidth && info.1 / 2 == imageHeight
    {
      if !isOpen then (0, 0, 0) else (cameraParam.width, cameraParam.height, cameraParam.fps)
    }

    /**
     * get_raw_frame: empty unless streaming with a raw buffer and uvc_frame_get succeeds; then the
     * SDK's bytes fill the raw buffer, read as a height x width array of uint16 cells.
     */
    method GetRawFrame(getResult: int, delivered: seq<u8>) returns (frame: NdArray)
      requires Valid()
      requires rawFrameBuffer != null ==> |delivered| == rawFrameBuffer.Length
      modifies sdk, rawFrameBuffer
      ensures !old(isStreaming) || rawFrameBuffer == null ==> frame == NO_FRAME && sdk.log == old(sdk.log)
      ensures old(isStreaming) && rawFrameBuffer != null ==> sdk.log == old(sdk.log) + [UvcFrameGet]
      ensures old(isStreaming) && rawFrameBuffer != null && getResult < 0 ==> frame == NO_FRAME
      ensures old(isStreaming) && rawFrameBuffer != null && getResult >= 0 ==>
                rawFrameBuffer[..] == delivered
                && frame == NdArray([cameraParam.height, cameraParam.width], Words(delivered))
    {
      if !isStreaming || rawFrameBuffer == null {
        return NO_FRAME;
      }
      var result := sdk.Invoke(UvcFrameGet, getResult);
      if result < 0 {
        return NO_FRAME;
      }
      var raw := rawFrameBuffer;
      forall i | 0 <= i < raw.Length {
        raw[i] := delivered[i];
      }
      frame := NdArray([cameraParam.height, cameraParam.width], Words(delivered));
    }

    /**
     * cleanup (the destructor): stops, closes, releases the SDK and deletes whatever buffers the
     * fields still hold. Buffers dropped earlier stay allocated.
     */
    method Cleanup(closeStreamResult: int)
      requires Valid()
      modifies this, sdk
      ensures Valid()
      ensures !isInitialized && !isOpen && !isStreaming
      ensures Buffers() == (null, null, null)
      ensures heap == old(heap) - old(Owned())
      ensures sdk.log == old(sdk.log) + (if old(isStreaming) then [UvcCameraStreamClose] else [])
                         + (if old(isOpen) then [UvcCameraClose] else [])
                         + (if old(isInitialized) then [UvcCameraRelease] else [])
      ensures old(Tidy()) ==> heap == {}
    {
      if isStreaming {
        var _ := StopStreamingAsWritten(closeStreamResult);
      }
      if isOpen {
        var _ := CloseCamera(closeStreamResult);
      }
      if isInitialized {
        sdk.Perform(UvcCameraRelease);
        isInitialized := false;
      }
      ReleaseBuffers();
    }
  }

  // ---------------------------------------------------------------- restarting a stream

  /** A closed table with the default camera in its first slot, and a 256 x 384 stream. */
  function DefaultTable(): seq<DevCfg> {
    [DevCfg(DEFAULT_VID, DEFAULT_PID, None)] + seq(DEVICE_SLOTS - 1, _ => EMPTY_SLOT)
  }

  function DefaultStreams(): seq<StreamInfo> {
    seq(STREAM_SLOTS, _ => StreamInfo(0, 256, 384, 25))
  }

  /** Opens a fresh camera on the default device with every SDK call succeeding. */
  method OpenDefaultCamera() returns (cam: SimpleThermalCamera)
    ensures fresh(cam) && fresh(cam.sdk) && cam.Valid() && cam.Tidy() && cam.isOpen && !cam.isStreaming
  {
    var sdk := new Sdk();
    cam := new SimpleThermalCamera(sdk);
    var ok := cam.OpenCamera(DEFAULT_VID, DEFAULT_PID, IRUVC_SUCCESS, 0, DefaultTable(), 0, DefaultStreams(), 0);
    assert FirstMatch(DefaultTable(), DEFAULT_VID, DEFAULT_PID) == 0;
  }

  /** start, stop as written, start: the second start drops the first stream's three buffers. */
  method RestartLeaksAsWritten() returns (cam: SimpleThermalCamera, ghost leaked: set<array<u8>>)
    ensures cam.isStreaming && |leaked| == 3 && leaked <= cam.heap && leaked !! cam.Owned()
    ensures !cam.NoLeak()
  {
    cam := OpenDefaultCamera();
    var ok := cam.StartStreaming(false, 0, 0, 0);
    leaked := cam.Owned();
    assert |leaked| == 3;
    ok := cam.StopStreamingAsWritten(0);
    ok := cam.StartStreaming(false, 0, 0, 0);
  }

  /** start, stop, start with the corrected stop: every live buffer belongs to the running stream. */
  method RestartKeepsNoLeak() returns (cam: SimpleThermalCamera)
    ensures cam.isStreaming && cam.NoLeak() && |cam.heap| == 3
  {
    cam := OpenDefaultCamera();
    var ok := cam.StartStreaming(false, 0, 0, 0);
    ok := cam.StopStreaming(0);
    ok := cam.StartStreaming(false, 0, 0, 0);
    assert |cam.Owned()| == 3;
  }

  /** start, close as written, open, start: the second start drops the first stream's three buffers. */
  method ReopenLeaksAsWritten() returns (cam: SimpleThermalCamera, ghost leaked: set<array<u8>>)
    ensures cam.isStreaming && |leaked| == 3 && leaked <= cam.heap && leaked !! cam.Owned()
    ensures !cam.NoLeak()
  {
    cam := OpenDefaultCamera();
    var ok := cam.StartStreaming(false, 0, 0, 0);
    leaked := cam.Owned();
    assert |leaked| == 3;
    ok := cam.CloseCamera(0);
    ok := cam.OpenCamera(DEFAULT_VID, DEFAULT_PID, IRUVC_SUCCESS, 0, DefaultTable(), 0, DefaultStreams(), 0);
    assert FirstMatch(DefaultTable(), DEFAULT_VID, DEFAULT_PID) == 0;
    ok := cam.StartStreaming(false, 0, 0, 0);
  }

  /** start, close with the corrected stop, open, start: every live buffer belongs to the running stream. */
  method ReopenKeepsNoLeak() returns (cam: SimpleThermalCamera)
    ensures cam.isStreaming && cam.NoLeak() && |cam.heap| == 3
  {
    cam := OpenDefaultCamera();
    var ok := cam.StartStreaming(false, 0, 0, 0);
    ok := cam.CloseCameraReleasing(0);
    ok := cam.OpenCamera(DEFAULT_VID, DEFAULT_PID, IRUVC_SUCCESS, 0, DefaultTable(), 0, DefaultStreams(), 0);
    assert FirstMatch(DefaultTable(), DEFAULT_VID, DEFAULT_PID) == 0;
    ok := cam.StartStreaming(false, 0, 0, 0);
    assert |cam.Owned()| == 3;
  }
}
