/**
 * ThermalCamera of python_bindings.cpp: a session over the sample layer (ir_camera_open,
 * ir_camera_stream_on, ...) whose state is split between two per-instance flags and two
 * process-wide globals, g_initialized and g_stream_frame_info. The globals are one shared
 * object, so what one instance does to them every other instance sees.
 */
module IrCamera {
  import opened Ints
  import opened Vendor
  import opened NdArrays

  /** width, height and fps of the camera stream. */
  datatype CameraInfo = CameraInfo(width: int, height: int, fps: int)

  /** Pixel dimensions of a plane. */
  datatype Plane = Plane(width: nat, height: nat)

  /**
   * StreamFrameInfo_t, reduced to what the bindings read: the camera parameters ir_camera_open
   * fills, and the plane geometry and byte sizes load_stream_frame_info derives from them.
   */
  datatype StreamFrameInfo = StreamFrameInfo(camera: CameraInfo, imageInfo: Plane, tempInfo: Plane,
                                             imageByteSize: nat, tempByteSize: nat)

  /** The zero-initialised g_stream_frame_info. */
  const ZERO_FRAME_INFO: StreamFrameInfo := StreamFrameInfo(CameraInfo(0, 0, 0), Plane(0, 0), Plane(0, 0), 0, 0)

  /** The numpy uint8 array of get_image_frame: shape and bytes in row-major order. */
  datatype ByteArray = ByteArray(shape: seq<nat>, data: seq<u8>) {

    /** A 3-D array has shape [rows, cols, channels] and holds their product of bytes. */
    ghost predicate WellFormed() {
      |shape| == 3 ==> |data| == shape[0] * shape[1] * shape[2]
    }
  }

  /** The empty arrays returned when no frame is available. */
  const NO_TEMPERATURE_FRAME: NdArray := NdArray([0], [])
  const NO_IMAGE_FRAME: ByteArray := ByteArray([0], [])

  /** Success code of the sample layer. */
  const IR_SUCCESS: int := 0
  /** The pause of start_stream before y16_preview_start, in seconds. */
  const PREVIEW_WAIT_SECONDS: int := 5

  /** The module-level state of the extension. */
  class Globals {
    var initialized: bool
    var streamFrameInfo: StreamFrameInfo

    constructor ()
      ensures !initialized && streamFrameInfo == ZERO_FRAME_INFO
    {
      initialized := false;
      streamFrameInfo := ZERO_FRAME_INFO;
    }
  }

  class ThermalCamera {
    const globals: Globals
    const sdk: Sdk
    /** Whether the extension was built with TEMP_OUTPUT or IMAGE_AND_TEMP_OUTPUT defined. */
    const temperatureBuild: bool
    var isOpen: bool
    var isStreaming: bool

    /** A stream is only ever started on an open camera. */
    ghost predicate Valid()
      reads this
    {
      isStreaming ==> isOpen
    }

    constructor (globals: Globals, sdk: Sdk, temperatureBuild: bool)
      ensures this.globals == globals && this.sdk == sdk && this.temperatureBuild == temperatureBuild
      ensures !isOpen && !isStreaming && Valid()
    {
      this.globals := globals;
      this.sdk := sdk;
      this.temperatureBuild := temperatureBuild;
      isOpen := false;
      isStreaming := false;
    }

    /**
     * open: idempotent. ir_camera_open writes the camera parameters `param` into the shared frame
     * info whatever it answers; on success the instance and the process are marked open and
     * load_stream_frame_info, which receives the whole shared frame info, leaves `loaded` in it.
     */
    method Open(openResult: int, param: CameraInfo, loaded: StreamFrameInfo) returns (ok: bool)
      requires Valid()
      modifies this, globals, sdk
      ensures Valid()
      ensures old(isOpen) ==> ok && sdk.log == old(sdk.log) && unchanged(globals)
      ensures !old(isOpen) ==> ok == (openResult == IR_SUCCESS)
      ensures !old(isOpen) && ok ==>
                globals.initialized && globals.streamFrameInfo == loaded
                && sdk.log == old(sdk.log) + [IrCameraOpen, LoadStreamFrameInfo, CommandInit]
      ensures !old(isOpen) && !ok ==>
                globals.initialized == old(globals.initialized)
                && globals.streamFrameInfo == old(globals.streamFrameInfo).(camera := param)
                && sdk.log == old(sdk.log) + [IrCameraOpen]
      ensures isOpen == (old(isOpen) || ok) && isStreaming == old(isStreaming)
    {
      if isOpen {
        return true;
      }
      var result := sdk.Invoke(IrCameraOpen, openResult);
      globals.streamFrameInfo := globals.streamFrameInfo.(camera := param);
      if result == IR_SUCCESS {
        isOpen := true;
        globals.initialized := true;
        sdk.Perform(LoadStreamFrameInfo);
        globals.streamFrameInfo := loaded;
        sdk.Perform(CommandInit);
        return true;
      }
      return false;
    }

    /**
     * stop_stream: a no-op when idle; otherwise the stream is marked stopped whatever the SDK
     * answers. ir_camera_stream_off receives the shared frame info and leaves `left` in it.
     */
    method StopStream(streamOffResult: int, left: StreamFrameInfo) returns (ok: bool)
      requires Valid()
      modifies this, globals, sdk
      ensures Valid()
      ensures !old(isStreaming) ==> ok && sdk.log == old(sdk.log) && unchanged(globals)
      ensures old(isStreaming) ==>
                ok == (streamOffResult == IR_SUCCESS) && sdk.log == old(sdk.log) + [IrCameraStreamOff]
                && globals.streamFrameInfo == left && globals.initialized == old(globals.initialized)
      ensures !isStreaming && isOpen == old(isOpen)
    {
      if !isStreaming {
        return true;
      }
      var result := sdk.Invoke(IrCameraStreamOff, streamOffResult);
      globals.streamFrameInfo := left;
      isStreaming := false;
      return result == IR_SUCCESS;
    }

    /**
     * close: a no-op when closed; otherwise stops an active stream, then clears this instance's
     * flag and the process-wide g_initialized whatever ir_camera_close answers. ir_camera_close
     * takes no argument, so the frame info is what the stop left, or unchanged without a stream.
     */
    method Close(streamOffResult: int, streamOffLeft: StreamFrameInfo, closeResult: int) returns (ok: bool)
      requires Valid()
      modifies this, globals, sdk
      ensures Valid()
      ensures !old(isOpen) ==> ok && sdk.log == old(sdk.log) && unchanged(globals)
      ensures old(isOpen) ==>
                ok == (closeResult == IR_SUCCESS) && !globals.initialized
                && globals.streamFrameInfo == (if old(isStreaming) then streamOffLeft else old(globals.streamFrameInfo))
                && sdk.log == old(sdk.log) + (if old(isStreaming) then [IrCameraStreamOff] else []) + [IrCameraClose]
      ensures !isOpen && !isStreaming
    {
      if !isOpen {
        return true;
      }
      if isStreaming {
        var _ := StopStream(streamOffResult, streamOffLeft);
      }
      var result := sdk.Invoke(IrCameraClose, closeResult);
      isOpen := false;
      globals.initialized := false;
      return result == IR_SUCCESS;
    }

    /**
     * start_stream: refused unless open and idle; succeeds exactly when ir_camera_stream_on does,
     * whatever y16_preview_start answers in a temperature build. ir_camera_stream_on receives the
     * shared frame info and leaves `left` in it, whatever it answers.
     */
    method StartStream(streamOnResult: int, left: StreamFrameInfo, previewResult: int) returns (ok: bool)
      requires Valid()
      modifies this, globals, sdk
      ensures Valid()
      ensures !old(isOpen) || old(isStreaming) ==> !ok && sdk.log == old(sdk.log) && unchanged(globals)
      ensures old(isOpen) && !old(isStreaming) ==>
                globals.streamFrameInfo == left && globals.initialized == old(globals.initialized)
      ensures old(isOpen) && !old(isStreaming) ==>
                ok == (streamOnResult == IR_SUCCESS)
                && sdk.log == old(sdk.log) + [IrCameraStreamOn]
                              + (if ok && temperatureBuild then [Sleep(PREVIEW_WAIT_SECONDS), Y16PreviewStart] else [])
      ensures isStreaming == (old(isStreaming) || ok) && isOpen == old(isOpen)
    {
      if !isOpen || isStreaming {
        return false;
      }
      var result := sdk.Invoke(IrCameraStreamOn, streamOnResult);
      globals.streamFrameInfo := left;
      if result == IR_SUCCESS {
        isStreaming := true;
        if temperatureBuild {
          sdk.Perform(Sleep(PREVIEW_WAIT_SECONDS));
          result := sdk.Invoke(Y16PreviewStart, previewResult);
        }
        return true;
      }
      return false;
    }

    /** The destructor: stops an active stream, then closes an open camera. */
    method Dispose(streamOffResult: int, streamOffLeft: StreamFrameInfo, closeResult: int)
      requires Valid()
      modifies this, globals, sdk
      ensures !isOpen && !isStreaming
      ensures old(isOpen) ==> !globals.initialized
      ensures !old(isOpen) ==> unchanged(globals)
      ensures globals.streamFrameInfo == (if old(isStreaming) then streamOffLeft else old(globals.streamFrameInfo))
      ensures sdk.log == old(sdk.log) + (if old(isStreaming) then [IrCameraStreamOff] else [])
                         + (if old(isOpen) then [IrCameraClose] else [])
    {
      if isStreaming {
        var _ := StopStream(streamOffResult, streamOffLeft);
      }
      if isOpen {
        var _ := Close(streamOffResult, streamOffLeft, closeResult);
      }
    }

    /** get_camera_info: the stream parameters while the process is initialized, (0, 0, 0) otherwise. */
    function GetCameraInfo(): (info: CameraInfo)
      reads globals
      ensures !globals.initialized ==> info == CameraInfo(0, 0, 0)
      ensures globals.initialized ==> info == globals.streamFrameInfo.camera
    {
      if !globals.initialized then CameraInfo(0, 0, 0) else globals.streamFrameInfo.camera
    }

    /** Whether get_temperature_frame gets as far as uvc_frame_get. */
    predicate TemperatureFrameReady()
      reads this, globals
    {
      isStreaming && globals.initialized && globals.streamFrameInfo.tempByteSize != 0
    }

    /**
     * get_temperature_frame: empty unless this instance streams, the process is initialized, the
     * temperature plane is non-empty and uvc_frame_get succeeds; then the temperature plane that
     * raw_data_cut separates, as a height x width array. `plane` is the height x width cells the
     * array reads from the temperature buffer.
     */
    method GetTemperatureFrame(getResult: int, plane: seq<u16>) returns (frame: NdArray)
      requires |plane| == globals.streamFrameInfo.tempInfo.height * globals.streamFrameInfo.tempInfo.width
      modifies sdk
      ensures !TemperatureFrameReady() ==> frame == NO_TEMPERATURE_FRAME && sdk.log == old(sdk.log)
      ensures TemperatureFrameReady() && getResult < 0 ==>
                frame == NO_TEMPERATURE_FRAME && sdk.log == old(sdk.log) + [UvcFrameGet]
      ensures TemperatureFrameReady() && getResult >= 0 ==>
                var t := globals.streamFrameInfo.tempInfo;
                frame == NdArray([t.height, t.width], plane) && sdk.log == old(sdk.log) + [UvcFrameGet, RawDataCut]
      ensures frame.WellFormed()
    {
      if !isStreaming || !globals.initialized || globals.streamFrameInfo.tempByteSize == 0 {
        return NO_TEMPERATURE_FRAME;
      }
      var result := sdk.Invoke(UvcFrameGet, getResult);
      if result < 0 {
        return NO_TEMPERATURE_FRAME;
      }
      sdk.Perform(RawDataCut);
      var t := globals.streamFrameInfo.tempInfo;
      frame := NdArray([t.height, t.width], plane);
    }

    /**
     * get_image_frame: empty unless this instance streams, the process is initialized and
     * uvc_frame_get succeeds; then the BGR888 image plane as a height x width x 3 array. Unlike
     * the temperature getter it does not look at the plane's byte size. `pixels` is the
     * height x width x 3 bytes the array reads from the image buffer.
     */
    method GetImageFrame(getResult: int, pixels: seq<u8>) returns (frame: ByteArray)
      requires |pixels| == globals.streamFrameInfo.imageInfo.height * globals.streamFrameInfo.imageInfo.width * 3
      modifies sdk
      ensures !(isStreaming && globals.initialized) ==> frame == NO_IMAGE_FRAME && sdk.log == old(sdk.log)
      ensures isStreaming && globals.initialized && getResult < 0 ==>
                frame == NO_IMAGE_FRAME && sdk.log == old(sdk.log) + [UvcFrameGet]
      ensures isStreaming && globals.initialized && getResult >= 0 ==>
                var p := globals.streamFrameInfo.imageInfo;
                frame == ByteArray([p.height, p.width, 3], pixels) && sdk.log == old(sdk.log) + [UvcFrameGet, RawDataCut]
      ensures frame.WellFormed()
    {
      if !isStreaming || !globals.initialized {
        return NO_IMAGE_FRAME;
      }
      var result := sdk.Invoke(UvcFrameGet, getResult);
      if result < 0 {
        return NO_IMAGE_FRAME;
      }
      sdk.Perform(RawDataCut);
      var p := globals.streamFrameInfo.imageInfo;
      frame := ByteArray([p.height, p.width, 3], pixels);
    }
  }

  // ---------------------------------------------------------------- two instances, one process

  /**
   * Two instances share g_initialized: after B opens and starts streaming, closing A makes B
   * report (0, 0, 0) and return no temperature frame, although B is still open and streaming.
   */
  method CloseOneBlindsTheOther(info: StreamFrameInfo)
    returns (a: ThermalCamera, b: ThermalCamera, bInfo: CameraInfo, bFrame: NdArray)
    requires info.camera != CameraInfo(0, 0, 0)
    ensures b.isOpen && b.isStreaming && !a.isOpen
    ensures bInfo == CameraInfo(0, 0, 0) && bFrame == NO_TEMPERATURE_FRAME
  {
    var globals := new Globals();
    var sdk := new Sdk();
    a := new ThermalCamera(globals, sdk, true);
    b := new ThermalCamera(globals, sdk, true);
    var ok := a.Open(IR_SUCCESS, info.camera, info);
    ok := b.Open(IR_SUCCESS, info.camera, info);
    ok := b.StartStream(IR_SUCCESS, info, 0);
    assert b.GetCameraInfo() == info.camera;
    ok := a.Close(IR_SUCCESS, info, IR_SUCCESS);
    bInfo := b.GetCameraInfo();
    var t := globals.streamFrameInfo.tempInfo;
    bFrame := b.GetTemperatureFrame(0, seq(t.height * t.width, _ => 0));
  }
}
