/**
 * The device table of python_bindings_tiny.cpp: the 64 DevCfg_t slots uvc_camera_list fills,
 * how open_camera picks a device from them and how get_device_list reports them, and the
 * frame geometry open_camera derives from the first stream the camera describes.
 */
module TinyDevices {
  import opened Ints
  import opened NdArrays

  const IRUVC_SUCCESS: int := 0
  /** Slots in the table handed to uvc_camera_list. */
  const DEVICE_SLOTS: nat := 64
  /** Slots in the table handed to uvc_camera_info_get. */
  const STREAM_SLOTS: nat := 32
  /** Default vendor and product ids of open_camera (the Tiny1-C module). */
  const DEFAULT_VID: int := 0x0BDA
  const DEFAULT_PID: int := 0x5840
  /** Arguments open_camera passes to vdcmd_set_polling_wait_time and stores as timeout_ms_delay. */
  const POLLING_WAIT_MS: int := 10000
  const TIMEOUT_MS: int := 1000

  datatype Option<T> = None | Some(value: T)

  /** DevCfg_t: one slot of the device table; a slot the SDK leaves untouched stays all zero. */
  datatype DevCfg = DevCfg(vid: int, pid: int, name: Option<string>)

  const EMPTY_SLOT: DevCfg := DevCfg(0, 0, None)

  /** One entry of the list get_device_list returns: the dict {vid, pid, name}. */
  datatype DeviceInfo = DeviceInfo(vid: int, pid: int, name: string)

  /** CameraStreamInfo_t, reduced to what open_camera reads (fps is the first entry of its fps list). */
  datatype StreamInfo = StreamInfo(format: int, width: nat, height: nat, fps: int)

  /** CameraParam_t as open_camera fills it. */
  datatype CameraParam = CameraParam(devCfg: DevCfg, format: int, width: nat, height: nat, fps: int,
                                     timeoutMs: int, frameSize: nat)

  const NO_PARAM: CameraParam := CameraParam(EMPTY_SLOT, 0, 0, 0, 0, 0, 0)

  // ---------------------------------------------------------------- choosing a device

  /** The test of open_camera's scan: both ids match. */
  predicate IsDevice(d: DevCfg, vid: int, pid: int) {
    d.vid == vid && d.pid == pid
  }

  /** The index open_camera settles on: the first slot matching both ids, or -1. */
  function FirstMatch(table: seq<DevCfg>, vid: int, pid: int): (i: int)
    ensures -1 <= i < |table|
    ensures i >= 0 ==> IsDevice(table[i], vid, pid)
    ensures i >= 0 ==> forall k :: 0 <= k < i ==> !IsDevice(table[k], vid, pid)
    ensures i < 0 ==> forall k :: 0 <= k < |table| ==> !IsDevice(table[k], vid, pid)
  {
    if table == [] then -1
    else if IsDevice(table[0], vid, pid) then 0
    else
      var j := FirstMatch(table[1..], vid, pid);
      if j < 0 then -1 else j + 1
  }

  /** The search loop of open_camera, breaking at the first match. */
  method FindDevice(table: seq<DevCfg>, vid: int, pid: int) returns (devIndex: int)
    requires |table| == DEVICE_SLOTS
    ensures devIndex == FirstMatch(table, vid, pid)
  {
    devIndex := -1;
    var i := 0;
    while i < DEVICE_SLOTS
      invariant 0 <= i <= DEVICE_SLOTS
      invariant forall k :: 0 <= k < i ==> !IsDevice(table[k], vid, pid)
    {
      if IsDevice(table[i], vid, pid) {
        devIndex := i;
        break;
      }
      i := i + 1;
    }
  }

  // ---------------------------------------------------------------- listing devices

  /** The dict get_device_list builds from a slot; a null name becomes "". */
  function Info(d: DevCfg): DeviceInfo {
    DeviceInfo(d.vid, d.pid, if d.name.Some? then d.name.value else "")
  }

  /** What get_device_list reports: the slots before the first one whose vid is 0. */
  function Listing(table: seq<DevCfg>): (devices: seq<DeviceInfo>)
    ensures |devices| <= |table|
    ensures forall k :: 0 <= k < |devices| ==> table[k].vid != 0 && devices[k] == Info(table[k])
    ensures |devices| < |table| ==> table[|devices|].vid == 0
  {
    if table == [] || table[0].vid == 0 then []
    else [Info(table[0])] + Listing(table[1..])
  }

  /** The listing loop of get_device_list, which stops at the first empty slot. */
  method CollectDevices(table: seq<DevCfg>) returns (devices: seq<DeviceInfo>)
    requires |table| == DEVICE_SLOTS
    ensures devices == Listing(table)
  {
    ghost var listed := Listing(table);
    devices := [];
    var i := 0;
    while i < DEVICE_SLOTS && table[i].vid != 0
      invariant 0 <= i <= |listed|
      invariant devices == listed[..i]
    {
      assert i < |listed|;
      devices := devices + [Info(table[i])];
      i := i + 1;
    }
    assert i == |listed|;
  }

  /** Every listed device can be opened by its ids (open_camera may pick an earlier slot with the same ids). */
  lemma ListedDeviceOpens(table: seq<DevCfg>, k: int)
    requires 0 <= k < |Listing(table)|
    ensures 0 <= FirstMatch(table, table[k].vid, table[k].pid) <= k
  {
  }

  /** No slot with a non-zero vid follows an empty slot. */
  ghost predicate Packed(table: seq<DevCfg>) {
    forall i, j :: 0 <= i < j < |table| && table[i].vid == 0 ==> table[j].vid == 0
  }

  /** On a packed table, a device open_camera finds by a non-zero vid is one get_device_list reports. */
  lemma PackedOpenIsListed(table: seq<DevCfg>, vid: int, pid: int)
    requires Packed(table) && vid != 0
    ensures FirstMatch(table, vid, pid) < |Listing(table)|
  {
    var n := |Listing(table)|;
    if n < |table| {
      assert forall j :: n <= j < |table| ==> table[j].vid == 0;
    }
  }

  /**
   * open_camera scans all 64 slots, the zeroed ones included: asked for vid 0 and pid 0 it opens
   * an empty slot, one get_device_list never reports.
   */
  lemma OpenReachesEmptySlot(table: seq<DevCfg>, k: int)
    requires 0 <= k < |table| && table[k].vid == 0 && table[k].pid == 0
    ensures 0 <= FirstMatch(table, 0, 0) <= k
    ensures FirstMatch(table, 0, 0) >= |Listing(table)|
  {
  }

  // ---------------------------------------------------------------- frame geometry

  /**
   * Bytes of a plane of 16-bit cells in uint32_t arithmetic: camera_param.frame_size, and the
   * size of start_streaming's temperature buffer.
   */
  function FrameSize(width: nat, height: nat): (n: nat)
    ensures n < U32_MODULUS
    ensures width * height * 2 < U32_MODULUS ==> n == 2 * (width * height)
  {
    U32(width * height * 2)
  }

  /** Size of the BGR888 image buffer of start_streaming, in uint32_t arithmetic. */
  function ImageBytes(width: nat, height: nat): (n: nat)
    ensures n < U32_MODULUS
    ensures width * height * 3 < U32_MODULUS ==> n == 3 * (width * height)
  {
    U32(width * height * 3)
  }

  /** The parameters open_camera stores for the device in slot `dev`, streaming as `s` describes. */
  function OpenedParam(dev: DevCfg, s: StreamInfo): CameraParam {
    CameraParam(dev, s.format, s.width, s.height, s.fps, TIMEOUT_MS, FrameSize(s.width, s.height))
  }

  lemma HalfRows(w: nat, h: nat)
    requires h % 2 == 0
    ensures 2 * (w * (h / 2)) == w * h
  {
    var k := h / 2;
    assert h == 2 * k;
    assert w * h == w * (2 * k) == 2 * (w * k);
  }

  /**
   * A frame of even height splits exactly into the image plane and the temperature plane, each
   * width x height / 2 pixels: the temperature buffer holds half the raw frame.
   */
  lemma TempPlaneIsHalfFrame(w: nat, h: nat)
    requires h % 2 == 0 && w * h * 2 < U32_MODULUS
    ensures 2 * FrameSize(w, h / 2) == FrameSize(w, h)
  {
    HalfRows(w, h);
    MulLe(w * (h / 2), w * h, 2);
  }

  // ---------------------------------------------------------------- the raw frame as uint16 cells

  /** The bytes of the raw buffer read as little-endian uint16 cells, as the numpy view of get_raw_frame does. */
  function Words(bytes: seq<u8>): (w: seq<u16>)
    ensures |w| == |bytes| / 2
    ensures forall k :: 0 <= k < |w| ==> w[k] == bytes[2 * k] as int + 256 * bytes[2 * k + 1] as int
  {
    if |bytes| < 2 then []
    else [bytes[0] as int + 256 * bytes[1] as int] + Words(bytes[2..])
  }

  /** When the frame size does not wrap, the height x width view of get_raw_frame covers the buffer exactly. */
  lemma RawFrameFitsBuffer(bytes: seq<u8>, width: nat, height: nat)
    requires |bytes| == FrameSize(width, height) && width * height * 2 < U32_MODULUS
    ensures NdArray([height, width], Words(bytes)).WellFormed()
  {
    var cells := width * height;
    assert |bytes| == 2 * cells;
    assert |Words(bytes)| == cells;
    assert height * width == cells;
  }
}
