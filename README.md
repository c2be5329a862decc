# Tiny-1C thermal camera bindings, modelled in Dafny

This project models the two pybind11 binding layers of the Tiny-1C thermal camera package.

- **`python_bindings_tiny.cpp`**:
  - The `SimpleThermalCamera` session (module `TinyCamera`) over libiruvc. It has three flags, three `new[]` buffers and the frame geometry fixed at open time.
  - The device table it scans (module `TinyDevices`).
  - The `TemperatureProcessor` (module `TinyTemperature`): raw-to-Celsius conversion, the bounds-checked point lookup and the rectangle statistic with its `uint32_t` running sum.
- **`python_bindings.cpp`**:
  - The `ThermalCamera` session (module `IrCamera`). It is coupled to the module-level globals `g_initialized` and `g_stream_frame_info`.
  - Its `TemperatureProcessor` (module `IrTemperature`), which checks only that the array is 2-D and then defers to libirtemp.

Supporting modules:

- `Ints`: fixed-width integers with their wrap-around written out.
- `Vendor`: the SDK boundary.
- `NdArrays`: numpy arrays and result tuples as values.

How the model is built:

- **SDK calls.** Every vendor SDK call is appended to the log of a shared `Vendor.Sdk` object. The integer the call returns is a parameter of the binding method that receives it. So each branch is proved for every SDK outcome, and contracts state the exact sequence of SDK calls.
- **Buffers and leaks.** `SimpleThermalCamera` holds its buffers as `array?<u8>` fields. A ghost set `heap` holds the buffers allocated and not yet deleted, which makes a dropped buffer visible.
- **Shared globals.** The globals of `python_bindings.cpp` are one `IrCamera.Globals` object shared by every `ThermalCamera`. Closing one instance therefore resets `g_initialized` for all of them.
- **Rectangle statistic.** It is specified by `TinyTemperature.RectTemperature`, a function of the cells in visiting order. The nested loop of the source is the method `GetRectTemperature`; its inner loop is the method `ScanRow`. Both are proved equal to that function.

The model keeps the following behaviours of the code as they are:

- **stop_streaming and buffers.** Stopping a stream, directly or through `close_camera`, keeps its three buffers allocated. The next `start_streaming` then overwrites the pointers (see Findings). The corrected stop and close, which release the buffers, are separate members.
- **Wrong-state calls.** A call in the wrong state returns `false` or an empty array; nothing is raised.
- **Global state.** `python_bindings.cpp` keeps the camera state in process-wide globals shared by every `ThermalCamera`, not per instance.
- **Point queries in `python_bindings.cpp`.** These queries do no range check of their own: the coordinates are narrowed to `uint16_t` and handed to the library.

## Model

| member | source | states |
|---|---|---|
| TinyDevices.FirstMatch | python_bindings_tiny.cpp:82-89 | the selected slot matches both ids and no earlier slot does; -1 exactly when no slot matches |
| TinyDevices.FindDevice | python_bindings_tiny.cpp:83-89 | the search loop with its `break` returns the first slot matching vid and pid, or -1 |
| TinyDevices.Listing | python_bindings_tiny.cpp:62-69 | the reported devices are the slots before the first one whose vid is 0, each as {vid, pid, name} with a null name reported as "" |
| TinyDevices.CollectDevices | python_bindings_tiny.cpp:62-69 | the listing loop returns exactly those entries |
| TinyDevices.ListedDeviceOpens | python_bindings_tiny.cpp:84-89 | every listed device is found by open_camera with its ids, at its own slot or an earlier one |
| TinyDevices.PackedOpenIsListed | python_bindings_tiny.cpp:84-89 | when no non-empty slot follows an empty one, a device open_camera finds by a non-zero vid is among the listed ones |
| TinyDevices.OpenReachesEmptySlot | python_bindings_tiny.cpp:84-89 | asked for vid 0 and pid 0, open_camera selects a zeroed slot that get_device_list never reports |
| TinyDevices.FrameSize | python_bindings_tiny.cpp:113 | frame_size (and, at line 132, the temperature buffer size) is width * height * 2 whenever that fits 32 bits, and is below 2^32 always |
| TinyDevices.ImageBytes | python_bindings_tiny.cpp:131 | the image buffer holds 3 bytes per pixel when the product fits 32 bits |
| TinyDevices.TempPlaneIsHalfFrame | python_bindings_tiny.cpp:113-119 | for an even frame height the temperature plane (width x height/2, 2 bytes each) is exactly half of the raw frame |
| TinyDevices.Words | python_bindings_tiny.cpp:207-211 | the uint16 view of the byte buffer has half as many cells, cell k being bytes 2k and 2k+1 little-endian |
| TinyDevices.RawFrameFitsBuffer | python_bindings_tiny.cpp:204-211 | the height x width view of get_raw_frame covers exactly the frame_size bytes of the raw buffer |
| TinyCamera.OpenTraceIsProtocolPrefix | python_bindings_tiny.cpp:76-104 | open_camera issues a prefix of init, list, info, open, polling-time, vdcmd-init, and the whole sequence exactly when it succeeds |
| TinyCamera.SimpleThermalCamera.constructor | python_bindings_tiny.cpp:31-33 | all flags false, all buffers null, frame_size 0, nothing allocated |
| TinyCamera.SimpleThermalCamera.Initialize | python_bindings_tiny.cpp:39-48 | idempotent without a second SDK call; sets is_initialized exactly when uvc_camera_init returns IRUVC_SUCCESS |
| TinyCamera.SimpleThermalCamera.GetDeviceList | python_bindings_tiny.cpp:50-72 | initializes on demand; fails with an empty list when initialization or uvc_camera_list fails, else returns the listing |
| TinyCamera.SimpleThermalCamera.SetStream | python_bindings_tiny.cpp:106-121 | the parameters come from the chosen slot and the first stream; both planes are width x height/2 |
| TinyCamera.SimpleThermalCamera.OpenCamera | python_bindings_tiny.cpp:74-124 | true at once when open; otherwise initializes on demand and opens the first slot matching both ids; false with is_open false when nothing matches or any SDK step fails; on success the geometry of the first stream |
| TinyCamera.SimpleThermalCamera.OpenDevice | python_bindings_tiny.cpp:78-123 | succeeds exactly when list, search, info and open all succeed, with the SDK calls stopping at the first failure |
| TinyCamera.SimpleThermalCamera.AllocateBuffers | python_bindings_tiny.cpp:129-132 | three fresh, distinct buffers of the sizes the geometry gives |
| TinyCamera.SimpleThermalCamera.ReleaseBuffers | python_bindings_tiny.cpp:136-141 | every held buffer is deleted and each pointer reset to null |
| TinyCamera.SimpleThermalCamera.StartStreaming | python_bindings_tiny.cpp:126-164 | false with nothing changed unless open and idle; on a failed stream start the buffers are freed and nulled and is_streaming stays false; once started, true whatever y16_preview_start answers; overwritten pointers are not freed |
| TinyCamera.SimpleThermalCamera.StopStreamingAsWritten | python_bindings_tiny.cpp:166-172 | no-op true when idle; otherwise clears is_streaming whatever the SDK answers and returns result >= 0, leaving the buffers allocated |
| TinyCamera.SimpleThermalCamera.StopStreaming | python_bindings_tiny.cpp:166-172 | the corrected stop: the same result and flags, and the stream's buffers freed |
| TinyCamera.SimpleThermalCamera.CloseCamera | python_bindings_tiny.cpp:174-184 | no-op when closed; otherwise stops an active stream first (as written, keeping its buffers), closes the device, clears is_open, keeps is_initialized, always true |
| TinyCamera.SimpleThermalCamera.CloseCameraReleasing | python_bindings_tiny.cpp:174-184 | the corrected close: the same result, flags and SDK calls, with the stream's buffers freed, so no buffer leaks |
| TinyCamera.SimpleThermalCamera.CameraInfo | python_bindings_tiny.cpp:186-191 | (0, 0, 0) when closed; otherwise the opened stream's size and fps, consistent with the planes' geometry |
| TinyCamera.SimpleThermalCamera.GetRawFrame | python_bindings_tiny.cpp:193-214 | empty unless streaming with a raw buffer and uvc_frame_get >= 0; then the buffer holds the delivered bytes, shown as a height x width uint16 array |
| TinyCamera.SimpleThermalCamera.Cleanup | python_bindings_tiny.cpp:220-243 | stops and closes as written, releases the SDK, then deletes the buffers the fields still hold; nothing stays allocated if nothing was dropped before |
| TinyCamera.OpenDefaultCamera | python_bindings_tiny.cpp:74-124 | with the default ids and every SDK call succeeding, the camera is open and owns no buffer |
| TinyCamera.RestartLeaksAsWritten | python_bindings_tiny.cpp:126-172 | start, stop as written, start leaves three allocated buffers no field holds |
| TinyCamera.RestartKeepsNoLeak | python_bindings_tiny.cpp:126-172 | with the corrected stop, start, stop, start leaves exactly the running stream's three buffers allocated |
| TinyCamera.ReopenLeaksAsWritten | python_bindings_tiny.cpp:126-184 | start, close as written, open, start leaves three allocated buffers no field holds |
| TinyCamera.ReopenKeepsNoLeak | python_bindings_tiny.cpp:126-184 | with the corrected close, start, close, open, start leaves exactly the running stream's three buffers allocated |
| TinyTemperature.TempToCelsius | python_bindings_tiny.cpp:248-250 | the result c satisfies 64 (c + 273.15) = raw code |
| TinyTemperature.TempToCelsiusMonotone | python_bindings_tiny.cpp:248-250 | the conversion is strictly increasing |
| TinyTemperature.RowWithinData | python_bindings_tiny.cpp:264 | the row-major index of an in-plane cell lies inside the array's data |
| TinyTemperature.GetPointTemperature | python_bindings_tiny.cpp:252-268 | ok exactly when the array is 2-D and 0 <= x < shape[1], 0 <= y < shape[0]; then the converted cell y * shape[1] + x, else (false, 0) |
| TinyTemperature.RowCells | python_bindings_tiny.cpp:291-292 | a row run of n > 0 cells has n cells, none otherwise |
| TinyTemperature.RowCellAt | python_bindings_tiny.cpp:291-292 | cell k of a row run is the plane's cell in column x + k |
| TinyTemperature.RectCellCount | python_bindings_tiny.cpp:290-298 | the loops visit width * height cells when both are positive and none otherwise |
| TinyTemperature.RectCellAt | python_bindings_tiny.cpp:290-292 | the visit i * width + j reads the cell at column x + j of row y + i |
| TinyTemperature.LowestIsMinimum | python_bindings_tiny.cpp:286-293 | the running minimum from 65535 is below every visited cell and is one of them or 65535 |
| TinyTemperature.HighestIsMaximum | python_bindings_tiny.cpp:286-294 | the running maximum from 0 is above every visited cell and is one of them or 0 |
| TinyTemperature.TotalAtMost | python_bindings_tiny.cpp:295 | the exact sum is at most 65535 per cell |
| TinyTemperature.Total32IsTotalMod | python_bindings_tiny.cpp:287-295 | the uint32_t accumulator equals the exact sum modulo 2^32 |
| TinyTemperature.TotalBetween | python_bindings_tiny.cpp:293-295 | count * min <= exact sum <= count * max |
| TinyTemperature.MeanWithinRange | python_bindings_tiny.cpp:306 | the exact floor mean lies between min and max |
| TinyTemperature.MeanWide | python_bindings_tiny.cpp:306 | the corrected mean (no wrap) lies between min and max |
| TinyTemperature.NoWrapUpTo65537Cells | python_bindings_tiny.cpp:287-295 | up to 65537 cells the uint32_t sum never wraps |
| TinyTemperature.Mean32ExactUpTo65537Cells | python_bindings_tiny.cpp:306 | up to 65537 cells the as-written mean is the exact mean |
| TinyTemperature.Mean32NeverTruncated | python_bindings_tiny.cpp:306 | sum_temp / count always fits the uint16_t parameter of temp_to_celsius |
| TinyTemperature.RectTemperature | python_bindings_tiny.cpp:270-309 | ok exactly when the array is 2-D, x, y >= 0, the rectangle ends inside the plane and width, height > 0; (false, 0, 0, 0) otherwise |
| TinyTemperature.RectTemperatureWide | python_bindings_tiny.cpp:270-309 | the corrected statistic: the same success condition, and min <= avg <= max in Celsius |
| TinyTemperature.TempToCelsiusMonotoneOrEqual | python_bindings_tiny.cpp:248-250 | the conversion preserves <= |
| TinyTemperature.RectTemperatureExactUpTo65537Cells | python_bindings_tiny.cpp:270-309 | on rectangles of at most 65537 cells the statistic as written equals the corrected one |
| TinyTemperature.RectMeanWithinRange | python_bindings_tiny.cpp:304-306 | on such rectangles the reported min <= avg <= max |
| TinyTemperature.RectOneByOneIsPoint | python_bindings_tiny.cpp:252-309 | a 1 x 1 rectangle succeeds exactly where the point query does, with max = min = avg = the point's temperature |
| TinyTemperature.RectBoundsOn256By192 | python_bindings_tiny.cpp:281-284 | on a 256 x 192 plane the 50 x 50 rectangle at (100, 80) succeeds and the 200 x 50 one fails |
| TinyTemperature.SingletonAggregates | python_bindings_tiny.cpp:286-306 | on one cell the minimum, maximum and mean are that cell |
| TinyTemperature.WrappedMeanBelowMinimum | python_bindings_tiny.cpp:287-306 | a 65538-cell rectangle of code 65535 reports avg = -273.15 C, below its min |
| TinyTemperature.ScanRow | python_bindings_tiny.cpp:291-297 | the inner loop extends min, max, the uint32 sum and the count over one more row of the rectangle |
| TinyTemperature.GetRectTemperature | python_bindings_tiny.cpp:270-309 | the nested loop with its guards returns exactly RectTemperature |
| IrCamera.Globals.constructor | python_bindings.cpp:14-15 | g_initialized false and g_stream_frame_info zero |
| IrCamera.ThermalCamera.constructor | python_bindings.cpp:23 | neither open nor streaming |
| IrCamera.ThermalCamera.Open | python_bindings.cpp:34-48 | true at once when open; otherwise true exactly when ir_camera_open returns 0, setting is_open and g_initialized, with the shared frame info left as load_stream_frame_info leaves it; on failure the flags are unchanged and only the camera parameters ir_camera_open wrote change |
| IrCamera.ThermalCamera.StopStream | python_bindings.cpp:88-96 | no-op true when idle; otherwise clears is_streaming whatever the SDK answers, keeps the frame info ir_camera_stream_off leaves, and returns result == 0 |
| IrCamera.ThermalCamera.Close | python_bindings.cpp:50-63 | no-op true when closed; otherwise stops an active stream first, then always clears is_open and g_initialized and returns result == 0; ir_camera_close, which takes no argument, leaves the frame info alone |
| IrCamera.ThermalCamera.StartStream | python_bindings.cpp:65-86 | false with nothing changed unless open and idle; otherwise the frame info is what ir_camera_stream_on leaves, and the result is true exactly when it returns 0, whatever y16_preview_start answers |
| IrCamera.ThermalCamera.Dispose | python_bindings.cpp:25-32 | stops an active stream before closing an open camera |
| IrCamera.ThermalCamera.GetCameraInfo | python_bindings.cpp:98-108 | (0, 0, 0) whenever g_initialized is false, the stream's width, height and fps otherwise |
| IrCamera.ThermalCamera.GetTemperatureFrame | python_bindings.cpp:110-138 | empty unless streaming, g_initialized, temp_byte_size != 0 and uvc_frame_get >= 0; then the cut temperature plane as a well-formed temp_info.height x temp_info.width array |
| IrCamera.ThermalCamera.GetImageFrame | python_bindings.cpp:140-169 | empty unless streaming, g_initialized and uvc_frame_get >= 0; then the image plane as a well-formed height x width x 3 byte array |
| IrCamera.CloseOneBlindsTheOther | python_bindings.cpp:59-61 | closing one instance makes a second, still streaming instance report (0, 0, 0) and return no temperature frame |
| IrTemperature.ResolutionOf | python_bindings.cpp:189 | the resolution handed to libirtemp is the shape narrowed to 16 bits, the shape itself when it fits |
| IrTemperature.PointTemperature | python_bindings.cpp:181-198 | (false, 0) for a non-2-D array; otherwise the library's answer for the narrowed shape and point, converted on success |
| IrTemperature.RectTemperature | python_bindings.cpp:200-222 | (false, 0, 0, 0) for a non-2-D array; otherwise the library's answer for the narrowed rectangle |
| IrTemperature.LineTemperature | python_bindings.cpp:224-246 | (false, 0, 0, 0) for a non-2-D array; otherwise the library's answer for the narrowed segment |
| IrTemperature.NotTwoDimensionalFails | python_bindings.cpp:181-227 | every query fails on a non-2-D array whatever the library and the converter do |
| IrTemperature.TwoDimensionalDefersToLibrary | python_bindings.cpp:181-246 | on a 2-D array each query succeeds exactly when the library returns IRTEMP_SUCCESS |
| IrTemperature.PointCoordinatesWrap | python_bindings.cpp:190 | coordinates differing by a multiple of 65536 give the same answer |
| IrTemperature.NegativeCoordinateReachesLibrary | python_bindings.cpp:190 | x = -1 is not refused but queried as column 65535 |
| IrTemperature.NegativeWidthWraps | python_bindings.cpp:209 | a negative rectangle width is queried as that width plus 65536 |
| IrTemperature.WideShapeAliases | python_bindings.cpp:189 | an array 65536 columns wider is described to the library by the same resolution |

## Left out

- Vendor SDK internals are not part of this model: libiruvc, the sample layer (`ir_camera_*`, `load_stream_frame_info`, `command_init`, `raw_data_cut`) and libirtemp (`get_point_temp`, `get_rect_temp`, `get_line_temp`, `temp_value_converter`). Their results are parameters, and libirtemp and the converter are function-valued parameters. So frame demultiplexing, line rasterization and the library's own range checks are not specified.
- `sleep` and `printf` are not modelled beyond a `Sleep` entry in the SDK log. Blocking, time and console output have no counterpart in the model.
- `temp_to_celsius` is computed over reals: the `double` division and the narrowing to `float` are not modelled. `temp_value_to_celsius` of `python_bindings.cpp` (lines 177-179) only forwards to the library and is the converter parameter itself.
- pybind11 and numpy plumbing is replaced by values: arrays are a shape plus row-major cells, and tuples are datatypes. Strides and non-contiguous arrays are not modelled. The arrays returned over the SDK's buffers are built without a base object, so pybind11 copies the data and the model's value arrays, the buffers' contents at the time of the call, are exact.
- `TinyTemperature.GetPointTemperature` and `TinyTemperature.RectTemperature` take coordinates as unbounded integers. The 32-bit `int` overflow of `x + width`, `y + height` and `row * img_width + col` is not modelled, nor the conversion of `buf.shape` to `int`.
- The header types of `DevCfg_t`, `CameraStreamInfo_t`, `CameraParam_t` and `StreamFrameInfo_t` are not part of this model. Ids and the format are `int`, sizes are `nat`, and the frame size is narrowed to 32 bits as the `uint32_t` members of the camera class are. `StreamFrameInfo_t` is reduced to the fields the bindings read.
- Only the first stream description and its first fps entry are read, so the other 31 stream slots are ignored by the model, as by the source.
- `TinyCamera.SimpleThermalCamera.GetRawFrame` assumes a little-endian host for the uint16 view of the raw bytes.
- `TinyTemperature.GetRectTemperature` keeps the inner loop of the nested scan as the separate method `ScanRow`, with the same statements, so that each loop carries its own invariant: the row loop covers the rows scanned so far, and the column loop the scanned prefix of the current row.
- Of `g_stream_frame_info`, only the camera parameters, the plane sizes and the byte sizes are modelled. The frame buffers that `ir_camera_stream_on` and `ir_camera_stream_off` may set up or tear down are not. What those calls leave in the modelled fields is a parameter of `IrCamera.ThermalCamera.StartStream` and `StopStream`.
- The Python façades, the demo, installers, diagnostics and packaging scripts are not part of this model: they are I/O, GUI and build tooling around the extension.
- Concurrency is not modelled: the sessions are single-threaded objects.
- `TinyCamera.SimpleThermalCamera.AllocateBuffers` always succeeds: a `std::bad_alloc` thrown by `new uint8_t[...]`, which would reach Python with the earlier pointers already overwritten, is not modelled.
- Default arguments are not modelled: `start_streaming`'s `(true, 5)` and `open_camera`'s `0x0BDA`/`0x5840` are ordinary parameters of the model's methods, and `TinyCamera.OpenDefaultCamera` passes the default ids explicitly.

## Findings

| source | as written | input that shows it | evidently intended | confidence | as-written member | corrected member |
|---|---|---|---|---|---|---|
| python_bindings_tiny.cpp:166-172 | stop_streaming clears is_streaming but never deletes the three buffers; the next start_streaming overwrites the pointers with new allocations | open, start_streaming, stop_streaming, start_streaming: three buffers stay allocated with no pointer to them | stopping a stream releases its buffers, as the failed-start path and cleanup do | not executed | TinyCamera.RestartLeaksAsWritten | TinyCamera.RestartKeepsNoLeak |
| python_bindings_tiny.cpp:174-184 | close_camera stops an active stream through stop_streaming, so it keeps the buffers too; after a reopen, start_streaming overwrites the pointers | open, start_streaming, close_camera, open_camera, start_streaming: three buffers stay allocated with no pointer to them | closing a streaming camera releases its buffers | not executed | TinyCamera.ReopenLeaksAsWritten | TinyCamera.ReopenKeepsNoLeak |
| python_bindings_tiny.cpp:287-306 | the rectangle sum is a uint32_t that wraps past 2^32 | a 1 x 65538 plane of code 65535: the sum wraps to 65534 and the mean becomes code 0 (-273.15 C), below the minimum | the mean of the cells, between their min and max | not executed | TinyTemperature.WrappedMeanBelowMinimum | TinyTemperature.RectTemperatureWide |
