/**
 * TemperatureProcessor of python_bindings.cpp: each query checks only that the array is 2-D,
 * narrows the shape and the coordinates to uint16_t and hands them to libirtemp. The library
 * calls (get_point_temp, get_rect_temp, get_line_temp) and temp_value_converter are not part
 * of this model; they are parameters, so every statement holds whatever the library computes.
 */
module IrTemperature {
  import opened Ints
  import opened NdArrays

  /** Success code of libirtemp. */
  const IRTEMP_SUCCESS: int := 0

  /** TempDataRes_t: the grid as the library sees it. */
  datatype Resolution = Resolution(width: u16, height: u16)
  /** Dot_t */
  datatype Dot = Dot(x: u16, y: u16)
  /** Area_t */
  datatype Area = Area(x: u16, y: u16, width: u16, height: u16)
  /** Line_t */
  datatype Segment = Segment(x1: u16, y1: u16, x2: u16, y2: u16)
  /** TempInfo_t, in raw sensor codes. */
  datatype TempInfo = TempInfo(maxTemp: u16, minTemp: u16, avrTemp: u16)

  /** What get_point_temp returns, with the code it writes through its out-pointer. */
  datatype PointReply = PointReply(code: int, temp: u16)
  /** What get_rect_temp and get_line_temp return, with the statistics they write. */
  datatype RegionReply = RegionReply(code: int, info: TempInfo)

  /** The library entry points and the raw-to-Celsius converter, as the bindings see them. */
  type PointLib = (seq<u16>, Resolution, Dot) -> PointReply
  type AreaLib = (seq<u16>, Resolution, Area) -> RegionReply
  type LineLib = (seq<u16>, Resolution, Segment) -> RegionReply
  type Converter = u16 -> real

  /** {(uint16_t)shape[1], (uint16_t)shape[0]}: the resolution of a 2-D array, narrowed to 16 bits. */
  function ResolutionOf(a: NdArray): (res: Resolution)
    requires a.Ndim() == 2
    ensures res.width == U16(a.shape[1]) && res.height == U16(a.shape[0])
    ensures a.shape[1] < U16_MODULUS && a.shape[0] < U16_MODULUS ==>
              res.width == a.shape[1] && res.height == a.shape[0]
  {
    Resolution(U16(a.shape[1]), U16(a.shape[0]))
  }

  /** get_point_temperature */
  function PointTemperature(a: NdArray, x: int, y: int, lib: PointLib, convert: Converter): (r: PointTemp)
    ensures a.Ndim() != 2 ==> r == NO_POINT
    ensures a.Ndim() == 2 ==>
              var reply := lib(a.data, ResolutionOf(a), Dot(U16(x), U16(y)));
              r == (if reply.code == IRTEMP_SUCCESS then PointTemp(true, convert(reply.temp)) else NO_POINT)
  {
    if a.Ndim() != 2 then NO_POINT
    else
      var reply := lib(a.data, ResolutionOf(a), Dot(U16(x), U16(y)));
      if reply.code == IRTEMP_SUCCESS then PointTemp(true, convert(reply.temp)) else NO_POINT
  }

  /** get_rect_temperature */
  function RectTemperature(a: NdArray, x: int, y: int, width: int, height: int,
                           lib: AreaLib, convert: Converter): (r: RegionTemps)
    ensures a.Ndim() != 2 ==> r == NO_REGION
    ensures a.Ndim() == 2 ==>
              var reply := lib(a.data, ResolutionOf(a), Area(U16(x), U16(y), U16(width), U16(height)));
              r == (if reply.code == IRTEMP_SUCCESS
                    then RegionTemps(true, convert(reply.info.maxTemp), convert(reply.info.minTemp), convert(reply.info.avrTemp))
                    else NO_REGION)
  {
    if a.Ndim() != 2 then NO_REGION
    else
      var reply := lib(a.data, ResolutionOf(a), Area(U16(x), U16(y), U16(width), U16(height)));
      if reply.code == IRTEMP_SUCCESS
      then RegionTemps(true, convert(reply.info.maxTemp), convert(reply.info.minTemp), convert(reply.info.avrTemp))
      else NO_REGION
  }

  /** get_line_temperature */
  function LineTemperature(a: NdArray, x1: int, y1: int, x2: int, y2: int,
                           lib: LineLib, convert: Converter): (r: RegionTemps)
    ensures a.Ndim() != 2 ==> r == NO_REGION
    ensures a.Ndim() == 2 ==>
              var reply := lib(a.data, ResolutionOf(a), Segment(U16(x1), U16(y1), U16(x2), U16(y2)));
              r == (if reply.code == IRTEMP_SUCCESS
                    then RegionTemps(true, convert(reply.info.maxTemp), convert(reply.info.minTemp), convert(reply.info.avrTemp))
                    else NO_REGION)
  {
    if a.Ndim() != 2 then NO_REGION
    else
      var reply := lib(a.data, ResolutionOf(a), Segment(U16(x1), U16(y1), U16(x2), U16(y2)));
      if reply.code == IRTEMP_SUCCESS
      then RegionTemps(true, convert(reply.info.maxTemp), convert(reply.info.minTemp), convert(reply.info.avrTemp))
      else NO_REGION
  }

  // ---------------------------------------------------------------- what the guard decides alone

  /*
   * In the two lemmas below i1, i2, i3, i4 are the integer arguments of each query: (x, y) of the
   * point, (x, y, width, height) of the rectangle and (x1, y1, x2, y2) of the line.
   */

  /**
   * The dimensionality guard answers before any library call: on an array that is not 2-D the
   * three queries fail whatever the library and the converter would do.
   */
  lemma NotTwoDimensionalFails(a: NdArray, i1: int, i2: int, i3: int, i4: int,
                               point: PointLib, area: AreaLib, line: LineLib, convert: Converter)
    requires a.Ndim() != 2
    ensures PointTemperature(a, i1, i2, point, convert).ok == false
    ensures RectTemperature(a, i1, i2, i3, i4, area, convert).ok == false
    ensures LineTemperature(a, i1, i2, i3, i4, line, convert).ok == false
  {
  }

  /** On a 2-D array the queries succeed exactly when the library reports success. */
  lemma TwoDimensionalDefersToLibrary(a: NdArray, i1: int, i2: int, i3: int, i4: int,
                                      point: PointLib, area: AreaLib, line: LineLib, convert: Converter)
    requires a.Ndim() == 2
    ensures PointTemperature(a, i1, i2, point, convert).ok <==>
              (point(a.data, ResolutionOf(a), Dot(U16(i1), U16(i2))).code == IRTEMP_SUCCESS)
    ensures RectTemperature(a, i1, i2, i3, i4, area, convert).ok <==>
              (area(a.data, ResolutionOf(a), Area(U16(i1), U16(i2), U16(i3), U16(i4))).code == IRTEMP_SUCCESS)
    ensures LineTemperature(a, i1, i2, i3, i4, line, convert).ok <==>
              (line(a.data, ResolutionOf(a), Segment(U16(i1), U16(i2), U16(i3), U16(i4))).code == IRTEMP_SUCCESS)
  {
  }

  // ---------------------------------------------------------------- the uint16_t narrowing

  /**
   * The bindings do no range check of their own: coordinates differing by a multiple of 65536
   * reach the library as the same Dot_t, so the two queries answer alike.
   */
  lemma {:induction false} PointCoordinatesWrap(a: NdArray, x: int, y: int, k: int, lib: PointLib, convert: Converter)
    ensures PointTemperature(a, x + k * U16_MODULUS, y, lib, convert) == PointTemperature(a, x, y, lib, convert)
    ensures PointTemperature(a, x, y + k * U16_MODULUS, lib, convert) == PointTemperature(a, x, y, lib, convert)
  {
    U16Periodic(x, k);
    U16Periodic(y, k);
  }

  /** A negative coordinate is not refused by the bindings: -1 reaches the library as 65535. */
  lemma NegativeCoordinateReachesLibrary(a: NdArray, y: int, lib: PointLib, convert: Converter)
    requires a.Ndim() == 2
    ensures PointTemperature(a, -1, y, lib, convert)
              == PointTemperature(a, U16_MODULUS - 1, y, lib, convert)
  {
    PointCoordinatesWrap(a, U16_MODULUS - 1, y, -1, lib, convert);
  }

  /** A negative rectangle width reaches the library as a wide positive one: -1 becomes 65535. */
  lemma {:induction false} NegativeWidthWraps(a: NdArray, x: int, y: int, width: int, height: int,
                                             lib: AreaLib, convert: Converter)
    requires a.Ndim() == 2 && -U16_MODULUS <= width < 0
    ensures RectTemperature(a, x, y, width, height, lib, convert)
              == RectTemperature(a, x, y, width + U16_MODULUS, height, lib, convert)
  {
    U16Periodic(width, 1);
  }

  /**
   * An array 65536 columns wider than another is described to the library by the same
   * resolution: the narrowed width loses the difference.
   */
  lemma {:induction false} WideShapeAliases(rows: nat, cols: nat, d1: seq<u16>, d2: seq<u16>)
    ensures ResolutionOf(NdArray([rows, cols + U16_MODULUS], d1)) == ResolutionOf(NdArray([rows, cols], d2))
  {
    U16Periodic(cols, 1);
  }
}
