/**
 * TemperatureProcessor of python_bindings_tiny.cpp: conversion of raw codes to degrees Celsius,
 * the bounds-checked point lookup and the rectangle statistic, all over a 2-D uint16 plane.
 */
module TinyTemperature {
  import opened Ints
  import opened NdArrays

  /** Initial values of the rectangle scan's running minimum and maximum. */
  const MIN_START: u16 := 65535
  const MAX_START: u16 := 0

  // ---------------------------------------------------------------- conversion

  /** A raw code is 64 times the absolute temperature; the result is its inverse image in Celsius. */
  function TempToCelsius(v: u16): (c: real)
    ensures (c + 273.15) * 64.0 == v as real
  {
    v as real / 64.0 - 273.15
  }

  /** The conversion is strictly increasing, so min and max may be taken in the raw domain. */
  lemma TempToCelsiusMonotone(a: u16, b: u16)
    requires a < b
    ensures TempToCelsius(a) < TempToCelsius(b)
  {
  }

  // ---------------------------------------------------------------- row-major geometry

  /** A run of n cells starting at (x, row) of an h x w plane lies inside its h * w cells. */
  lemma RowWithinData(row: int, x: int, n: int, h: nat, w: nat)
    requires 0 <= row < h && 0 <= x && 0 <= n && x + n <= w
    ensures 0 <= row * w + x && row * w + x + n <= h * w
  {
    MulLe(row + 1, h, w);
    MulLe(0, row, w);
  }

  predicate InPlane(a: NdArray, x: int, y: int)
    requires a.Ndim() == 2
  {
    0 <= x < a.shape[1] && 0 <= y < a.shape[0]
  }

  /** The cell in column x of row y, read as ptr[y * shape[1] + x]. */
  function At(a: NdArray, x: int, y: int): u16
    requires a.WellFormed() && a.Ndim() == 2 && InPlane(a, x, y)
  {
    RowWithinData(y, x, 1, a.shape[0], a.shape[1]);
    a.data[y * a.shape[1] + x]
  }

  // ---------------------------------------------------------------- point query

  /** get_point_temperature: (true, celsius) for a cell of a 2-D plane, (false, 0) otherwise. */
  function GetPointTemperature(a: NdArray, x: int, y: int): (r: PointTemp)
    requires a.WellFormed()
    ensures r.ok <==> a.Ndim() == 2 && InPlane(a, x, y)
    ensures r.ok ==> r.celsius == TempToCelsius(At(a, x, y))
    ensures !r.ok ==> r == NO_POINT
  {
    if a.Ndim() != 2 then NO_POINT
    else if x < 0 || x >= a.shape[1] || y < 0 || y >= a.shape[0] then NO_POINT
    else
      RowWithinData(y, x, 1, a.shape[0], a.shape[1]);
      PointTemp(true, TempToCelsius(a.data[y * a.shape[1] + x]))
  }

  // ---------------------------------------------------------------- rectangle cells

  /** The bounds check of get_rect_temperature; it does not clamp and does not look at the sign of the size. */
  predicate RectInside(a: NdArray, x: int, y: int, width: int, height: int)
    requires a.Ndim() == 2
  {
    0 <= x && 0 <= y && x + width <= a.shape[1] && y + height <= a.shape[0]
  }

  /** The weaker condition under which the cells a rectangle covers can be named. */
  predicate CellsInside(a: NdArray, x: int, y: int, width: int, height: int)
    requires a.Ndim() == 2
  {
    0 <= x && 0 <= y && (width > 0 && height > 0 ==> x + width <= a.shape[1] && y + height <= a.shape[0])
  }

  /** The first n cells of row `row` from column x on (none when n <= 0). */
  function RowCells(a: NdArray, x: int, row: int, n: int): (s: seq<u16>)
    requires a.WellFormed() && a.Ndim() == 2
    requires 0 <= x && 0 <= row && (n > 0 ==> row < a.shape[0] && x + n <= a.shape[1])
    ensures |s| == if n > 0 then n else 0
  {
    if n <= 0 then [] else RowCells(a, x, row, n - 1) + [At(a, x + n - 1, row)]
  }

  /** The cells of the rectangle in the order the nested loop visits them: row by row, left to right. */
  function RectCells(a: NdArray, x: int, y: int, width: int, height: int): seq<u16>
    requires a.WellFormed() && a.Ndim() == 2 && CellsInside(a, x, y, width, height)
    decreases height
  {
    if width <= 0 || height <= 0 then []
    else RectCells(a, x, y, width, height - 1) + RowCells(a, x, y + height - 1, width)
  }

  /** The rectangle has width * height cells when both are positive and none otherwise. */
  lemma {:induction false} RectCellCount(a: NdArray, x: int, y: int, width: int, height: int)
    requires a.WellFormed() && a.Ndim() == 2 && CellsInside(a, x, y, width, height)
    ensures |RectCells(a, x, y, width, height)| == if width > 0 && height > 0 then width * height else 0
    decreases height
  {
    if width > 0 && height > 0 {
      RectCellCount(a, x, y, width, height - 1);
      var above := RectCells(a, x, y, width, height - 1);
      assert RectCells(a, x, y, width, height) == above + RowCells(a, x, y + height - 1, width);
      RowsTimesWidth(height, width);
    }
  }

  lemma RowsTimesWidth(height: int, width: int)
    ensures (height - 1) * width + width == height * width
  {
  }

  /** Cell i * width + j of the rectangle is the plane's cell in column x + j of row y + i. */
  lemma {:induction false} RectCellAt(a: NdArray, x: int, y: int, width: int, height: int, i: int, j: int)
    requires a.WellFormed() && a.Ndim() == 2 && CellsInside(a, x, y, width, height)
    requires 0 <= i < height && 0 <= j < width
    ensures 0 <= i * width + j < |RectCells(a, x, y, width, height)|
    ensures RectCells(a, x, y, width, height)[i * width + j] == At(a, x + j, y + i)
    decreases height
  {
    RectCellCount(a, x, y, width, height);
    RectCellCount(a, x, y, width, height - 1);
    var above := RectCells(a, x, y, width, height - 1);
    var row := RowCells(a, x, y + height - 1, width);
    assert RectCells(a, x, y, width, height) == above + row;
    var k := i * width + j;
    CellIndex(i, j, width, height);
    if i < height - 1 {
      RectCellAt(a, x, y, width, height - 1, i, j);
    } else {
      RowCellAt(a, x, y + i, width, j);
    }
  }

  /** Where cell (i, j) falls: in the first height - 1 rows, or at offset j of the last. */
  lemma CellIndex(i: int, j: int, width: int, height: int)
    requires 0 <= i < height && 0 <= j < width
    ensures 0 <= i * width + j < height * width
    ensures i < height - 1 ==> i * width + j < (height - 1) * width
    ensures i == height - 1 ==> i * width + j == (height - 1) * width + j
    ensures height * width == (height - 1) * width + width
  {
    MulLe(i + 1, height, width);
    MulLe(0, i, width);
    if i < height - 1 {
      MulLe(i + 1, height - 1, width);
    }
  }

  /** Cell k of a row's run is the plane's cell in column x + k. */
  lemma {:induction false} RowCellAt(a: NdArray, x: int, row: int, n: int, k: int)
    requires a.WellFormed() && a.Ndim() == 2
    requires 0 <= x && 0 <= row && (n > 0 ==> row < a.shape[0] && x + n <= a.shape[1])
    requires 0 <= k < n
    ensures RowCells(a, x, row, n)[k] == At(a, x + k, row)
    decreases n
  {
    if k < n - 1 {
      RowCellAt(a, x, row, n - 1, k);
    }
  }

  // ---------------------------------------------------------------- running aggregates

  /** The running minimum of the scan, started at 65535. */
  function Lowest(s: seq<u16>): u16 {
    if s == [] then MIN_START
    else
      var m := Lowest(s[..|s| - 1]);
      if s[|s| - 1] < m then s[|s| - 1] else m
  }

  /** The running maximum of the scan, started at 0. */
  function Highest(s: seq<u16>): u16 {
    if s == [] then MAX_START
    else
      var m := Highest(s[..|s| - 1]);
      if s[|s| - 1] > m then s[|s| - 1] else m
  }

  /** The running minimum is a cell of the scan (or the start value 65535) and no cell is below it. */
  lemma {:induction false} LowestIsMinimum(s: seq<u16>)
    ensures Lowest(s) == MIN_START || Lowest(s) in s
    ensures forall v :: v in s ==> Lowest(s) <= v
  {
    if s != [] {
      LowestIsMinimum(s[..|s| - 1]);
      assert s == s[..|s| - 1] + [s[|s| - 1]];
    }
  }

  /** The running maximum is a cell of the scan (or the start value 0) and no cell is above it. */
  lemma {:induction false} HighestIsMaximum(s: seq<u16>)
    ensures Highest(s) == MAX_START || Highest(s) in s
    ensures forall v :: v in s ==> v <= Highest(s)
  {
    if s != [] {
      HighestIsMaximum(s[..|s| - 1]);
      assert s == s[..|s| - 1] + [s[|s| - 1]];
    }
  }

  /** The exact sum of the cells. */
  function Total(s: seq<u16>): nat {
    if s == [] then 0 else Total(s[..|s| - 1]) + s[|s| - 1]
  }

  /** The uint32_t accumulator sum_temp: each addition wraps modulo 2^32. */
  function Total32(s: seq<u16>): nat {
    if s == [] then 0 else U32(Total32(s[..|s| - 1]) + s[|s| - 1])
  }

  /** No cell exceeds 65535, so neither does the sum exceed 65535 per cell. */
  lemma {:induction false} TotalAtMost(s: seq<u16>)
    ensures Total(s) <= 65535 * |s|
  {
    if s != [] {
      TotalAtMost(s[..|s| - 1]);
    }
  }

  /** Wrapping after every addition ends at the exact sum modulo 2^32. */
  lemma {:induction false} Total32IsTotalMod(s: seq<u16>)
    ensures Total32(s) == U32(Total(s))
  {
    if s != [] {
      Total32IsTotalMod(s[..|s| - 1]);
      U32AddMod(Total(s[..|s| - 1]), s[|s| - 1]);
    }
  }

  /** Every cell lies between the minimum and the maximum, so the sum lies between |s| times each. */
  lemma {:induction false} TotalBetween(s: seq<u16>)
    requires s != []
    ensures |s| * Lowest(s) <= Total(s) <= |s| * Highest(s)
  {
    var p := s[..|s| - 1];
    var v := s[|s| - 1];
    if p == [] {
      assert s == [v];
    } else {
      TotalBetween(p);
      BoundsStep(|p|, Lowest(s), Lowest(p), Highest(p), Highest(s), Total(p), v);
    }
  }

  /** One step of TotalBetween, in plain arithmetic. */
  lemma BoundsStep(n: nat, lo: int, lp: int, hp: int, hi: int, tp: int, v: int)
    requires lo <= lp && hp <= hi && lo <= v <= hi
    requires n * lp <= tp <= n * hp
    ensures (n + 1) * lo <= tp + v <= (n + 1) * hi
  {
    MulLe(lo, lp, n);
    MulLe(hp, hi, n);
  }

  lemma DivBetween(t: int, n: int, lo: int, hi: int)
    requires n > 0 && n * lo <= t <= n * hi
    ensures lo <= t / n <= hi
  {
    var q, r := t / n, t % n;
    assert t == n * q + r && 0 <= r < n;
    MulLe(q + 1, lo, n);
    MulLe(hi + 1, q, n);
  }

  /** The exact mean of a non-empty scan lies between its minimum and its maximum. */
  lemma MeanWithinRange(s: seq<u16>)
    requires s != []
    ensures Lowest(s) <= Total(s) / |s| <= Highest(s)
  {
    TotalBetween(s);
    DivBetween(Total(s), |s|, Lowest(s), Highest(s));
  }

  /** sum_temp / count converted to the uint16_t parameter of temp_to_celsius, as written. */
  function Mean32(s: seq<u16>): u16
    requires s != []
  {
    U16(Total32(s) / |s|)
  }

  /** The mean with an accumulator that cannot wrap (the corrected computation). */
  function MeanWide(s: seq<u16>): (m: u16)
    requires s != []
    ensures Lowest(s) <= m <= Highest(s)
  {
    MeanWithinRange(s);
    Total(s) / |s|
  }

  /** Up to 65537 cells of at most 65535 each the uint32 sum cannot wrap. */
  lemma NoWrapUpTo65537Cells(s: seq<u16>)
    requires |s| <= 65537
    ensures Total32(s) == Total(s)
  {
    TotalAtMost(s);
    Total32IsTotalMod(s);
    MulLe(|s|, 65537, 65535);
  }

  /** So on such scans the as-written mean is exact. */
  lemma Mean32ExactUpTo65537Cells(s: seq<u16>)
    requires s != [] && |s| <= 65537
    ensures Mean32(s) == MeanWide(s)
  {
    NoWrapUpTo65537Cells(s);
  }

  /** A uint32 value divided by more than 65537 is below 2^16. */
  lemma SmallQuotient(t: int, n: int)
    requires 0 <= t < U32_MODULUS && n >= 65538
    ensures t / n < U16_MODULUS
  {
    MulLe(65538, n, 65535);
    DivBetween(t, n, 0, 65535);
  }

  /** The conversion to uint16_t in the as-written mean never drops bits: sum_temp / count <= 65535 always. */
  lemma Mean32NeverTruncated(s: seq<u16>)
    requires s != []
    ensures Total32(s) / |s| < U16_MODULUS
  {
    if |s| <= 65537 {
      NoWrapUpTo65537Cells(s);
      MeanWithinRange(s);
    } else {
      SmallQuotient(Total32(s), |s|);
    }
  }

  // ---------------------------------------------------------------- rectangle query

  /** The reported tuple for a non-empty scan whose mean code is `mean`. */
  function Summary(cells: seq<u16>, mean: u16): RegionTemps
    requires cells != []
  {
    RegionTemps(true, TempToCelsius(Highest(cells)), TempToCelsius(Lowest(cells)), TempToCelsius(mean))
  }

  /**
   * get_rect_temperature as written: fails for a non-2-D array, for a rectangle that leaves the
   * plane on any side (no clamping) and for a rectangle with no cells; otherwise reports
   * max, min and the uint32 mean of the cells it covers.
   */
  function RectTemperature(a: NdArray, x: int, y: int, width: int, height: int): (r: RegionTemps)
    requires a.WellFormed()
    ensures r.ok <==> a.Ndim() == 2 && RectInside(a, x, y, width, height) && width > 0 && height > 0
    ensures !r.ok ==> r == NO_REGION
  {
    if a.Ndim() != 2 || !RectInside(a, x, y, width, height) then NO_REGION
    else
      var cells := RectCells(a, x, y, width, height);
      RectCellCount(a, x, y, width, height);
      if |cells| == 0 then NO_REGION else Summary(cells, Mean32(cells))
  }

  /** The corrected statistic: the same, with a sum that cannot wrap. */
  function RectTemperatureWide(a: NdArray, x: int, y: int, width: int, height: int): (r: RegionTemps)
    requires a.WellFormed()
    ensures r.ok <==> a.Ndim() == 2 && RectInside(a, x, y, width, height) && width > 0 && height > 0
    ensures r.ok ==> r.minC <= r.avgC <= r.maxC
    ensures !r.ok ==> r == NO_REGION
  {
    if a.Ndim() != 2 || !RectInside(a, x, y, width, height) then NO_REGION
    else
      var cells := RectCells(a, x, y, width, height);
      RectCellCount(a, x, y, width, height);
      if |cells| == 0 then NO_REGION
      else
        var m := MeanWide(cells);
        TempToCelsiusMonotoneOrEqual(Lowest(cells), m);
        TempToCelsiusMonotoneOrEqual(m, Highest(cells));
        Summary(cells, m)
  }

  lemma TempToCelsiusMonotoneOrEqual(a: u16, b: u16)
    requires a <= b
    ensures TempToCelsius(a) <= TempToCelsius(b)
  {
  }

  /** On rectangles of at most 65537 cells (every rectangle of a 256 x 192 plane) the source's statistic is the corrected one. */
  lemma RectTemperatureExactUpTo65537Cells(a: NdArray, x: int, y: int, width: int, height: int)
    requires a.WellFormed() && width * height <= 65537
    ensures RectTemperature(a, x, y, width, height) == RectTemperatureWide(a, x, y, width, height)
  {
    if a.Ndim() == 2 && RectInside(a, x, y, width, height) && width > 0 && height > 0 {
      RectCellCount(a, x, y, width, height);
      Mean32ExactUpTo65537Cells(RectCells(a, x, y, width, height));
    }
  }

  /** Hence on such rectangles min <= avg <= max holds of the source's statistic too. */
  lemma RectMeanWithinRange(a: NdArray, x: int, y: int, width: int, height: int)
    requires a.WellFormed() && width * height <= 65537
    requires RectTemperature(a, x, y, width, height).ok
    ensures RectTemperature(a, x, y, width, height).minC <= RectTemperature(a, x, y, width, height).avgC
    ensures RectTemperature(a, x, y, width, height).avgC <= RectTemperature(a, x, y, width, height).maxC
  {
    RectTemperatureExactUpTo65537Cells(a, x, y, width, height);
  }

  /** A 1 x 1 rectangle succeeds exactly where the point query does, with max = min = avg = the point's value. */
  lemma RectOneByOneIsPoint(a: NdArray, x: int, y: int)
    requires a.WellFormed()
    ensures RectTemperature(a, x, y, 1, 1).ok == GetPointTemperature(a, x, y).ok
    ensures RectTemperature(a, x, y, 1, 1).ok ==>
              var p := GetPointTemperature(a, x, y).celsius;
              RectTemperature(a, x, y, 1, 1) == RegionTemps(true, p, p, p)
  {
    if a.Ndim() == 2 && RectInside(a, x, y, 1, 1) {
      RectCellAt(a, x, y, 1, 1, 0, 0);
      RectCellCount(a, x, y, 1, 1);
      var cells := RectCells(a, x, y, 1, 1);
      assert cells == [At(a, x, y)];
      SingletonAggregates(At(a, x, y));
    }
  }

  /** On a 256 x 192 plane the 50 x 50 rectangle at (100, 80) is measured; widened to 200 it leaves the plane and fails. */
  lemma RectBoundsOn256By192(a: NdArray)
    requires a.WellFormed() && a.shape == [192, 256]
    ensures RectTemperature(a, 100, 80, 50, 50).ok
    ensures RectTemperature(a, 100, 80, 200, 50) == NO_REGION
  {
  }

  lemma SingletonAggregates(v: u16)
    ensures Lowest([v]) == v && Highest([v]) == v && Mean32([v]) == v
  {
    assert [v][..0] == [];
    assert Total32([v]) == U32(0 + v);
  }

  /** Constant sequences: their sum is the count times the value. */
  lemma {:induction false} TotalConstant(s: seq<u16>, v: u16)
    requires forall i :: 0 <= i < |s| ==> s[i] == v
    ensures Total(s) == |s| * v
  {
    if s != [] {
      TotalConstant(s[..|s| - 1], v);
    }
  }

  /**
   * The uint32 sum wraps: a 1 x 65538 plane whose every cell is 65535 sums to 65534 modulo 2^32,
   * so the reported mean is the code 0 (-273.15 C), below the minimum 65535.
   */
  lemma WrappedMeanBelowMinimum()
    ensures var a := NdArray([1, 65538], seq(65538, _ => 65535));
            var r := RectTemperature(a, 0, 0, 65538, 1);
            r.ok && r.avgC == TempToCelsius(0) && r.minC == TempToCelsius(65535) && r.avgC < r.minC
  {
    var a := NdArray([1, 65538], seq(65538, _ => 65535));
    var cells := RectCells(a, 0, 0, 65538, 1);
    RectCellCount(a, 0, 0, 65538, 1);
    forall k | 0 <= k < |cells| ensures cells[k] == 65535 {
      RectCellAt(a, 0, 0, 65538, 1, 0, k);
    }
    TotalConstant(cells, 65535);
    assert Total(cells) == 65538 * 65535;
    Total32IsTotalMod(cells);
    assert Total32(cells) == 65534;
    LowestIsMinimum(cells);
    assert Lowest(cells) == 65535;
    assert Mean32(cells) == 0;
  }

  /**
   * The cells the nested loop has read after `rows` whole rows and the first n cells of the next
   * one, in the order it read them.
   */
  function Visited(a: NdArray, x: int, y: int, width: int, rows: nat, n: nat): seq<u16>
    requires a.WellFormed() && a.Ndim() == 2 && CellsInside(a, x, y, width, rows)
    requires n > 0 ==> y + rows < a.shape[0] && x + n <= a.shape[1]
  {
    RectCells(a, x, y, width, rows) + RowCells(a, x, y + rows, n)
  }

  /** Reading the next cell of the current row appends it. */
  lemma VisitedNext(a: NdArray, x: int, y: int, width: int, rows: nat, n: nat, col: int, row: int)
    requires a.WellFormed() && a.Ndim() == 2 && CellsInside(a, x, y, width, rows)
    requires row == y + rows < a.shape[0] && col == x + n && col + 1 <= a.shape[1]
    ensures InPlane(a, col, row)
    ensures Visited(a, x, y, width, rows, n + 1) == Visited(a, x, y, width, rows, n) + [At(a, col, row)]
  {
  }

  /** Finishing a row (or skipping it, when width <= 0) starts the next one with nothing read. */
  lemma VisitedRowDone(a: NdArray, x: int, y: int, width: int, rows: nat)
    requires a.WellFormed() && a.Ndim() == 2 && CellsInside(a, x, y, width, rows + 1)
    requires width > 0 ==> y + rows < a.shape[0] && x + width <= a.shape[1]
    ensures Visited(a, x, y, width, rows, if width > 0 then width else 0) == Visited(a, x, y, width, rows + 1, 0)
  {
  }

  /** After the last row the scan has read exactly the rectangle's cells. */
  lemma VisitedAll(a: NdArray, x: int, y: int, width: int, height: int, rows: nat)
    requires a.WellFormed() && a.Ndim() == 2 && CellsInside(a, x, y, width, height)
    requires rows == if height > 0 then height else 0
    ensures Visited(a, x, y, width, rows, 0) == RectCells(a, x, y, width, height)
  {
  }

  /** One iteration of the inner loop updates the running aggregates of the cells read so far. */
  lemma ScanStep(seen: seq<u16>, t: u16, lo: u16, hi: u16, sum: nat)
    requires lo == Lowest(seen) && hi == Highest(seen) && sum == Total32(seen)
    ensures Lowest(seen + [t]) == if t < lo then t else lo
    ensures Highest(seen + [t]) == if t > hi then t else hi
    ensures Total32(seen + [t]) == U32(sum + t)
  {
    assert (seen + [t])[..|seen|] == seen;
  }

  /**
   * The state of the nested loop after `rows` whole rows and n cells of the next: min_temp,
   * max_temp, sum_temp and count are the aggregates of exactly the cells read so far.
   */
  ghost predicate Scanned(a: NdArray, x: int, y: int, width: int, rows: nat, n: nat,
                          lo: u16, hi: u16, sum: nat, count: nat)
  {
    && a.WellFormed() && a.Ndim() == 2 && CellsInside(a, x, y, width, rows)
    && (n > 0 ==> y + rows < a.shape[0] && x + n <= a.shape[1])
    && var seen := Visited(a, x, y, width, rows, n);
       lo == Lowest(seen) && hi == Highest(seen) && sum == Total32(seen) && count == |seen|
  }

  /** The body of the inner loop keeps the aggregates in step with the cells read. */
  lemma ScanNext(a: NdArray, x: int, y: int, width: int, rows: nat, n: nat, col: int, row: int,
                 lo: u16, hi: u16, sum: nat, count: nat)
    requires Scanned(a, x, y, width, rows, n, lo, hi, sum, count)
    requires row == y + rows < a.shape[0] && col == x + n && col + 1 <= a.shape[1]
    ensures InPlane(a, col, row)
    ensures var t := At(a, col, row);
            Scanned(a, x, y, width, rows, n + 1, if t < lo then t else lo, if t > hi then t else hi,
                    U32(sum + t), count + 1)
  {
    VisitedNext(a, x, y, width, rows, n, col, row);
    ScanStep(Visited(a, x, y, width, rows, n), At(a, col, row), lo, hi, sum);
  }

  /** Leaving the inner loop moves the scan to the start of the next row. */
  lemma ScanRowDone(a: NdArray, x: int, y: int, width: int, rows: nat, lo: u16, hi: u16, sum: nat, count: nat)
    requires Scanned(a, x, y, width, rows, if width > 0 then width else 0, lo, hi, sum, count)
    requires CellsInside(a, x, y, width, rows + 1)
    ensures Scanned(a, x, y, width, rows + 1, 0, lo, hi, sum, count)
  {
    VisitedRowDone(a, x, y, width, rows);
  }

  /** Leaving the outer loop, the aggregates are those of the whole rectangle. */
  lemma ScanDone(a: NdArray, x: int, y: int, width: int, height: int, rows: nat,
                 lo: u16, hi: u16, sum: nat, count: nat)
    requires Scanned(a, x, y, width, rows, 0, lo, hi, sum, count)
    requires RectInside(a, x, y, width, height) && rows == if height > 0 then height else 0
    ensures count == 0 ==> RectTemperature(a, x, y, width, height) == NO_REGION
    ensures count > 0 ==>
              RectTemperature(a, x, y, width, height)
              == RegionTemps(true, TempToCelsius(hi), TempToCelsius(lo), TempToCelsius(U16(sum / count)))
  {
    VisitedAll(a, x, y, width, height, rows);
    RectCellCount(a, x, y, width, height);
  }

  /**
   * The inner loop of get_rect_temperature: reads the cells of row `row` of the rectangle, left to
   * right, into the running minimum, maximum, uint32_t sum and count.
   */
  method ScanRow(a: NdArray, x: int, y: int, width: int, ghost rows: nat, row: int,
                 min0: u16, max0: u16, sum0: nat, count0: nat)
    returns (minTemp: u16, maxTemp: u16, sumTemp: nat, count: nat)
    requires Scanned(a, x, y, width, rows, 0, min0, max0, sum0, count0)
    requires row == y + rows && CellsInside(a, x, y, width, rows + 1)
    requires width > 0 ==> row < a.shape[0]
    ensures Scanned(a, x, y, width, rows + 1, 0, minTemp, maxTemp, sumTemp, count)
  {
    minTemp, maxTemp, sumTemp, count := min0, max0, sum0, count0;
    ghost var cols: nat := 0;
    var col := x;
    while col < x + width
      invariant x <= col && (width > 0 ==> col <= x + width) && (width <= 0 ==> col == x)
      invariant cols == col - x
      invariant Scanned(a, x, y, width, rows, cols, minTemp, maxTemp, sumTemp, count)
    {
      ScanNext(a, x, y, width, rows, cols, col, row, minTemp, maxTemp, sumTemp, count);
      var temp := At(a, col, row);
      minTemp := if temp < minTemp then temp else minTemp;
      maxTemp := if temp > maxTemp then temp else maxTemp;
      sumTemp := U32(sumTemp + temp);
      count := count + 1;
      cols := cols + 1;
      col := col + 1;
    }
    ScanRowDone(a, x, y, width, rows, minTemp, maxTemp, sumTemp, count);
  }

  /** get_rect_temperature: the guards, then the scan row by row, with the uint32_t accumulator as written. */
  method GetRectTemperature(a: NdArray, x: int, y: int, width: int, height: int) returns (r: RegionTemps)
    requires a.WellFormed()
    ensures r == RectTemperature(a, x, y, width, height)
  {
    if a.Ndim() != 2 {
      return NO_REGION;
    }
    var imgWidth, imgHeight := a.shape[1], a.shape[0];
    if x < 0 || y < 0 || x + width > imgWidth || y + height > imgHeight {
      return NO_REGION;
    }
    var minTemp: u16, maxTemp: u16, sumTemp: nat, count: nat := MIN_START, MAX_START, 0, 0;
    ghost var rows: nat := 0;
    var row := y;
    while row < y + height
      invariant y <= row && (height > 0 ==> row <= y + height) && (height <= 0 ==> row == y)
      invariant rows == row - y
      invariant Scanned(a, x, y, width, rows, 0, minTemp, maxTemp, sumTemp, count)
    {
      minTemp, maxTemp, sumTemp, count := ScanRow(a, x, y, width, rows, row, minTemp, maxTemp, sumTemp, count);
      rows := rows + 1;
      row := row + 1;
    }
    ScanDone(a, x, y, width, height, rows, minTemp, maxTemp, sumTemp, count);
    if count == 0 {
      return NO_REGION;
    }
    var avg := U16(sumTemp / count);
    r := RegionTemps(true, TempToCelsius(maxTemp), TempToCelsius(minTemp), TempToCelsius(avg));
  }
}
