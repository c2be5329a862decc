/** The numpy arrays and result tuples that cross the pybind11 boundary, as plain values. */
module NdArrays {
  import opened Ints

  /**
   * A C-contiguous numpy uint16 array: its shape and its cells in row-major order.
   * A 2-D array has shape [rows, cols] and holds rows * cols cells.
   */
  datatype NdArray = NdArray(shape: seq<nat>, data: seq<u16>) {

    function Ndim(): nat {
      |shape|
    }

    /** What numpy guarantees of every array it hands over. */
    ghost predicate WellFormed() {
      |shape| == 2 ==> |data| == shape[0] * shape[1]
    }
  }

  /** The tuple (ok, celsius) of a point query. */
  datatype PointTemp = PointTemp(ok: bool, celsius: real)

  const NO_POINT: PointTemp := PointTemp(false, 0.0)

  /** The tuple (ok, max, min, avg) of a rectangle or line query, in degrees Celsius. */
  datatype RegionTemps = RegionTemps(ok: bool, maxC: real, minC: real, avgC: real)

  const NO_REGION: RegionTemps := RegionTemps(false, 0.0, 0.0, 0.0)
}
