/**
 * The interpolated image (surfaceplot/models/interpolate.py): the scattered
 * (x, y, z) points read from a CSV file, the sampling grid built from them,
 * and the call into the scattered-data interpolation routine, which the
 * model does not look inside: an `Interpolator` value says when it fails and
 * what it yields at each grid point.
 */
module Interpolate {
  import opened Basics
  import Export

  // ---------------------------------------------------------------------
  // Methods, errors, data
  // ---------------------------------------------------------------------

  /** The `Methods` enum. */
  datatype Method = Linear | Cubic | Nearest

  /** The enum member's value, the text shown in the method selector. */
  function MethodValue(m: Method): (s: string)
    ensures MethodFromValue(s) == Some(m)
  {
    match m
    case Linear => "linear"
    case Cubic => "cubic"
    case Nearest => "nearest"
  }

  /** `Methods(s)`: lookup by value; any other text is a ValueError (None). */
  function MethodFromValue(s: string): (r: Option<Method>)
    ensures r.Some? <==> s == "linear" || s == "cubic" || s == "nearest"
  {
    if s == "linear" then Some(Linear)
    else if s == "cubic" then Some(Cubic)
    else if s == "nearest" then Some(Nearest)
    else None
  }

  /** Values and members correspond one to one. */
  lemma MethodValueRoundTrip(s: string, m: Method)
    ensures MethodFromValue(s) == Some(m) <==> MethodValue(m) == s
  {
  }

  /**
   * The exceptions the model distinguishes: NotCsvError, IndexError, the
   * ValueErrors of numpy (empty data, negative sample count), of
   * get_coord_range and of calc_griddata, the ValueError of pandas and
   * numpy when array shapes disagree, and the error of using an attribute
   * that is still None.
   */
  datatype Error =
    | NotCsv
    | IndexOutOfRange
    | EmptyData
    | NegativeSamples
    | BadAxis
    | CannotInterpolate
    | ShapeMismatch
    | NoData

  /** The members that Python raises as ValueError. */
  predicate IsValueError(e: Error) {
    e.EmptyData? || e.NegativeSamples? || e.BadAxis? || e.CannotInterpolate? || e.ShapeMismatch?
  }

  datatype Result<T> = Ok(value: T) | Err(error: Error)

  /** A DataFrame of floats with `columns` columns. */
  datatype Frame = Frame(columns: nat, rows: seq<seq<real>>)

  ghost predicate WellFormed(f: Frame) {
    forall i :: 0 <= i < |f.rows| ==> |f.rows[i]| == f.columns
  }

  /** `f.iloc[:, -k:]`: the last k columns, or all of them when there are fewer. */
  function LastColumns(f: Frame, k: nat): (r: Frame)
    requires WellFormed(f)
    ensures WellFormed(r) && r.columns == Min(k, f.columns) && |r.rows| == |f.rows|
    ensures forall i, j :: 0 <= i < |r.rows| && 0 <= j < r.columns ==>
              r.rows[i][j] == f.rows[i][f.columns - r.columns + j]
  {
    var w := Min(k, f.columns);
    Frame(w, seq(|f.rows|, i requires 0 <= i < |f.rows| => f.rows[i][f.columns - w..]))
  }

  /** `f.iloc[:, c]` */
  function FrameColumn(f: Frame, c: nat): (col: seq<real>)
    requires WellFormed(f) && c < f.columns
    ensures |col| == |f.rows|
    ensures forall i :: 0 <= i < |col| ==> col[i] == f.rows[i][c]
  {
    seq(|f.rows|, i requires 0 <= i < |f.rows| => f.rows[i][c])
  }

  // ---------------------------------------------------------------------
  // Reductions: np.min, np.max, len(set(x))
  // ---------------------------------------------------------------------

  function SeqMin(s: seq<real>): (m: real)
    requires |s| > 0
    ensures m in s && forall i :: 0 <= i < |s| ==> m <= s[i]
  {
    if |s| == 1 then s[0]
    else
      var rest := SeqMin(s[1..]);
      assert forall i :: 1 <= i < |s| ==> s[i] == s[1..][i - 1];
      if s[0] <= rest then s[0] else rest
  }

  function SeqMax(s: seq<real>): (m: real)
    requires |s| > 0
    ensures m in s && forall i :: 0 <= i < |s| ==> s[i] <= m
  {
    if |s| == 1 then s[0]
    else
      var rest := SeqMax(s[1..]);
      assert forall i :: 1 <= i < |s| ==> s[i] == s[1..][i - 1];
      if s[0] >= rest then s[0] else rest
  }

  /** `set(s)` */
  function Distinct(s: seq<real>): set<real> {
    set x | x in s
  }

  /** A sequence with one distinct value has its minimum equal to its maximum. */
  lemma OneDistinctValue(s: seq<real>)
    requires |s| > 0 && |Distinct(s)| == 1
    ensures SeqMin(s) == SeqMax(s)
  {
    var lo, hi := SeqMin(s), SeqMax(s);
    if lo != hi {
      assert {lo, hi} <= Distinct(s);
      assert |{lo, hi}| == 2;
      SubsetCard({lo, hi}, Distinct(s));
      assert false;
    }
  }

  lemma SubsetCard(a: set<real>, b: set<real>)
    requires a <= b
    ensures |a| <= |b|
  {
    assert b == a + (b - a);
  }

  /** A non-empty sequence has at least one distinct value. */
  lemma DistinctNonEmpty(s: seq<real>)
    requires |s| > 0
    ensures |Distinct(s)| >= 1
  {
    assert s[0] in Distinct(s);
  }

  // ---------------------------------------------------------------------
  // np.linspace and np.meshgrid
  // ---------------------------------------------------------------------

  /** `np.linspace(a, b, n)` for n >= 0, in exact arithmetic. */
  function Linspace(a: real, b: real, n: nat): (r: seq<real>)
    ensures |r| == n
  {
    if n == 1 then [a]
    else seq(n, i requires 0 <= i < n => a + (i as real) * (b - a) / ((n - 1) as real))
  }

  /** The first sample is the start and the last one the stop. */
  lemma LinspaceEnds(a: real, b: real, n: nat)
    requires n >= 2
    ensures Linspace(a, b, n)[0] == a && Linspace(a, b, n)[n - 1] == b
  {
    var d := (n - 1) as real;
    assert (d * (b - a)) / d == b - a;
  }

  /** With a <= b the samples are non-decreasing and stay within [a, b]. */
  lemma LinspaceOrdered(a: real, b: real, n: nat, i: nat, j: nat)
    requires a <= b && i <= j < n
    ensures a <= Linspace(a, b, n)[i] <= Linspace(a, b, n)[j] <= b
  {
    if n >= 2 {
      StepsBetween(b - a, n - 1, i, j);
      LinspaceAtStep(a, b, n, i);
      LinspaceAtStep(a, b, n, j);
    }
  }

  /** k steps of width w / m. */
  function Steps(w: real, m: nat, k: nat): real
    requires m > 0
  {
    (k as real) * w / (m as real)
  }

  /** Sample k of an n-point linspace is a plus k steps. */
  lemma LinspaceAtStep(a: real, b: real, n: nat, k: nat)
    requires 2 <= n && k < n
    ensures Linspace(a, b, n)[k] == a + Steps(b - a, n - 1, k)
  {
    assert n != 1;
  }

  /** x and y steps of width w / m, for x <= y <= m, lie in [0, w] in order. */
  lemma StepsBetween(w: real, m: nat, x: nat, y: nat)
    requires 0.0 <= w && x <= y <= m && m > 0
    ensures 0.0 <= Steps(w, m, x) <= Steps(w, m, y) <= w
  {
    StepsMono(w, m, x, y);
    StepsMono(w, m, y, m);
    StepsMono(w, m, 0, x);
    StepsAll(w, m);
  }

  /** More steps reach no less far. */
  lemma StepsMono(w: real, m: nat, x: nat, y: nat)
    requires 0.0 <= w && x <= y && m > 0
    ensures Steps(w, m, x) <= Steps(w, m, y)
  {
    MulMono(x as real, y as real, w);
    DivMono((x as real) * w, (y as real) * w, m as real);
  }

  /** No steps reach 0 and m steps of width w / m reach w. */
  lemma StepsAll(w: real, m: nat)
    requires m > 0
    ensures Steps(w, m, 0) == 0.0 && Steps(w, m, m) == w
  {
    DivCancel(w, m as real);
  }

  lemma DivCancel(w: real, d: real)
    requires d > 0.0
    ensures (d * w) / d == w
  {
  }

  lemma MulMono(x: real, y: real, w: real)
    requires 0.0 <= x <= y && 0.0 <= w
    ensures 0.0 <= x * w <= y * w
  {
  }

  lemma DivMono(x: real, y: real, d: real)
    requires 0.0 <= x <= y && d > 0.0
    ensures 0.0 <= x / d <= y / d
  {
  }

  /** `np.meshgrid(rx, ry)`: |ry| rows; in xg every row is rx, in yg row i is ry[i] repeated. */
  function MeshGrid(rx: seq<real>, ry: seq<real>): (g: (Grid, Grid))
    ensures |g.0| == |ry| && |g.1| == |ry|
    ensures forall i :: 0 <= i < |ry| ==> g.0[i] == rx
    ensures forall i :: 0 <= i < |ry| ==> |g.1[i]| == |rx| && forall j :: 0 <= j < |rx| ==> g.1[i][j] == ry[i]
  {
    var xg: Grid := seq(|ry|, i => rx);
    var yg: Grid := seq(|ry|, i requires 0 <= i < |ry| => seq(|rx|, j => ry[i]));
    (xg, yg)
  }

  /** `x_grid[0]`: the x coordinates of the image columns. */
  function XCoordOf(xg: Grid): Result<seq<real>> {
    if |xg| == 0 then Err(IndexOutOfRange) else Ok(xg[0])
  }

  /** `y_grid[:, 0]`: the y coordinates of the image rows. */
  function YCoordOf(yg: Grid): Result<seq<real>> {
    if Width(yg) == 0 then Err(IndexOutOfRange) else Ok(Column(yg, 0))
  }

  /**
   * The coordinate properties give back the vectors the grid was built
   * from: x_grid[0] is rx and y_grid[:, 0] is ry.
   */
  lemma MeshGridCoords(rx: seq<real>, ry: seq<real>)
    requires |rx| > 0 && |ry| > 0
    ensures XCoordOf(MeshGrid(rx, ry).0) == Ok(rx)
    ensures YCoordOf(MeshGrid(rx, ry).1) == Ok(ry)
  {
    var yg := MeshGrid(rx, ry).1;
    assert Width(yg) == |rx|;
    assert Column(yg, 0) == ry;
  }

  // ---------------------------------------------------------------------
  // make_xy_grid and get_coord_range as functions of the data
  // ---------------------------------------------------------------------

  /**
   * Why `make_xy_grid` raises on this data, if it does, without building
   * the grids: a column always has a distinct value, so the sample count
   * is negative exactly when the resolution is.
   */
  function GridsError(d: Frame, resolution: int): Option<Error>
    requires WellFormed(d)
  {
    if d.columns < 1 then Some(IndexOutOfRange)
    else if |d.rows| == 0 then Some(EmptyData)
    else if d.columns < 2 then Some(IndexOutOfRange)
    else if resolution < 0 then Some(NegativeSamples)
    else None
  }

  /**
   * The grids `make_xy_grid` builds from the data and the resolution,
   * with its failures in the order numpy meets them: column 0 missing,
   * no rows (np.min of an empty array), column 1 missing, a negative
   * sample count.
   */
  function Grids(d: Frame, resolution: int): (r: Result<(Grid, Grid)>)
    requires WellFormed(d)
    ensures r.Err? <==> GridsError(d, resolution).Some?
    ensures r.Err? ==> r.error == GridsError(d, resolution).value
  {
    if d.columns < 1 then Err(IndexOutOfRange)
    else if |d.rows| == 0 then Err(EmptyData)
    else if d.columns < 2 then Err(IndexOutOfRange)
    else
      var x, y := FrameColumn(d, 0), FrameColumn(d, 1);
      var nx, ny := |Distinct(x)| * resolution, |Distinct(y)| * resolution;
      DistinctNonEmpty(x);
      DistinctNonEmpty(y);
      SamplesSign(|Distinct(x)|, resolution);
      SamplesSign(|Distinct(y)|, resolution);
      if nx < 0 then Err(NegativeSamples)
      else
        var rx := Linspace(SeqMin(x), SeqMax(x), nx);
        var ry := Linspace(SeqMin(y), SeqMax(y), ny);
        Ok(MeshGrid(rx, ry))
  }

  /** With at least one distinct value, the sample count has the sign of the resolution. */
  lemma SamplesSign(k: int, resolution: int)
    requires k >= 1
    ensures k * resolution < 0 <==> resolution < 0
  {
    if resolution >= 0 {
      assert k * resolution >= 0;
    } else {
      assert k * resolution <= resolution;
    }
  }

  /** make_xy_grid succeeds exactly on data with two columns, a row, and a non-negative resolution. */
  lemma GridsSucceed(d: Frame, resolution: int)
    requires WellFormed(d)
    ensures Grids(d, resolution).Ok? <==> d.columns >= 2 && |d.rows| > 0 && resolution >= 0
  {
    if d.columns >= 2 && |d.rows| > 0 {
      DistinctNonEmpty(FrameColumn(d, 0));
    }
  }

  /**
   * The grid shape is (distinct y count * resolution, distinct x count *
   * resolution), both grids alike.
   */
  lemma GridsShape(d: Frame, resolution: int)
    requires WellFormed(d) && Grids(d, resolution).Ok?
    ensures var (xg, yg) := Grids(d, resolution).value;
      && d.columns >= 2
      && Height(xg) == Height(yg) == |Distinct(FrameColumn(d, 1))| * resolution
      && forall i :: 0 <= i < Height(xg) ==>
           |xg[i]| == |yg[i]| == |Distinct(FrameColumn(d, 0))| * resolution
  {
  }

  /**
   * With a resolution of at least 1 the grids have a row and a column, so
   * the image interpolated on them has at least one pixel.
   */
  lemma GridsNonEmpty(d: Frame, resolution: int)
    requires WellFormed(d) && resolution >= 1 && Grids(d, resolution).Ok?
    ensures Height(Grids(d, resolution).value.0) > 0 && Width(Grids(d, resolution).value.0) > 0
  {
    GridsShape(d, resolution);
    AxisEnds(FrameColumn(d, 0), resolution);
    AxisEnds(FrameColumn(d, 1), resolution);
  }

  /**
   * `get_coord_range(axis)`: (min, max) of column 0 for 'x' and of column 1
   * for 'y'. A column without rows is an error here; pandas gives (nan, nan)
   * for it, a value the model does not have.
   */
  function CoordRange(d: Frame, axis: string): (r: Result<(real, real)>)
    requires WellFormed(d)
    ensures r.Err? && axis != "x" && axis != "y" ==> r.error == BadAxis
  {
    if axis != "x" && axis != "y" then Err(BadAxis)
    else
      var c := if axis == "x" then 0 else 1;
      if d.columns <= c then Err(IndexOutOfRange)
      else if |d.rows| == 0 then Err(EmptyData)
      else
        var col := FrameColumn(d, c);
        Ok((SeqMin(col), SeqMax(col)))
  }

  /**
   * Only 'x' and 'y' are accepted; the range returned is attained by the
   * data, bounds every value of the column, and has min <= max.
   */
  lemma CoordRangeSpec(d: Frame, axis: string)
    requires WellFormed(d)
    ensures axis != "x" && axis != "y" ==> CoordRange(d, axis) == Err(BadAxis)
    ensures (axis == "x" || axis == "y") && CoordRange(d, axis).Ok? ==>
      var c := if axis == "x" then 0 else 1;
      var (lo, hi) := CoordRange(d, axis).value;
      && c < d.columns && lo <= hi
      && (exists i :: 0 <= i < |d.rows| && d.rows[i][c] == lo)
      && (exists i :: 0 <= i < |d.rows| && d.rows[i][c] == hi)
      && forall i :: 0 <= i < |d.rows| ==> lo <= d.rows[i][c] <= hi
  {
    if (axis == "x" || axis == "y") && CoordRange(d, axis).Ok? {
      var c := if axis == "x" then 0 else 1;
      var col := FrameColumn(d, c);
      var lo, hi := SeqMin(col), SeqMax(col);
      var k :| 0 <= k < |col| && col[k] == lo;
      var l :| 0 <= l < |col| && col[l] == hi;
      assert d.rows[k][c] == lo && d.rows[l][c] == hi;
      assert col[0] <= hi;
    }
  }

  /** Data the grids can be built from has both coordinate ranges. */
  lemma GridsCoordRanges(d: Frame, resolution: int)
    requires WellFormed(d) && GridsError(d, resolution).None?
    ensures CoordRange(d, "x").Ok? && CoordRange(d, "y").Ok?
  {
  }

  /**
   * Whenever the grids could be built, both coordinate ranges exist, and
   * with resolution >= 1 the coordinate vectors of the image run from the
   * axis minimum (first element) to the axis maximum (last element).
   */
  lemma GridsCoordinates(d: Frame, resolution: int, xg: Grid, yg: Grid)
    requires WellFormed(d) && resolution >= 1 && Grids(d, resolution) == Ok((xg, yg))
    ensures CoordRange(d, "x").Ok? && CoordRange(d, "y").Ok?
    ensures XCoordOf(xg).Ok? && YCoordOf(yg).Ok?
    ensures |XCoordOf(xg).value| == |Distinct(FrameColumn(d, 0))| * resolution
    ensures |YCoordOf(yg).value| == |Distinct(FrameColumn(d, 1))| * resolution
    ensures Spans(XCoordOf(xg).value, CoordRange(d, "x").value)
    ensures Spans(YCoordOf(yg).value, CoordRange(d, "y").value)
  {
    var x, y := FrameColumn(d, 0), FrameColumn(d, 1);
    var rx := Linspace(SeqMin(x), SeqMax(x), |Distinct(x)| * resolution);
    var ry := Linspace(SeqMin(y), SeqMax(y), |Distinct(y)| * resolution);
    GridsValue(d, resolution);
    AxisEnds(x, resolution);
    AxisEnds(y, resolution);
    GridAxes(rx, ry, xg, yg);
    CoordRangeX(d);
    CoordRangeY(d);
  }

  /** The coordinate vectors of a grid built by MeshGrid are the vectors it was built from. */
  lemma GridAxes(rx: seq<real>, ry: seq<real>, xg: Grid, yg: Grid)
    requires |rx| > 0 && |ry| > 0 && (xg, yg) == MeshGrid(rx, ry)
    ensures XCoordOf(xg) == Ok(rx) && YCoordOf(yg) == Ok(ry)
  {
    MeshGridCoords(rx, ry);
  }

  /** The range of the x axis is the range of column 0. */
  lemma CoordRangeX(d: Frame)
    requires WellFormed(d) && d.columns >= 1 && |d.rows| > 0
    ensures CoordRange(d, "x") == Ok((SeqMin(FrameColumn(d, 0)), SeqMax(FrameColumn(d, 0))))
  {
  }

  /** The range of the y axis is the range of column 1. */
  lemma CoordRangeY(d: Frame)
    requires WellFormed(d) && d.columns >= 2 && |d.rows| > 0
    ensures CoordRange(d, "y") == Ok((SeqMin(FrameColumn(d, 1)), SeqMax(FrameColumn(d, 1))))
  {
    assert "y" != "x";
  }

  /** The grids of successful data, written out. */
  lemma GridsValue(d: Frame, resolution: int)
    requires WellFormed(d) && Grids(d, resolution).Ok?
    ensures d.columns >= 2 && |d.rows| > 0
    ensures var x, y := FrameColumn(d, 0), FrameColumn(d, 1);
      Grids(d, resolution).value
        == MeshGrid(Linspace(SeqMin(x), SeqMax(x), |Distinct(x)| * resolution),
                    Linspace(SeqMin(y), SeqMax(y), |Distinct(y)| * resolution))
  {
  }

  /** r is non-empty, starts at range.0 and ends at range.1. */
  predicate Spans(r: seq<real>, range: (real, real)) {
    |r| > 0 && r[0] == range.0 && r[|r| - 1] == range.1
  }

  /** One axis of GridsCoordinates: the resolved vector ends at the column's min and max. */
  lemma AxisEnds(col: seq<real>, resolution: int)
    requires |col| > 0 && resolution >= 1
    ensures |Distinct(col)| * resolution >= 1
    ensures Spans(Linspace(SeqMin(col), SeqMax(col), |Distinct(col)| * resolution), (SeqMin(col), SeqMax(col)))
  {
    DistinctNonEmpty(col);
    MulAtLeastOne(|Distinct(col)|, resolution);
    SampleSpans(col, |Distinct(col)| * resolution);
  }

  /** n >= 1 samples of a column's range span it; one sample only when the column is constant. */
  lemma SampleSpans(col: seq<real>, n: nat)
    requires |col| > 0 && n >= 1 && (n == 1 ==> |Distinct(col)| == 1)
    ensures Spans(Linspace(SeqMin(col), SeqMax(col), n), (SeqMin(col), SeqMax(col)))
  {
    if n == 1 {
      OneDistinctValue(col);
      LinspaceOne(SeqMin(col), SeqMax(col));
    } else {
      LinspaceSpans(SeqMin(col), SeqMax(col), n);
    }
  }

  lemma LinspaceOne(a: real, b: real)
    requires a == b
    ensures Spans(Linspace(a, b, 1), (a, b))
  {
  }

  lemma LinspaceSpans(a: real, b: real, n: nat)
    requires n >= 2
    ensures Spans(Linspace(a, b, n), (a, b))
  {
    LinspaceEnds(a, b, n);
  }

  lemma MulAtLeastOne(a: int, b: int)
    requires a >= 1 && b >= 1
    ensures a * b >= 1 && a * b >= a && (a * b == 1 ==> a == 1)
  {
  }

  // ---------------------------------------------------------------------
  // The interpolation call
  // ---------------------------------------------------------------------

  /**
   * The scattered-data interpolation routine, not modelled: for a method
   * and the data it either fails (a triangulation error, re-raised as
   * ValueError) or gives a value at each requested (x, y).
   */
  datatype Interpolator = Interpolator(fails: (Method, Frame) -> bool, at: (Method, Frame, real, real) -> real)

  /** The image `calc_griddata` returns for data and grids, or why it fails. */
  function Griddata(ip: Interpolator, m: Method, d: Frame, xg: Grid, yg: Grid): (r: Result<Grid>)
    requires Height(xg) == Height(yg) && Width(xg) == Width(yg)
    ensures r.Ok? <==> d.columns > 0 && !ip.fails(m, d)
    ensures r.Ok? ==> Height(r.value) == Height(xg) && Width(r.value) == Width(xg)
    ensures r.Ok? ==> forall i, j :: 0 <= i < Height(xg) && 0 <= j < Width(xg) ==>
              r.value[i][j] == ip.at(m, d, xg[i][j], yg[i][j])
    ensures r.Err? && d.columns > 0 ==> r.error == CannotInterpolate
  {
    if d.columns == 0 then Err(IndexOutOfRange)
    else if ip.fails(m, d) then Err(CannotInterpolate)
    else
      var w := Width(xg);
      var img: Grid := seq(|xg|, i requires 0 <= i < |xg| =>
        seq(w, j requires 0 <= j < w => ip.at(m, d, xg[i][j], yg[i][j])));
      Ok(img)
  }

  // ---------------------------------------------------------------------
  // CSV file paths
  // ---------------------------------------------------------------------

  /** The index of the last occurrence of c in s, or -1. */
  function RFind(s: string, c: char): (i: int)
    ensures -1 <= i < |s|
    ensures i >= 0 ==> s[i] == c
    ensures forall k :: i < k < |s| ==> s[k] != c
  {
    if |s| == 0 then -1
    else if s[|s| - 1] == c then |s| - 1
    else RFind(s[..|s| - 1], c)
  }

  /** `Path(p).name`: the part after the last '/'. */
  function FileName(p: string): (n: string)
    ensures forall k :: 0 <= k < |n| ==> n[k] != '/'
  {
    p[RFind(p, '/') + 1..]
  }

  /** `Path(p).suffix`: from the last '.' of the name, unless that dot is first or last. */
  function Suffix(p: string): (r: string)
    ensures r == [] || (|r| >= 2 && r[0] == '.')
    ensures forall k :: 1 <= k < |r| ==> r[k] != '.' && r[k] != '/'
  {
    var n := FileName(p);
    var i := RFind(n, '.');
    if 0 < i < |n| - 1 then n[i..] else ""
  }

  /** `Path(p).stem`: the name without its suffix. */
  function Stem(p: string): (r: string)
    ensures forall k :: 0 <= k < |r| ==> r[k] != '/'
    ensures |r| == 0 <==> |FileName(p)| == 0
  {
    var n := FileName(p);
    var i := RFind(n, '.');
    if 0 < i < |n| - 1 then n[..i] else n
  }

  /** The stem and the suffix put together give the name back. */
  lemma StemSuffix(p: string)
    ensures Stem(p) + Suffix(p) == FileName(p)
  {
  }

  /**
   * The suffix test is `.csv` exactly (case-sensitive): the name ends in
   * `.csv` with at least one character before it.
   */
  lemma CsvSuffix(p: string)
    ensures Suffix(p) == ".csv" <==> |FileName(p)| > 4 && FileName(p)[|FileName(p)| - 4..] == ".csv"
  {
    var n := FileName(p);
    var i := RFind(n, '.');
    if |n| > 4 && n[|n| - 4..] == ".csv" {
      assert n[|n| - 4] == '.';
      assert n[|n| - 3] == 'c' && n[|n| - 2] == 's' && n[|n| - 1] == 'v';
      assert i == |n| - 4;
    }
    if Suffix(p) == ".csv" {
      assert |n[i..]| == 4;
    }
  }

  // ---------------------------------------------------------------------
  // The InterpolatedImage object
  // ---------------------------------------------------------------------

  class InterpolatedImage {
    var resolution: int
    var originalData: Option<Frame>
    var xGrid: Option<Grid>
    var yGrid: Option<Grid>

    /** The data is a proper table and the two grids exist together, shaped alike. */
    ghost predicate Valid()
      reads this
    {
      && (originalData.Some? ==> WellFormed(originalData.value))
      && xGrid.Some? == yGrid.Some?
      && (xGrid.Some? ==> Height(xGrid.value) == Height(yGrid.value) && Width(xGrid.value) == Width(yGrid.value))
    }

    /** `InterpolatedImage(resolution=10)` without a file: nothing loaded yet. */
    constructor (resolution: int := 10)
      ensures Valid()
      ensures this.resolution == resolution
      ensures originalData == None && xGrid == None && yGrid == None
    {
      this.resolution := resolution;
      originalData := None;
      xGrid, yGrid := None, None;
    }

    /** `interpolated_x_coord` */
    function InterpolatedXCoord(): (r: Result<seq<real>>)
      reads this
      ensures xGrid.None? ==> r == Err(NoData)
      ensures xGrid.Some? ==> (r.Ok? <==> Height(xGrid.value) > 0)
      ensures r.Ok? ==> r.value == xGrid.value[0]
    {
      if xGrid.None? then Err(NoData) else XCoordOf(xGrid.value)
    }

    /** `interpolated_y_coord` */
    function InterpolatedYCoord(): (r: Result<seq<real>>)
      reads this
      ensures yGrid.None? ==> r == Err(NoData)
      ensures yGrid.Some? ==> (r.Ok? <==> Width(yGrid.value) > 0)
      ensures r.Ok? ==> |r.value| == Height(yGrid.value)
                        && forall i :: 0 <= i < |r.value| ==> r.value[i] == yGrid.value[i][0]
    {
      if yGrid.None? then Err(NoData) else YCoordOf(yGrid.value)
    }

    /** `original_x_coord`: column 0 of the data. */
    function OriginalXCoord(): (r: Result<seq<real>>)
      reads this
      requires Valid()
      ensures r.Ok? <==> originalData.Some? && originalData.value.columns >= 1
      ensures r.Ok? ==> r.value == FrameColumn(originalData.value, 0)
    {
      if originalData.None? then Err(NoData)
      else if originalData.value.columns < 1 then Err(IndexOutOfRange)
      else Ok(FrameColumn(originalData.value, 0))
    }

    /** `original_y_coord`: column 1 of the data. */
    function OriginalYCoord(): (r: Result<seq<real>>)
      reads this
      requires Valid()
      ensures r.Ok? <==> originalData.Some? && originalData.value.columns >= 2
      ensures r.Ok? ==> r.value == FrameColumn(originalData.value, 1)
    {
      if originalData.None? then Err(NoData)
      else if originalData.value.columns < 2 then Err(IndexOutOfRange)
      else Ok(FrameColumn(originalData.value, 1))
    }

    /** `get_coord_range(axis)`; the axis token is checked before the data is touched. */
    function GetCoordRange(axis: string): (r: Result<(real, real)>)
      reads this
      requires Valid()
      ensures axis != "x" && axis != "y" ==> r == Err(BadAxis)
      ensures (axis == "x" || axis == "y") && originalData.Some? ==> r == CoordRange(originalData.value, axis)
    {
      if axis != "x" && axis != "y" then Err(BadAxis)
      else if originalData.None? then Err(NoData)
      else CoordRange(originalData.value, axis)
    }

    /** `calc_griddata(method)` */
    function CalcGriddata(ip: Interpolator, m: Method): (r: Result<Grid>)
      reads this
      requires Valid()
      ensures originalData.None? || xGrid.None? ==> r == Err(NoData)
      ensures originalData.Some? && xGrid.Some? ==>
                r == Griddata(ip, m, originalData.value, xGrid.value, yGrid.value)
    {
      if originalData.None? || xGrid.None? then Err(NoData)
      else Griddata(ip, m, originalData.value, xGrid.value, yGrid.value)
    }

    /**
     * `make_xy_grid`: rebuilds both grids from the data and the current
     * resolution; when numpy raises, the old grids stay.
     */
    method MakeXYGrid() returns (err: Option<Error>)
      requires Valid() && originalData.Some?
      modifies this
      ensures Valid()
      ensures resolution == old(resolution) && originalData == old(originalData)
      ensures Grids(originalData.value, resolution).Ok? ==>
        err == None && xGrid == Some(Grids(originalData.value, resolution).value.0)
                    && yGrid == Some(Grids(originalData.value, resolution).value.1)
      ensures Grids(originalData.value, resolution).Err? ==>
        err == Some(Grids(originalData.value, resolution).error)
        && xGrid == old(xGrid) && yGrid == old(yGrid)
    {
      var g := Grids(originalData.value, resolution);
      if g.Err? {
        return Some(g.error);
      }
      GridsShape(originalData.value, resolution);
      var (xg, yg) := g.value;
      xGrid, yGrid := Some(xg), Some(yg);
      err := None;
    }

    /**
     * `set_filepath(path)`, with `contents` the table the CSV reader
     * returns for that file. A path whose suffix is not `.csv` raises
     * NotCsvError before the file is read and changes nothing. Otherwise the
     * last three columns replace the data first and the grids are rebuilt
     * after, so a failure of the rebuild leaves the new data beside the old
     * grids.
     */
    method SetFilepath(path: string, contents: Frame) returns (err: Option<Error>)
      requires Valid() && WellFormed(contents)
      modifies this
      ensures Valid()
      ensures resolution == old(resolution)
      ensures Suffix(path) != ".csv" ==> err == Some(NotCsv) && unchanged(this)
      ensures Suffix(path) == ".csv" ==>
        var d := LastColumns(contents, 3);
        && originalData == Some(d)
        && (Grids(d, resolution).Ok? ==>
              err == None && xGrid == Some(Grids(d, resolution).value.0)
                          && yGrid == Some(Grids(d, resolution).value.1))
        && (Grids(d, resolution).Err? ==>
              err == Some(Grids(d, resolution).error) && xGrid == old(xGrid) && yGrid == old(yGrid))
    {
      if Suffix(path) != ".csv" {
        return Some(NotCsv);
      }
      originalData := Some(LastColumns(contents, 3));
      err := MakeXYGrid();
    }
  }

  /**
   * `make_intpola_image_at_coord(image, cols, idx)`: the image as a table
   * with the x coordinates as column labels and the y coordinates as row
   * labels; pandas refuses label vectors that do not fit the image.
   */
  function ImageAtCoord(image: Grid, cols: seq<real>, idx: seq<real>): (r: Result<Export.Frame>)
    ensures r.Ok? <==> |cols| == Width(image) && |idx| == Height(image)
    ensures r.Ok? ==> r.value == Export.CoordImage(image, cols, idx)
    ensures r.Err? ==> r.error == ShapeMismatch
  {
    if |cols| == Width(image) && |idx| == Height(image) then Ok(Export.CoordImage(image, cols, idx))
    else Err(ShapeMismatch)
  }
}
