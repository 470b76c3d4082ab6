/** The scatterplot view plugin: it extracts the 2-D positions of the current point set from two
    chosen dimensions, forwards them to the widget, turns the host's selection into per-point
    highlight flags, turns a lasso/rectangle selection back into host indices, and maps a colour
    dataset (per-point scalars or clusters) onto the plotted points. */
module ScatterplotPlugin {
  import opened Graphics
  import opened Datasets

  /** The index set the plugin shows (`hdps::IndexSet`) together with the point data it views.
      `data` is the row-major `numPoints x numDims` value buffer of the raw point data; a subset
      (`!isFull`) lists, in `indices`, the rows of that buffer it contains. A derived point set
      also names its source data and the source's dimensions. */
  datatype PointSet = PointSet(
    name: string,
    numPoints: nat,
    numDims: nat,
    data: seq<real>,
    isFull: bool,
    indices: seq<nat>,
    dimensionNames: seq<string>,
    isDerived: bool,
    sourceName: string,
    sourceNumDims: nat,
    sourceDimensionNames: seq<string>)

  /** The value buffer has one row per point and every subset index addresses a row. */
  predicate WellFormed(ds: PointSet) {
    |ds.data| == ds.numPoints * ds.numDims &&
    forall i :: 0 <= i < |ds.indices| ==> ds.indices[i] < ds.numPoints
  }

  /** `_numPoints`: all points of a full set, the index count of a subset. */
  function PlottedCount(ds: PointSet): nat {
    if ds.isFull then ds.numPoints else |ds.indices|
  }

  /** The data row (global index) behind plotted point `i`. */
  function Row(ds: PointSet, i: nat): nat
    requires !ds.isFull ==> i < |ds.indices|
  {
    if ds.isFull then i else ds.indices[i]
  }

  /** Cell `(r, c)` of a row-major `rows x cols` buffer is inside the buffer. */
  lemma CellInRange(rows: nat, cols: nat, r: nat, c: nat)
    requires r < rows && c < cols
    ensures r * cols + c < rows * cols
  {
    calc {
      r * cols + c;
    <
      r * cols + cols;
    ==
      (r + 1) * cols;
    <=  { assert r + 1 <= rows; }
      rows * cols;
    }
  }

  /** Value of dimension `dim` of data row `row`: buffer entry `row * numDims + dim`. */
  function Cell(ds: PointSet, row: nat, dim: nat): real
    requires WellFormed(ds) && row < ds.numPoints && dim < ds.numDims
  {
    CellInRange(ds.numPoints, ds.numDims, row, dim);
    ds.data[row * ds.numDims + dim]
  }

  // ---------------------------------------------------------------------------
  // Positions
  // ---------------------------------------------------------------------------

  /** The plotted position of every point of `ds`: its (xDim, yDim) values. */
  function Positions(ds: PointSet, xDim: nat, yDim: nat): (positions: seq<Vec2>)
    requires WellFormed(ds) && xDim < ds.numDims && yDim < ds.numDims
    ensures |positions| == PlottedCount(ds)
  {
    seq(PlottedCount(ds), i requires 0 <= i < PlottedCount(ds) =>
      Vec2(Cell(ds, Row(ds, i), xDim), Cell(ds, Row(ds, i), yDim)))
  }

  /** A subset plots exactly the positions the full data would plot at its indices. */
  lemma SubsetGathersFull(ds: PointSet, xDim: nat, yDim: nat, i: nat)
    requires WellFormed(ds) && xDim < ds.numDims && yDim < ds.numDims
    requires !ds.isFull && i < |ds.indices|
    ensures Positions(ds, xDim, yDim)[i] == Positions(ds.(isFull := true), xDim, yDim)[ds.indices[i]]
  {
  }

  /** `calculatePositions`: fill one position per plotted point, reading the data row directly
      for a full set and through the index list for a subset. */
  method CalculatePositions(ds: PointSet, xDim: nat, yDim: nat) returns (positions: seq<Vec2>)
    requires WellFormed(ds) && xDim < ds.numDims && yDim < ds.numDims
    ensures positions == Positions(ds, xDim, yDim)
  {
    var n := PlottedCount(ds);
    var buffer := new Vec2[n](_ => Vec2(0.0, 0.0));
    if ds.isFull {
      for i := 0 to n
        invariant forall k :: 0 <= k < i ==> buffer[k] == Positions(ds, xDim, yDim)[k]
      {
        buffer[i] := Vec2(Cell(ds, i, xDim), Cell(ds, i, yDim));
      }
    } else {
      for i := 0 to n
        invariant forall k :: 0 <= k < i ==> buffer[k] == Positions(ds, xDim, yDim)[k]
      {
        var setIndex := ds.indices[i];
        buffer[i] := Vec2(Cell(ds, setIndex, xDim), Cell(ds, setIndex, yDim));
      }
    }
    positions := buffer[..];
  }

  // ---------------------------------------------------------------------------
  // Highlights (host selection -> per-point flags)
  // ---------------------------------------------------------------------------

  function Flag(b: bool): int {
    if b then 1 else 0
  }

  /** The highlight flags of `n` plotted points: 1 exactly for the points whose data row is
      in the host selection. */
  function Highlights(ds: PointSet, n: nat, selection: seq<nat>): (flags: seq<int>)
    requires !ds.isFull ==> n <= |ds.indices|
    ensures |flags| == n
    ensures forall i :: 0 <= i < n ==> (flags[i] == 1 <==> Row(ds, i) in selection)
    ensures forall i :: 0 <= i < n ==> (flags[i] == 0 <==> Row(ds, i) !in selection)
  {
    seq(n, i requires 0 <= i < n => Flag(Row(ds, i) in selection))
  }

  /** `updateSelection`'s buffer: zero-filled, then for a full set every selected index is
      flagged directly; for a subset each point's index is searched for in the selection. */
  method BuildHighlights(ds: PointSet, n: nat, selection: seq<nat>) returns (flags: seq<int>)
    requires ds.isFull ==> forall k :: 0 <= k < |selection| ==> selection[k] < n
    requires !ds.isFull ==> n <= |ds.indices|
    ensures flags == Highlights(ds, n, selection)
  {
    var h := new int[n](_ => 0);
    if ds.isFull {
      for j := 0 to |selection|
        invariant forall k :: 0 <= k < n ==> h[k] == Flag(k in selection[..j])
      {
        assert selection[..j + 1] == selection[..j] + [selection[j]];
        h[selection[j]] := 1;
      }
      assert selection[..|selection|] == selection;
    } else {
      for i := 0 to n
        invariant forall k :: 0 <= k < i ==> h[k] == Flag(ds.indices[k] in selection)
        invariant forall k :: i <= k < n ==> h[k] == 0
      {
        var index := ds.indices[i];
        var j := 0;
        while j < |selection|
          invariant 0 <= j <= |selection|
          invariant index !in selection[..j]
          invariant forall k :: 0 <= k < i ==> h[k] == Flag(ds.indices[k] in selection)
          invariant forall k :: i <= k < n ==> h[k] == 0
        {
          assert selection[..j + 1] == selection[..j] + [selection[j]];
          if index == selection[j] {
            h[i] := 1;
            break;
          }
          j := j + 1;
        }
        assert h[i] == Flag(index in selection) by {
          if h[i] == 0 {
            assert j == |selection| && selection[..j] == selection;
          }
        }
      }
    }
    flags := h[..];
  }

  // ---------------------------------------------------------------------------
  // Making a selection (lasso/rectangle -> host indices)
  // ---------------------------------------------------------------------------

  /** Positions (local indices, ascending) of the plotted points the selection shape contains. */
  function Hits(points: seq<Vec2>, contains: Vec2 -> bool): (hits: seq<nat>)
    ensures |hits| <= |points|
    ensures forall k :: 0 <= k < |hits| ==> hits[k] < |points| && contains(points[hits[k]])
    ensures forall k, l :: 0 <= k < l < |hits| ==> hits[k] < hits[l]
  {
    if points == [] then []
    else
      var front := points[..|points| - 1];
      var rest := Hits(front, contains);
      assert forall k :: 0 <= k < |rest| ==> points[rest[k]] == front[rest[k]];
      if contains(points[|points| - 1]) then rest + [|points| - 1] else rest
  }

  /** Every contained point is hit. */
  lemma {:induction false} HitsComplete(points: seq<Vec2>, contains: Vec2 -> bool, i: nat)
    requires i < |points| && contains(points[i])
    ensures i in Hits(points, contains)
  {
    var front := points[..|points| - 1];
    if i < |points| - 1 {
      assert front[i] == points[i];
      HitsComplete(front, contains, i);
    }
  }

  /** The loop of `makeSelection` that collects the indices of the contained points. */
  method CollectHits(points: seq<Vec2>, contains: Vec2 -> bool) returns (hits: seq<nat>)
    ensures hits == Hits(points, contains)
  {
    hits := [];
    for i := 0 to |points|
      invariant hits == Hits(points[..i], contains)
    {
      assert points[..i + 1][..i] == points[..i];
      if contains(points[i]) {
        hits := hits + [i];
      }
    }
    assert points[..|points|] == points;
  }

  /** Local indices translated to data rows (global indices). */
  function ToGlobal(ds: PointSet, locals: seq<nat>): (globals: seq<nat>)
    requires !ds.isFull ==> forall k :: 0 <= k < |locals| ==> locals[k] < |ds.indices|
    ensures |globals| == |locals|
    ensures forall k :: 0 <= k < |locals| ==> globals[k] == Row(ds, locals[k])
  {
    seq(|locals|, k requires 0 <= k < |locals| => Row(ds, locals[k]))
  }

  /** The loop of `makeSelection` that pushes the translated indices into the selection. */
  method TranslateIndices(ds: PointSet, locals: seq<nat>) returns (globals: seq<nat>)
    requires !ds.isFull ==> forall k :: 0 <= k < |locals| ==> locals[k] < |ds.indices|
    ensures globals == ToGlobal(ds, locals)
  {
    globals := [];
    for k := 0 to |locals|
      invariant globals == ToGlobal(ds, locals[..k])
    {
      globals := globals + [if ds.isFull then locals[k] else ds.indices[locals[k]]];
    }
    assert locals[..|locals|] == locals;
  }

  /** No two positions of the subset list the same data row. */
  predicate DistinctIndices(ds: PointSet) {
    forall k, l :: 0 <= k < l < |ds.indices| ==> ds.indices[k] != ds.indices[l]
  }

  /** Round trip: a selection made on the plotted points of `ds` and then read back as
      highlights flags exactly the points the selection shape contains. For a subset this
      needs the subset to list each data row once. */
  lemma {:induction false} SelectThenHighlight(ds: PointSet, points: seq<Vec2>, contains: Vec2 -> bool, i: nat)
    requires !ds.isFull ==> |points| <= |ds.indices| && DistinctIndices(ds)
    requires i < |points|
    ensures Highlights(ds, |points|, ToGlobal(ds, Hits(points, contains)))[i] == Flag(contains(points[i]))
  {
    var hits := Hits(points, contains);
    var globals := ToGlobal(ds, hits);
    if contains(points[i]) {
      HitsComplete(points, contains, i);
      var k :| 0 <= k < |hits| && hits[k] == i;
      assert globals[k] == Row(ds, i);
    } else {
      forall k | 0 <= k < |hits|
        ensures globals[k] != Row(ds, i)
      {
        assert contains(points[hits[k]]);
        if !ds.isFull {
          if hits[k] < i {
            assert ds.indices[hits[k]] != ds.indices[i];
          } else {
            assert ds.indices[i] != ds.indices[hits[k]];
          }
        }
      }
    }
  }

  // ---------------------------------------------------------------------------
  // Colour data
  // ---------------------------------------------------------------------------

  /** Colour given to point `p` by the clusters: the colour of the last cluster listing it
      (later writes overwrite earlier ones), black (all zeros) when no cluster lists it. */
  function ClusterColorAt(clusters: seq<Cluster>, p: nat): Vec3 {
    if clusters == [] then ZeroVec3
    else
      var last := clusters[|clusters| - 1];
      if p in last.indices then last.color else ClusterColorAt(clusters[..|clusters| - 1], p)
  }

  /** Every listed index addresses one of the `n` points. */
  predicate IndicesBelow(clusters: seq<Cluster>, n: nat) {
    forall c, k :: 0 <= c < |clusters| && 0 <= k < |clusters[c].indices| ==> clusters[c].indices[k] < n
  }

  /** A point no cluster lists keeps the default colour. */
  lemma {:induction false} UncoveredKeepsDefault(clusters: seq<Cluster>, p: nat)
    requires forall c :: 0 <= c < |clusters| ==> p !in clusters[c].indices
    ensures ClusterColorAt(clusters, p) == ZeroVec3
  {
    if clusters != [] {
      UncoveredKeepsDefault(clusters[..|clusters| - 1], p);
    }
  }

  /** A point takes the colour of the last cluster that lists it, whatever earlier clusters say. */
  lemma {:induction false} LastClusterWins(clusters: seq<Cluster>, c: nat, p: nat)
    requires c < |clusters| && p in clusters[c].indices
    requires forall d :: c < d < |clusters| ==> p !in clusters[d].indices
    ensures ClusterColorAt(clusters, p) == clusters[c].color
  {
    if c < |clusters| - 1 {
      var front := clusters[..|clusters| - 1];
      LastClusterWins(front, c, p);
    }
  }

  /** The cluster branch of `onColorDataInput`: a zero-filled colour per plotted point, then
      every cluster writes its colour at each of its indices, in order. */
  method ProjectClusterColors(clusters: seq<Cluster>, n: nat) returns (colors: seq<Vec3>)
    requires IndicesBelow(clusters, n)
    ensures |colors| == n
    ensures forall p :: 0 <= p < n ==> colors[p] == ClusterColorAt(clusters, p)
  {
    var buffer := new Vec3[n](_ => ZeroVec3);
    for c := 0 to |clusters|
      invariant forall p :: 0 <= p < n ==> buffer[p] == ClusterColorAt(clusters[..c], p)
    {
      var cluster := clusters[c];
      assert clusters[..c + 1][..c] == clusters[..c];
      for k := 0 to |cluster.indices|
        invariant forall p :: 0 <= p < n ==>
          buffer[p] == if p in cluster.indices[..k] then cluster.color else ClusterColorAt(clusters[..c], p)
      {
        assert cluster.indices[..k + 1] == cluster.indices[..k] + [cluster.indices[k]];
        buffer[cluster.indices[k]] := cluster.color;
      }
      assert cluster.indices[..|cluster.indices|] == cluster.indices;
    }
    assert clusters[..|clusters|] == clusters;
    colors := buffer[..];
  }

  // ---------------------------------------------------------------------------
  // Scalars
  // ---------------------------------------------------------------------------

  /** Dimension `dim` of the first `n` data rows. */
  function Column(ds: PointSet, n: nat, dim: nat): (column: seq<real>)
    requires WellFormed(ds) && n <= ds.numPoints && dim < ds.numDims
    ensures |column| == n
    ensures forall i :: 0 <= i < n ==> column[i] == Cell(ds, i, dim)
  {
    seq(n, i requires 0 <= i < n => Cell(ds, i, dim))
  }

  /** `(v - lo) / (hi - lo)` for every value. */
  function Normalized(s: seq<real>, lo: real, hi: real): (r: seq<real>)
    requires lo < hi
    ensures |r| == |s|
  {
    seq(|s|, i requires 0 <= i < |s| => (s[i] - lo) / (hi - lo))
  }

  /** The running minimum of `calculateScalars` after the first `i` values: the FLT_MAX seed
      lowered by each value in turn. */
  function RunningMin(s: seq<real>, i: nat): real
    requires i <= |s|
  {
    if i == 0 then FLT_MAX
    else
      var lo := RunningMin(s, i - 1);
      if s[i - 1] < lo then s[i - 1] else lo
  }

  /** The running maximum: the -FLT_MAX seed raised by each value in turn. */
  function RunningMax(s: seq<real>, i: nat): real
    requires i <= |s|
  {
    if i == 0 then -FLT_MAX
    else
      var hi := RunningMax(s, i - 1);
      if s[i - 1] > hi then s[i - 1] else hi
  }

  /** For finite values the seeded running extremes are the true minimum and maximum. */
  lemma {:induction false} RunningExtremes(s: seq<real>, i: nat)
    requires 0 < i <= |s| && AllFinite(s)
    ensures RunningMin(s, i) == Min(s[..i]) && RunningMax(s, i) == Max(s[..i])
  {
    if i > 1 {
      RunningExtremes(s, i - 1);
      assert s[..i][..i - 1] == s[..i - 1];
    }
  }

  /** A column that takes at least two distinct values. */
  predicate NonConstant(s: seq<real>) {
    |s| > 0 && Min(s) < Max(s)
  }

  lemma UnitInterval(v: real, lo: real, hi: real)
    requires lo <= v <= hi && lo < hi
    ensures 0.0 <= (v - lo) / (hi - lo) <= 1.0
  {
    var d := hi - lo;
    var q := (v - lo) / d;
    assert q * d == v - lo;
    if q > 1.0 {
      assert (q - 1.0) * d > 0.0;
      assert q * d > d;
    }
  }

  /** Values inside [lo, hi] are normalised into [0, 1]. */
  lemma NormalizedInUnit(s: seq<real>, lo: real, hi: real)
    requires lo < hi
    requires forall i :: 0 <= i < |s| ==> lo <= s[i] <= hi
    ensures forall i :: 0 <= i < |s| ==> 0.0 <= Normalized(s, lo, hi)[i] <= 1.0
  {
    forall i | 0 <= i < |s|
      ensures 0.0 <= Normalized(s, lo, hi)[i] <= 1.0
    {
      UnitInterval(s[i], lo, hi);
    }
  }

  /** Normalising a non-constant column by its own minimum and maximum maps it onto [0, 1]. */
  lemma NormalizedColumnInUnit(s: seq<real>)
    requires NonConstant(s)
    ensures forall i :: 0 <= i < |s| ==> 0.0 <= Normalized(s, Min(s), Max(s))[i] <= 1.0
  {
    NormalizedInUnit(s, Min(s), Max(s));
  }

  lemma EndPoints(lo: real, hi: real)
    requires lo < hi
    ensures (lo - lo) / (hi - lo) == 0.0 && (hi - lo) / (hi - lo) == 1.0
  {
  }

  /** ... and it sends the minimum to 0 and the maximum to 1, so the whole unit range is used. */
  lemma NormalizedColumnReachesEnds(s: seq<real>)
    requires NonConstant(s)
    ensures 0.0 in Normalized(s, Min(s), Max(s))
    ensures 1.0 in Normalized(s, Min(s), Max(s))
  {
    var lo, hi := Min(s), Max(s);
    var a :| 0 <= a < |s| && s[a] == lo;
    var b :| 0 <= b < |s| && s[b] == hi;
    EndPoints(lo, hi);
    assert Normalized(s, lo, hi)[a] == 0.0;
    assert Normalized(s, lo, hi)[b] == 1.0;
  }

  // ---------------------------------------------------------------------------
  // Dimension options
  // ---------------------------------------------------------------------------

  /** What the settings' dimension pickers are initialised with: the dimension names, or
      just the number of dimensions when the names do not cover every dimension. */
  datatype DimOptions = NoOptions | DimensionNames(names: seq<string>) | DimensionCount(count: nat)

  function DimOptionsFor(names: seq<string>, numDims: nat): (options: DimOptions)
    ensures options.DimensionNames? <==> |names| == numDims
    ensures options.DimensionNames? ==> options.names == names
    ensures options.DimensionCount? ==> options.count == numDims
  {
    if |names| == numDims then DimensionNames(names) else DimensionCount(numDims)
  }

  /** The colour-dimension picker follows the source data of a derived set. */
  function ScalarDimOptionsFor(ds: PointSet): (options: DimOptions)
    ensures ds.isDerived ==> options == DimOptionsFor(ds.sourceDimensionNames, ds.sourceNumDims)
    ensures !ds.isDerived ==> options == DimOptionsFor(ds.dimensionNames, ds.numDims)
  {
    if ds.isDerived then DimOptionsFor(ds.sourceDimensionNames, ds.sourceNumDims)
    else DimOptionsFor(ds.dimensionNames, ds.numDims)
  }

  /** The colour dataset handed to `onColorDataInput`: its data kind, its point count and values
      (for "Points") and its clusters (for "Cluster"). */
  datatype ColorData = ColorData(kind: string, numPoints: nat, values: seq<real>, clusters: seq<Cluster>)

  /** The plot is refreshed only once the widget is initialised, a dataset is current and
      both plot dimensions are set. */
  predicate RefreshEnabled(initialized: bool, currentDataSet: string, xDim: int, yDim: int) {
    initialized && currentDataSet != "" && xDim >= 0 && yDim >= 0
  }

  /** The dimensions picked in the settings are dimensions of the point set. */
  predicate DimsFit(ds: PointSet, xDim: int, yDim: int) {
    (xDim >= 0 ==> xDim < ds.numDims) && (yDim >= 0 ==> yDim < ds.numDims)
  }

  /** The view plugin's own state. The widget and the host are outside the model: `widget*`
      fields record the last buffer handed to the widget, `selection` is the host's selection
      of the current raw data and `selectionNotifications` the data names announced to the host. */
  class Plugin {
    var currentDataSet: string
    var numPoints: nat
    var points: seq<Vec2>
    var selection: seq<nat>
    var dimOptions: DimOptions
    var scalarDimOptions: DimOptions
    var widgetData: seq<Vec2>
    var widgetHighlights: seq<int>
    var widgetScalars: seq<real>
    var widgetColors: seq<Vec3>
    ghost var selectionNotifications: seq<string>

    /** The widget always shows the plugin's current positions, one per plotted point. */
    ghost predicate Valid()
      reads this
    {
      widgetData == points && |points| == numPoints
    }

    constructor ()
      ensures Valid()
      ensures currentDataSet == "" && numPoints == 0 && points == [] && selection == []
      ensures dimOptions == NoOptions && scalarDimOptions == NoOptions
      ensures widgetHighlights == [] && widgetScalars == [] && widgetColors == []
      ensures selectionNotifications == []
    {
      currentDataSet := "";
      numPoints := 0;
      points := [];
      selection := [];
      dimOptions := NoOptions;
      scalarDimOptions := NoOptions;
      widgetData := [];
      widgetHighlights := [];
      widgetScalars := [];
      widgetColors := [];
      selectionNotifications := [];
    }

    /** `updateData`: when refreshing is enabled, recompute `_numPoints` and the positions of the
        current point set and hand them to the widget; otherwise do nothing. */
    method UpdateData(initialized: bool, ds: PointSet, xDim: int, yDim: int)
      requires Valid() && WellFormed(ds) && DimsFit(ds, xDim, yDim)
      modifies this`numPoints, this`points, this`widgetData
      ensures Valid()
      ensures RefreshEnabled(initialized, currentDataSet, xDim, yDim) ==>
        numPoints == PlottedCount(ds) && points == Positions(ds, xDim, yDim)
      ensures !RefreshEnabled(initialized, currentDataSet, xDim, yDim) ==> unchanged(this)
      ensures currentDataSet == old(currentDataSet) && selection == old(selection)
      ensures dimOptions == old(dimOptions) && scalarDimOptions == old(scalarDimOptions)
      ensures widgetHighlights == old(widgetHighlights) && widgetScalars == old(widgetScalars)
      ensures widgetColors == old(widgetColors) && selectionNotifications == old(selectionNotifications)
    {
      if !initialized || currentDataSet == "" || xDim < 0 || yDim < 0 {
        return;
      }
      numPoints := PlottedCount(ds);
      points := CalculatePositions(ds, xDim, yDim);
      widgetData := points;
    }

    /** `dataChanged`: only a change to the current dataset refreshes the plot. */
    method DataChanged(name: string, initialized: bool, ds: PointSet, xDim: int, yDim: int)
      requires Valid() && WellFormed(ds) && DimsFit(ds, xDim, yDim)
      modifies this`numPoints, this`points, this`widgetData
      ensures Valid()
      ensures name != old(currentDataSet) ==> unchanged(this)
      ensures !RefreshEnabled(initialized, name, xDim, yDim) ==> unchanged(this)
      ensures name == currentDataSet && RefreshEnabled(initialized, name, xDim, yDim) ==>
        numPoints == PlottedCount(ds) && points == Positions(ds, xDim, yDim)
      ensures currentDataSet == old(currentDataSet) && selection == old(selection)
    {
      if name != currentDataSet {
        return;
      }
      UpdateData(initialized, ds, xDim, yDim);
    }

    /** Initialise both dimension pickers from `ds` (shared by `onDataInput` and `dataSetPicked`). */
    method InitDimOptions(ds: PointSet)
      modifies this`dimOptions, this`scalarDimOptions
      ensures dimOptions == DimOptionsFor(ds.dimensionNames, ds.numDims)
      ensures scalarDimOptions == ScalarDimOptionsFor(ds)
      ensures currentDataSet == old(currentDataSet) && numPoints == old(numPoints)
      ensures points == old(points) && selection == old(selection) && widgetData == old(widgetData)
      ensures widgetHighlights == old(widgetHighlights) && widgetScalars == old(widgetScalars)
      ensures widgetColors == old(widgetColors) && selectionNotifications == old(selectionNotifications)
    {
      if ds.isDerived {
        dimOptions := if |ds.dimensionNames| == ds.numDims then DimensionNames(ds.dimensionNames)
          else DimensionCount(ds.numDims);
        scalarDimOptions := if |ds.sourceDimensionNames| == ds.sourceNumDims
          then DimensionNames(ds.sourceDimensionNames) else DimensionCount(ds.sourceNumDims);
      } else if |ds.dimensionNames| == ds.numDims {
        dimOptions := DimensionNames(ds.dimensionNames);
        scalarDimOptions := DimensionNames(ds.dimensionNames);
      } else {
        dimOptions := DimensionCount(ds.numDims);
        scalarDimOptions := DimensionCount(ds.numDims);
      }
    }

    /** `onDataInput`: the dropped set becomes current whatever its kind; a "Points" set also
        initialises the dimension pickers and refreshes the plot. */
    method OnDataInput(setName: string, kind: string, initialized: bool, ds: PointSet, xDim: int, yDim: int)
      requires Valid() && WellFormed(ds) && DimsFit(ds, xDim, yDim)
      modifies this`currentDataSet, this`dimOptions, this`scalarDimOptions
      modifies this`numPoints, this`points, this`widgetData
      ensures Valid()
      ensures currentDataSet == setName
      ensures kind != "Points" ==>
        dimOptions == old(dimOptions) && scalarDimOptions == old(scalarDimOptions)
        && points == old(points) && numPoints == old(numPoints)
      ensures !RefreshEnabled(initialized, setName, xDim, yDim) ==>
        points == old(points) && numPoints == old(numPoints)
      ensures kind == "Points" ==> dimOptions == DimOptionsFor(ds.dimensionNames, ds.numDims)
      ensures kind == "Points" ==> scalarDimOptions == ScalarDimOptionsFor(ds)
      ensures kind == "Points" && RefreshEnabled(initialized, setName, xDim, yDim) ==>
        numPoints == PlottedCount(ds) && points == Positions(ds, xDim, yDim)
      ensures selection == old(selection)
    {
      currentDataSet := setName;
      if kind != "Points" {
        return;
      }
      InitDimOptions(ds);
      UpdateData(initialized, ds, xDim, yDim);
    }

    /** `dataSetPicked`: re-initialise the pickers from the current set and refresh the plot
        (the picked name itself is not used). */
    method DataSetPicked(name: string, initialized: bool, ds: PointSet, xDim: int, yDim: int)
      requires Valid() && WellFormed(ds) && DimsFit(ds, xDim, yDim)
      modifies this`dimOptions, this`scalarDimOptions, this`numPoints, this`points, this`widgetData
      ensures Valid()
      ensures dimOptions == DimOptionsFor(ds.dimensionNames, ds.numDims)
      ensures scalarDimOptions == ScalarDimOptionsFor(ds)
      ensures RefreshEnabled(initialized, currentDataSet, xDim, yDim) ==>
        numPoints == PlottedCount(ds) && points == Positions(ds, xDim, yDim)
      ensures !RefreshEnabled(initialized, currentDataSet, xDim, yDim) ==>
        points == old(points) && numPoints == old(numPoints)
      ensures currentDataSet == old(currentDataSet) && selection == old(selection)
    {
      InitDimOptions(ds);
      UpdateData(initialized, ds, xDim, yDim);
    }

    /** `updateSelection`: hand the widget one highlight flag per plotted point. */
    method UpdateSelection(ds: PointSet)
      requires ds.isFull ==> forall k :: 0 <= k < |selection| ==> selection[k] < numPoints
      requires !ds.isFull ==> numPoints <= |ds.indices|
      modifies this`widgetHighlights
      ensures currentDataSet == old(currentDataSet) && numPoints == old(numPoints) && points == old(points)
      ensures selection == old(selection) && widgetData == old(widgetData)
      ensures widgetHighlights == Highlights(ds, numPoints, selection)
      ensures forall i :: 0 <= i < numPoints ==> (widgetHighlights[i] == 1 <==> Row(ds, i) in selection)
      ensures dimOptions == old(dimOptions) && scalarDimOptions == old(scalarDimOptions)
      ensures widgetScalars == old(widgetScalars) && widgetColors == old(widgetColors)
      ensures selectionNotifications == old(selectionNotifications)
    {
      widgetHighlights := BuildHighlights(ds, numPoints, selection);
    }

    /** The selection change concerns the plot when it is on the plotted data: the source data
        of a derived set, the set's own data otherwise. */
    static predicate ConcernsPlot(ds: PointSet, dataName: string) {
      if ds.isDerived then dataName == ds.sourceName else dataName == ds.name
    }

    /** The data that owns the selection of `ds`: the source data of a derived set, the set's
        own data otherwise. A selection notification naming it concerns the plot. */
    static function SelectionOwner(ds: PointSet): (dataName: string)
      ensures ConcernsPlot(ds, dataName)
      ensures forall other :: ConcernsPlot(ds, other) ==> other == dataName
    {
      if ds.isDerived then ds.sourceName else ds.name
    }

    /** `selectionChanged`: refresh the highlights only for a selection on the plotted data. */
    method SelectionChanged(dataName: string, ds: PointSet)
      requires ds.isFull ==> forall k :: 0 <= k < |selection| ==> selection[k] < numPoints
      requires !ds.isFull ==> numPoints <= |ds.indices|
      modifies this`widgetHighlights
      ensures currentDataSet == old(currentDataSet) && numPoints == old(numPoints) && points == old(points)
      ensures selection == old(selection) && widgetData == old(widgetData)
      ensures !ConcernsPlot(ds, dataName) ==> unchanged(this)
      ensures ConcernsPlot(ds, dataName) ==> widgetHighlights == Highlights(ds, numPoints, selection)
    {
      if ds.isDerived {
        if dataName != ds.sourceName {
          return;
        }
      } else {
        if dataName != ds.name {
          return;
        }
      }
      UpdateSelection(ds);
    }

    /** `makeSelection`: with a current dataset, replace the host selection by the data rows of
        the plotted points the shape contains, and announce the change under the name of the
        data owning the selection; otherwise do nothing. */
    method MakeSelection(ds: PointSet, contains: Vec2 -> bool)
      requires !ds.isFull ==> |points| <= |ds.indices|
      modifies this`selection, this`selectionNotifications
      ensures currentDataSet == old(currentDataSet) && numPoints == old(numPoints) && points == old(points)
      ensures old(currentDataSet) == "" ==> unchanged(this)
      ensures old(currentDataSet) != "" ==> selection == ToGlobal(ds, Hits(points, contains))
      ensures old(currentDataSet) != "" ==> selectionNotifications == old(selectionNotifications) + [SelectionOwner(ds)]
      ensures widgetData == old(widgetData) && widgetHighlights == old(widgetHighlights)
      ensures dimOptions == old(dimOptions) && scalarDimOptions == old(scalarDimOptions)
      ensures widgetScalars == old(widgetScalars) && widgetColors == old(widgetColors)
    {
      if currentDataSet == "" {
        return;
      }
      var hits := CollectHits(points, contains);
      selection := TranslateIndices(ds, hits);
      selectionNotifications := selectionNotifications + [SelectionOwner(ds)];
    }

    /** `onColorDataInput`: point data of the same size as the plot becomes the scalars (any other
        size clears them); cluster data colours each plotted point with its last listing cluster.
        Either kind then refreshes the plot; any other kind changes nothing. */
    method OnColorDataInput(colorData: ColorData, initialized: bool, ds: PointSet, xDim: int, yDim: int)
      requires Valid() && WellFormed(ds) && DimsFit(ds, xDim, yDim)
      requires colorData.kind == "Cluster" ==> IndicesBelow(colorData.clusters, |points|)
      modifies this`widgetScalars, this`widgetColors, this`numPoints, this`points, this`widgetData
      ensures Valid()
      ensures colorData.kind == "Points" ==> widgetColors == old(widgetColors)
      ensures colorData.kind == "Cluster" ==> widgetScalars == old(widgetScalars)
      ensures !RefreshEnabled(initialized, currentDataSet, xDim, yDim) ==>
        points == old(points) && numPoints == old(numPoints)
      ensures colorData.kind != "Points" && colorData.kind != "Cluster" ==> unchanged(this)
      ensures colorData.kind == "Points" ==>
        widgetScalars == (if colorData.numPoints == old(numPoints) then colorData.values else [])
      ensures colorData.kind == "Cluster" ==> |widgetColors| == old(|points|)
      ensures colorData.kind == "Cluster" ==>
        forall p :: 0 <= p < |widgetColors| ==> widgetColors[p] == ClusterColorAt(colorData.clusters, p)
      ensures (colorData.kind == "Points" || colorData.kind == "Cluster") &&
              RefreshEnabled(initialized, currentDataSet, xDim, yDim) ==>
        numPoints == PlottedCount(ds) && points == Positions(ds, xDim, yDim)
      ensures currentDataSet == old(currentDataSet) && selection == old(selection)
    {
      if colorData.kind == "Points" {
        var scalars: seq<real> := [];
        if colorData.numPoints == numPoints {
          scalars := colorData.values;
        }
        widgetScalars := scalars;
        UpdateData(initialized, ds, xDim, yDim);
      }
      if colorData.kind == "Cluster" {
        var colors := ProjectClusterColors(colorData.clusters, |points|);
        widgetColors := colors;
        UpdateData(initialized, ds, xDim, yDim);
      }
    }

    /** `calculateScalars`: with a colour dimension set, copy that dimension of the first
        `_numPoints` data rows into `scalars` while tracking its minimum and maximum, then
        normalise every entry of `scalars` (including any beyond `_numPoints`) by that range. */
    method CalculateScalars(scalars: array<real>, ds: PointSet, colorIndex: int)
      requires WellFormed(ds)
      requires colorIndex >= 0 ==>
        colorIndex < ds.numDims && numPoints <= ds.numPoints && numPoints <= scalars.Length
      requires colorIndex >= 0 ==>
        AllFinite(Column(ds, numPoints, colorIndex)) && NonConstant(Column(ds, numPoints, colorIndex))
      modifies scalars
      ensures colorIndex < 0 ==> scalars[..] == old(scalars[..])
      ensures colorIndex >= 0 ==>
        var column := Column(ds, numPoints, colorIndex);
        scalars[..] == Normalized(column + old(scalars[..])[numPoints..], Min(column), Max(column))
    {
      if colorIndex < 0 {
        return;
      }
      var n := numPoints;
      var minScalar, maxScalar := FillColumn(scalars, ds, n, colorIndex);
      RunningExtremes(Column(ds, n, colorIndex), n);
      assert Column(ds, n, colorIndex)[..n] == Column(ds, n, colorIndex);
      NormalizeAll(scalars, minScalar, maxScalar);
    }
  }

  /** The first loop of `calculateScalars`: copy dimension `dim` of the first `n` rows into
      `scalars`, tracking the running minimum and maximum from the (FLT_MAX, -FLT_MAX) seeds. */
  method FillColumn(scalars: array<real>, ds: PointSet, n: nat, dim: nat) returns (minScalar: real, maxScalar: real)
    requires WellFormed(ds) && dim < ds.numDims && n <= ds.numPoints && n <= scalars.Length
    modifies scalars
    ensures scalars[..] == Column(ds, n, dim) + old(scalars[..])[n..]
    ensures minScalar == RunningMin(Column(ds, n, dim), n) && maxScalar == RunningMax(Column(ds, n, dim), n)
  {
    minScalar, maxScalar := FLT_MAX, -FLT_MAX;
    ghost var column := Column(ds, n, dim);
    ghost var before := scalars[..];
    for i := 0 to n
      invariant forall k :: 0 <= k < i ==> scalars[k] == column[k]
      invariant forall k :: i <= k < scalars.Length ==> scalars[k] == before[k]
      invariant minScalar == RunningMin(column, i) && maxScalar == RunningMax(column, i)
    {
      var scalar := Cell(ds, i, dim);
      assert scalar == column[i];
      minScalar := if scalar < minScalar then scalar else minScalar;
      maxScalar := if scalar > maxScalar then scalar else maxScalar;
      scalars[i] := scalar;
    }
    assert scalars[..] == column + before[n..];
  }

  /** The second loop of `calculateScalars`: normalise every entry by the range [lo, hi]. */
  method NormalizeAll(scalars: array<real>, lo: real, hi: real)
    requires lo < hi
    modifies scalars
    ensures scalars[..] == Normalized(old(scalars[..]), lo, hi)
  {
    var scalarRange := hi - lo;
    ghost var filled := scalars[..];
    for i := 0 to scalars.Length
      invariant forall k :: 0 <= k < i ==> scalars[k] == (filled[k] - lo) / scalarRange
      invariant forall k :: i <= k < scalars.Length ==> scalars[k] == filled[k]
    {
      scalars[i] := (scalars[i] - lo) / scalarRange;
    }
    assert scalars[..] == Normalized(filled, lo, hi);
  }

  /** Drop a "Points" set, under the non-empty name `setName`, on a fresh plugin whose widget is
      initialised: the plugin plots that set, and a selection made right away, once the plugin
      hears its own notification, highlights exactly the points the shape contains. */
  method DropThenSelect(setName: string, ds: PointSet, xDim: nat, yDim: nat, contains: Vec2 -> bool)
    returns (plotted: seq<Vec2>, highlights: seq<int>)
    requires setName != ""
    requires WellFormed(ds) && xDim < ds.numDims && yDim < ds.numDims
    requires !ds.isFull ==> DistinctIndices(ds)
    ensures plotted == Positions(ds, xDim, yDim)
    ensures |highlights| == |plotted|
    ensures forall i :: 0 <= i < |plotted| ==> highlights[i] == Flag(contains(plotted[i]))
  {
    var plugin := new Plugin();
    plugin.OnDataInput(setName, "Points", true, ds, xDim, yDim);
    plugin.MakeSelection(ds, contains);
    forall k | 0 <= k < |plugin.selection|
      ensures ds.isFull ==> plugin.selection[k] < plugin.numPoints
    {
    }
    plugin.SelectionChanged(Plugin.SelectionOwner(ds), ds);
    plotted := plugin.points;
    highlights := plugin.widgetHighlights;
    forall i | 0 <= i < |plotted|
      ensures highlights[i] == Flag(contains(plotted[i]))
    {
      SelectThenHighlight(ds, plotted, contains, i);
    }
  }
}
