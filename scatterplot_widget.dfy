/** The scatterplot widget: render mode and colouring mode state machine, data bounds, colour-map
    routing to the point or density renderer, and the colour map kept until OpenGL is ready.
    The renderers are opaque sinks: each is a record of what it was last handed, plus a count of
    density computations. */
module ScatterplotWidget {
  import opened Graphics

  datatype RenderMode = Scatterplot | Density | Landscape

  /** How point colours are determined: one constant colour, or an external dataset. */
  datatype ColoringMode = Constant | Data

  /** Stand-in for a `QImage`; the default-constructed image is the null image. */
  datatype Image = Image(width: nat, height: nat, pixels: seq<Vec3>)

  const NullImage: Image := Image(0, 0, [])

  /** The point renderer's scalar effect. */
  datatype PointEffect = NoEffect | ColorEffect | OtherEffect

  /** The `Bounds` operations whose bodies live in the host library. */
  datatype BoundsLibrary = BoundsLibrary(
    ensureMinimumSize: (Bounds, real, real) -> Bounds,
    makeSquare: Bounds -> Bounds,
    expand: (Bounds, real) -> Bounds)

  /** What the point renderer was last handed. */
  datatype PointRenderer = PointRenderer(
    bounds: Bounds,
    data: seq<Vec2>,
    colormap: Image,
    colorMapRange: Vec3,
    colors: seq<Vec3>,
    colorScalars: seq<real>,
    sizeScalars: seq<real>,
    opacityScalars: seq<real>,
    pointSize: real,
    highlights: seq<int>,
    numSelectedPoints: int,
    scalarEffect: PointEffect)

  /** What the density renderer was last handed, and how often it computed a density. */
  datatype DensityRenderer = DensityRenderer(
    bounds: Bounds,
    data: seq<Vec2>,
    colormap: Image,
    colorMapRange: Vec3,
    densityComputations: nat)

  /** The renderers store a colour-map range as (min, max, max - min). */
  function RangeVector(min: real, max: real): Vec3 {
    Vec3(min, max, max - min)
  }

  /** Density (and its landscape view) needs a density computation; the point plot does not. */
  predicate NeedsDensity(mode: RenderMode) {
    mode == Density || mode == Landscape
  }

  /** One step of the fold of `getDataBounds`: widen `b` to take in `p`. */
  function Include(b: Bounds, p: Vec2): Bounds {
    Bounds(if p.x < b.left then p.x else b.left,
           if p.x > b.right then p.x else b.right,
           if p.y < b.bottom then p.y else b.bottom,
           if p.y > b.top then p.y else b.top)
  }

  /** The fold of `getDataBounds`: an empty input leaves the `Bounds::Max` seed unchanged, and
      otherwise every point lies inside the bounds. */
  function DataBounds(points: seq<Vec2>): (b: Bounds)
    ensures points == [] ==> b == MaxBounds
    ensures forall i :: 0 <= i < |points| ==>
      b.left <= points[i].x <= b.right && b.bottom <= points[i].y <= b.top
  {
    if points == [] then MaxBounds
    else
      var front := points[..|points| - 1];
      assert forall i :: 0 <= i < |front| ==> front[i] == points[i];
      Include(DataBounds(front), points[|points| - 1])
  }

  /** Each side of `b` is a coordinate of one of the points. */
  predicate Attained(b: Bounds, points: seq<Vec2>) {
    && (exists i :: 0 <= i < |points| && b.left == points[i].x)
    && (exists i :: 0 <= i < |points| && b.right == points[i].x)
    && (exists i :: 0 <= i < |points| && b.bottom == points[i].y)
    && (exists i :: 0 <= i < |points| && b.top == points[i].y)
  }

  /** For finite points the bounds are tight: left/right are the least/greatest x and
      bottom/top the least/greatest y actually present. */
  lemma {:induction false} DataBoundsAttained(points: seq<Vec2>)
    requires points != [] && forall i :: 0 <= i < |points| ==> FinitePoint(points[i])
    ensures Attained(DataBounds(points), points)
  {
    var last := |points| - 1;
    var front := points[..last];
    var p := points[last];
    var b := DataBounds(front);
    var r := DataBounds(points);
    assert r == Include(b, p);
    assert FinitePoint(p);
    if front == [] {
      assert r.left == p.x && r.right == p.x && r.bottom == p.y && r.top == p.y;
      assert points[last] == p;
    } else {
      DataBoundsAttained(front);
      var il :| 0 <= il < |front| && b.left == front[il].x;
      var ir :| 0 <= ir < |front| && b.right == front[ir].x;
      var ib :| 0 <= ib < |front| && b.bottom == front[ib].y;
      var it :| 0 <= it < |front| && b.top == front[it].y;
      assert front[il] == points[il] && front[ir] == points[ir];
      assert front[ib] == points[ib] && front[it] == points[it];
      assert r.left == points[if r.left == p.x then last else il].x;
      assert r.right == points[if r.right == p.x then last else ir].x;
      assert r.bottom == points[if r.bottom == p.y then last else ib].y;
      assert r.top == points[if r.top == p.y then last else it].y;
    }
  }

  /** The bounds `setData` stores: the data bounds, forced to a minimum size, made square and
      expanded by a tenth. */
  function PlotBounds(lib: BoundsLibrary, points: seq<Vec2>): Bounds
  {
    lib.expand(lib.makeSquare(lib.ensureMinimumSize(DataBounds(points), 0.0000001, 0.0000001)), 0.1)
  }

  class Widget {
    const lib: BoundsLibrary
    var isInitialized: bool
    var renderMode: RenderMode
    var coloringMode: ColoringMode
    var dataBounds: Bounds
    var colorMapImage: Image
    var pixelRatio: real
    var pointRenderer: PointRenderer
    var densityRenderer: DensityRenderer

    /** Signals emitted, in order. */
    ghost var renderModeChanged: seq<RenderMode>
    ghost var coloringModeChanged: seq<ColoringMode>
    ghost var densityComputationsStarted: nat
    ghost var densityComputationsEnded: nat
    ghost var initializedSignals: nat
    /** Re-runs of `resizeGL` requested by a pixel-ratio change. */
    ghost var resizes: nat

    /** A new widget is not initialized, plots points and colours them with a constant colour. */
    constructor (lib: BoundsLibrary)
      ensures this.lib == lib
      ensures !isInitialized && renderMode == Scatterplot && coloringMode == Constant
      ensures colorMapImage == NullImage && pixelRatio == 1.0
      ensures pointRenderer.colormap == NullImage && densityRenderer.colormap == NullImage
      ensures densityRenderer.densityComputations == 0
      ensures renderModeChanged == [] && coloringModeChanged == []
      ensures densityComputationsStarted == 0 && densityComputationsEnded == 0 && initializedSignals == 0
    {
      this.lib := lib;
      isInitialized := false;
      renderMode := Scatterplot;
      coloringMode := Constant;
      dataBounds := MaxBounds;
      colorMapImage := NullImage;
      pixelRatio := 1.0;
      pointRenderer := PointRenderer(MaxBounds, [], NullImage, ZeroVec3, [], [], [], [], 0.0, [], 0, NoEffect);
      densityRenderer := DensityRenderer(MaxBounds, [], NullImage, ZeroVec3, 0);
      renderModeChanged := [];
      coloringModeChanged := [];
      densityComputationsStarted := 0;
      densityComputationsEnded := 0;
      initializedSignals := 0;
      resizes := 0;
    }

    /** `getBounds`: the bounds last stored by `setData`. */
    function GetBounds(): (b: Bounds)
      reads this
      ensures b == dataBounds
    {
      dataBounds
    }

    /** The `computeDensity` slot: signal start, compute on the density renderer, signal end. */
    method ComputeDensity()
      modifies this`densityRenderer, this`densityComputationsStarted, this`densityComputationsEnded
      ensures densityRenderer == old(densityRenderer).(densityComputations := old(densityRenderer.densityComputations) + 1)
      ensures densityComputationsStarted == old(densityComputationsStarted) + 1
      ensures densityComputationsEnded == old(densityComputationsEnded) + 1
      ensures isInitialized == old(isInitialized) && renderMode == old(renderMode)
      ensures coloringMode == old(coloringMode) && dataBounds == old(dataBounds)
      ensures colorMapImage == old(colorMapImage) && pixelRatio == old(pixelRatio)
      ensures pointRenderer == old(pointRenderer)
      ensures renderModeChanged == old(renderModeChanged) && coloringModeChanged == old(coloringModeChanged)
      ensures initializedSignals == old(initializedSignals) && resizes == old(resizes)
    {
      densityComputationsStarted := densityComputationsStarted + 1;
      densityRenderer := densityRenderer.(densityComputations := densityRenderer.densityComputations + 1);
      densityComputationsEnded := densityComputationsEnded + 1;
    }

    /** Requesting the current mode does nothing; a change stores the mode, signals it once and
        computes the density once exactly when the new mode needs one. */
    method SetRenderMode(mode: RenderMode)
      modifies this`renderMode, this`renderModeChanged
      modifies this`densityRenderer, this`densityComputationsStarted, this`densityComputationsEnded
      ensures mode == old(renderMode) ==> unchanged(this)
      ensures mode != old(renderMode) ==>
        && renderMode == mode
        && renderModeChanged == old(renderModeChanged) + [mode]
        && densityRenderer.densityComputations
             == old(densityRenderer.densityComputations) + (if NeedsDensity(mode) then 1 else 0)
        && densityComputationsStarted
             == old(densityComputationsStarted) + (if NeedsDensity(mode) then 1 else 0)
        && densityComputationsEnded
             == old(densityComputationsEnded) + (if NeedsDensity(mode) then 1 else 0)
      ensures densityRenderer == old(densityRenderer).(densityComputations := densityRenderer.densityComputations)
      ensures isInitialized == old(isInitialized) && coloringMode == old(coloringMode)
      ensures dataBounds == old(dataBounds) && colorMapImage == old(colorMapImage)
      ensures pointRenderer == old(pointRenderer) && coloringModeChanged == old(coloringModeChanged)
    {
      if mode == renderMode {
        return;
      }
      renderMode := mode;
      renderModeChanged := renderModeChanged + [renderMode];
      match renderMode {
        case Scatterplot =>
        case Density => ComputeDensity();
        case Landscape => ComputeDensity();
      }
    }

    /** An unchanged colouring mode does nothing; a change stores it and signals it once. */
    method SetColoringMode(mode: ColoringMode)
      modifies this`coloringMode, this`coloringModeChanged
      ensures mode == old(coloringMode) ==> unchanged(this)
      ensures mode != old(coloringMode) ==>
        coloringMode == mode && coloringModeChanged == old(coloringModeChanged) + [mode]
      ensures renderMode == old(renderMode) && renderModeChanged == old(renderModeChanged)
      ensures pointRenderer == old(pointRenderer) && densityRenderer == old(densityRenderer)
      ensures isInitialized == old(isInitialized) && dataBounds == old(dataBounds)
    {
      if mode == coloringMode {
        return;
      }
      coloringMode := mode;
      coloringModeChanged := coloringModeChanged + [coloringMode];
    }

    /** `setData`: both renderers get the same normalised bounds and the points; the density is
        recomputed exactly when the current mode needs it. */
    method SetData(points: seq<Vec2>)
      modifies this`dataBounds, this`pointRenderer, this`densityRenderer
      ensures dataBounds == PlotBounds(lib, points)
      ensures pointRenderer == old(pointRenderer).(bounds := dataBounds, data := points)
      ensures densityRenderer == old(densityRenderer).(
        bounds := dataBounds, data := points,
        densityComputations := old(densityRenderer.densityComputations) + (if NeedsDensity(renderMode) then 1 else 0))
      ensures renderMode == old(renderMode) && coloringMode == old(coloringMode)
      ensures isInitialized == old(isInitialized) && colorMapImage == old(colorMapImage)
      ensures renderModeChanged == old(renderModeChanged) && coloringModeChanged == old(coloringModeChanged)
      ensures densityComputationsStarted == old(densityComputationsStarted)
    {
      var bounds := DataBounds(points);
      bounds := lib.ensureMinimumSize(bounds, 0.0000001, 0.0000001);
      bounds := lib.makeSquare(bounds);
      bounds := lib.expand(bounds, 0.1);
      dataBounds := bounds;

      pointRenderer := pointRenderer.(bounds := dataBounds);
      densityRenderer := densityRenderer.(bounds := dataBounds);
      pointRenderer := pointRenderer.(data := points);
      densityRenderer := densityRenderer.(data := points);

      match renderMode {
        case Scatterplot =>
        case Density =>
          densityRenderer := densityRenderer.(densityComputations := densityRenderer.densityComputations + 1);
        case Landscape =>
          densityRenderer := densityRenderer.(densityComputations := densityRenderer.densityComputations + 1);
      }
    }

    method SetHighlights(highlights: seq<int>, numSelectedPoints: int)
      modifies this`pointRenderer
      ensures pointRenderer == old(pointRenderer).(highlights := highlights, numSelectedPoints := numSelectedPoints)
    {
      pointRenderer := pointRenderer.(highlights := highlights, numSelectedPoints := numSelectedPoints);
    }

    method SetScalars(scalars: seq<real>)
      modifies this`pointRenderer
      ensures pointRenderer == old(pointRenderer).(colorScalars := scalars)
    {
      pointRenderer := pointRenderer.(colorScalars := scalars);
    }

    /** Per-point colours; their number must match the loaded points. */
    method SetColors(colors: seq<Vec3>)
      requires |colors| == |pointRenderer.data|
      modifies this`pointRenderer
      ensures pointRenderer == old(pointRenderer).(colors := colors, scalarEffect := NoEffect)
    {
      pointRenderer := pointRenderer.(colors := colors);
      pointRenderer := pointRenderer.(scalarEffect := NoEffect);
    }

    /** The point size becomes the largest size scalar; the vector must not be empty. */
    method SetPointSizeScalars(sizeScalars: seq<real>)
      requires |sizeScalars| > 0
      modifies this`pointRenderer
      ensures pointRenderer == old(pointRenderer).(sizeScalars := sizeScalars, pointSize := pointRenderer.pointSize)
      ensures pointRenderer.pointSize in sizeScalars
      ensures forall i :: 0 <= i < |sizeScalars| ==> sizeScalars[i] <= pointRenderer.pointSize
    {
      pointRenderer := pointRenderer.(sizeScalars := sizeScalars);
      pointRenderer := pointRenderer.(pointSize := Max(sizeScalars));
    }

    /** Opacity scalars are taken to be normalised already. */
    method SetPointOpacityScalars(opacityScalars: seq<real>)
      requires forall i :: 0 <= i < |opacityScalars| ==> 0.0 <= opacityScalars[i] <= 1.0
      modifies this`pointRenderer
      ensures pointRenderer == old(pointRenderer).(opacityScalars := opacityScalars)
    {
      pointRenderer := pointRenderer.(opacityScalars := opacityScalars);
    }

    /** `getColorMapRange`: the point renderer's range when plotting points, the density renderer's
        in landscape mode, and a zero vector in density mode. */
    function GetColorMapRange(): (r: Vec3)
      reads this
      ensures renderMode == Scatterplot ==> r == pointRenderer.colorMapRange
      ensures renderMode == Landscape ==> r == densityRenderer.colorMapRange
      ensures renderMode == Density ==> r == ZeroVec3
    {
      match renderMode
      case Scatterplot => pointRenderer.colorMapRange
      case Landscape => densityRenderer.colorMapRange
      case Density => ZeroVec3
    }

    /** `setColorMapRange` routes to the renderer of the current mode; density mode touches neither. */
    method SetColorMapRange(min: real, max: real)
      modifies this`pointRenderer, this`densityRenderer
      ensures renderMode == Scatterplot ==>
        pointRenderer == old(pointRenderer).(colorMapRange := RangeVector(min, max))
        && densityRenderer == old(densityRenderer)
      ensures renderMode == Landscape ==>
        densityRenderer == old(densityRenderer).(colorMapRange := RangeVector(min, max))
        && pointRenderer == old(pointRenderer)
      ensures renderMode == Density ==>
        pointRenderer == old(pointRenderer) && densityRenderer == old(densityRenderer)
    {
      match renderMode {
        case Scatterplot =>
          pointRenderer := pointRenderer.(colorMapRange := RangeVector(min, max));
        case Landscape =>
          densityRenderer := densityRenderer.(colorMapRange := RangeVector(min, max));
        case Density =>
      }
    }

    /** The image is always stored; the renderers receive it only once OpenGL is initialized. */
    method SetColorMap(image: Image)
      modifies this`colorMapImage, this`pointRenderer, this`densityRenderer
      ensures colorMapImage == image
      ensures isInitialized ==>
        pointRenderer == old(pointRenderer).(colormap := image)
        && densityRenderer == old(densityRenderer).(colormap := image)
      ensures !isInitialized ==>
        pointRenderer == old(pointRenderer) && densityRenderer == old(densityRenderer)
    {
      colorMapImage := image;
      if !isInitialized {
        return;
      }
      pointRenderer := pointRenderer.(colormap := colorMapImage);
      densityRenderer := densityRenderer.(colormap := colorMapImage);
    }

    /** The state part of `initializeGL`: mark initialized, then replay the stored colour map. */
    method InitializeGL()
      modifies this`isInitialized, this`pointRenderer, this`densityRenderer, this`colorMapImage
      modifies this`initializedSignals
      ensures isInitialized
      ensures pointRenderer == old(pointRenderer).(colormap := old(colorMapImage), scalarEffect := ColorEffect)
      ensures densityRenderer == old(densityRenderer).(colormap := old(colorMapImage))
      ensures colorMapImage == old(colorMapImage)
      ensures initializedSignals == old(initializedSignals) + 1
      ensures renderMode == old(renderMode) && coloringMode == old(coloringMode)
      ensures dataBounds == old(dataBounds)
    {
      pointRenderer := pointRenderer.(scalarEffect := ColorEffect);
      isInitialized := true;
      SetColorMap(colorMapImage);
      initializedSignals := initializedSignals + 1;
    }

    /** Only a changed device pixel ratio is stored, and only then is the viewport resized. */
    method UpdatePixelRatio(devicePixelRatio: real)
      modifies this`pixelRatio, this`resizes
      ensures pixelRatio == devicePixelRatio
      ensures resizes == old(resizes) + (if old(pixelRatio) != devicePixelRatio then 1 else 0)
    {
      if pixelRatio != devicePixelRatio {
        pixelRatio := devicePixelRatio;
        resizes := resizes + 1;
      }
    }
  }

  /** A client of the widget: set a range, read it back. The range comes back in point-plot and
      landscape mode, and density mode always reads as zero. */
  method ColorMapRangeRoundTrip(lib: BoundsLibrary, mode: RenderMode, min: real, max: real)
    returns (r: Vec3)
    ensures mode == Density ==> r == ZeroVec3
    ensures mode != Density ==> r == Vec3(min, max, max - min)
  {
    var w := new Widget(lib);
    w.SetRenderMode(mode);
    w.SetColorMapRange(min, max);
    r := w.GetColorMapRange();
  }

  /** A client of the widget: a colour map set before OpenGL is ready reaches neither renderer,
      and reaches both once `initializeGL` has run. */
  method ColorMapReplay(lib: BoundsLibrary, image: Image)
    returns (beforeInit: Image, afterPoint: Image, afterDensity: Image)
    ensures beforeInit == NullImage
    ensures afterPoint == image && afterDensity == image
  {
    var w := new Widget(lib);
    w.SetColorMap(image);
    beforeInit := w.pointRenderer.colormap;
    w.InitializeGL();
    afterPoint, afterDensity := w.pointRenderer.colormap, w.densityRenderer.colormap;
  }

  /** A client of the widget: switching modes from a new widget computes exactly as many
      densities as there were real switches into density or landscape mode. */
  method DensityComputationsForSwitches(lib: BoundsLibrary, first: RenderMode, second: RenderMode)
    returns (computations: nat, ghost signals: nat)
    ensures computations ==
      (if first != Scatterplot then 1 else 0) + (if second != first && NeedsDensity(second) then 1 else 0)
    ensures signals == (if first != Scatterplot then 1 else 0) + (if second != first then 1 else 0)
  {
    var w := new Widget(lib);
    w.SetRenderMode(first);
    w.SetRenderMode(second);
    computations := w.densityRenderer.densityComputations;
    signals := |w.renderModeChanged|;
  }
}
