/**
 * The render cache of a path chain: a base image holding the whole chain in the
 * unfocused style, rebuilt only when the canvas size or the colour scheme changes,
 * and an overlay image holding the current path in the focused style, rebuilt only
 * when the current path changes. Images are modelled by their size and the stroke
 * commands drawn into them; pixels are not modelled.
 */
module PathChainRendering {
  import opened Foreign

  /** A `Path2D` command, in screen coordinates. */
  datatype Cmd = MoveTo(p: Vec) | LineTo(p: Vec)

  /** The two `BasicStroke` widths, `PATH_INNER_STROKE_WIDTH` and `PATH_OUTER_STROKE_WIDTH`. */
  datatype StrokeWidth = InnerStrokeWidth | OuterStrokeWidth

  /** The alpha a stroke is drawn with: `PATH_UNFOCUSED_OPACITY`, `PATH_OUTER_OPACITY` or none. */
  datatype Opacity = UnfocusedOpacity | OuterOpacity | FullOpacity

  /** One `gfx.draw(drawnPath)` call: the outline in the scheme's trajectory path colour. */
  datatype Stroke = Stroke(width: StrokeWidth, scheme: ColorScheme, opacity: Opacity, outline: seq<Cmd>)

  /** A translucent image: its pixel size and the strokes drawn into it, in order. */
  datatype Image = Image(width: int, height: int, strokes: seq<Stroke>)

  /** One `gfx.drawImage(image, null, x, y)` call. */
  datatype Blit = Blit(image: Image, x: int, y: int)

  /** The number of intervals `drawPath` divides each path into. */
  const Intervals: nat := 100

  /** The screen point of `path` at parameter `t`. */
  function ScreenPoint(g: Geometry, path: Path, t: real): Vec {
    g.toScreen(g.point(path, t))
  }

  /** The first `n` `lineTo` commands of `drawPath`, at parameters 0/100, 1/100, ... */
  function LineSamples(g: Geometry, path: Path, n: nat): seq<Cmd> {
    if n == 0 then []
    else LineSamples(g, path, n - 1) + [LineTo(ScreenPoint(g, path, (n - 1) as real / Intervals as real))]
  }

  /** What `drawPath` appends for one path: a `moveTo` its start, then 101 `lineTo`s. */
  function PathOutline(g: Geometry, path: Path): seq<Cmd> {
    [MoveTo(ScreenPoint(g, path, 0.0))] + LineSamples(g, path, Intervals + 1)
  }

  /** What `redrawPath`'s loop accumulates: the outlines of the paths, in chain order. */
  function ChainOutline(g: Geometry, paths: seq<Path>): seq<Cmd> {
    if paths == [] then []
    else ChainOutline(g, paths[..|paths| - 1]) + PathOutline(g, paths[|paths| - 1])
  }

  /** The number of `moveTo` commands in `cmds`, each of which starts a new subpath. */
  function MoveCount(cmds: seq<Cmd>): nat {
    if cmds == [] then 0
    else MoveCount(cmds[..|cmds| - 1]) + (if cmds[|cmds| - 1].MoveTo? then 1 else 0)
  }

  lemma {:induction false} LineSamplesAt(g: Geometry, path: Path, n: nat, k: nat)
    requires k < n
    ensures |LineSamples(g, path, n)| == n
    ensures LineSamples(g, path, n)[k] == LineTo(ScreenPoint(g, path, k as real / Intervals as real))
  {
    if k < n - 1 {
      LineSamplesAt(g, path, n - 1, k);
    } else if n > 1 {
      LineSamplesAt(g, path, n - 1, 0);
    }
  }

  lemma {:induction false} LineSamplesHaveNoMove(g: Geometry, path: Path, n: nat)
    ensures MoveCount(LineSamples(g, path, n)) == 0
  {
    if n > 0 {
      var s := LineSamples(g, path, n);
      assert s[..|s| - 1] == LineSamples(g, path, n - 1);
      LineSamplesHaveNoMove(g, path, n - 1);
    }
  }

  lemma {:induction false} MoveCountAppend(a: seq<Cmd>, b: seq<Cmd>)
    ensures MoveCount(a + b) == MoveCount(a) + MoveCount(b)
    decreases |b|
  {
    if b != [] {
      assert (a + b)[..|a + b| - 1] == a + b[..|b| - 1];
      MoveCountAppend(a, b[..|b| - 1]);
    } else {
      assert a + b == a;
    }
  }

  /**
   * `drawPath` appends exactly 102 commands: one `moveTo` the screen point at 0,
   * then a `lineTo` the screen point at i/100 for each i from 0 to 100 in turn.
   */
  lemma PathOutlineShape(g: Geometry, path: Path)
    ensures |PathOutline(g, path)| == Intervals + 2
    ensures PathOutline(g, path)[0] == MoveTo(ScreenPoint(g, path, 0.0))
    ensures forall j :: 1 <= j <= Intervals + 1 ==>
      PathOutline(g, path)[j] == LineTo(ScreenPoint(g, path, (j - 1) as real / Intervals as real))
    ensures MoveCount(PathOutline(g, path)) == 1
  {
    LineSamplesAt(g, path, Intervals + 1, 0);
    forall j | 1 <= j <= Intervals + 1
      ensures PathOutline(g, path)[j] == LineTo(ScreenPoint(g, path, (j - 1) as real / Intervals as real))
    {
      LineSamplesAt(g, path, Intervals + 1, j - 1);
    }
    LineSamplesHaveNoMove(g, path, Intervals + 1);
    MoveCountAppend([MoveTo(ScreenPoint(g, path, 0.0))], LineSamples(g, path, Intervals + 1));
    assert [MoveTo(ScreenPoint(g, path, 0.0))][..0] == [];
  }

  /** The whole-chain outline has 102 commands per path and one `moveTo` per path; an empty chain draws nothing. */
  lemma {:induction false} ChainOutlineSize(g: Geometry, paths: seq<Path>)
    ensures |ChainOutline(g, paths)| == (Intervals + 2) * |paths|
    ensures MoveCount(ChainOutline(g, paths)) == |paths|
    ensures paths == [] ==> ChainOutline(g, paths) == []
  {
    if paths != [] {
      var init, last := paths[..|paths| - 1], paths[|paths| - 1];
      ChainOutlineSize(g, init);
      PathOutlineShape(g, last);
      MoveCountAppend(ChainOutline(g, init), PathOutline(g, last));
    }
  }

  /** The k-th block of 102 commands of the chain outline is exactly the outline of the k-th path. */
  lemma {:induction false} ChainOutlineBlock(g: Geometry, paths: seq<Path>, k: nat)
    requires k < |paths|
    ensures |ChainOutline(g, paths)| == (Intervals + 2) * |paths|
    ensures ChainOutline(g, paths)[(Intervals + 2) * k .. (Intervals + 2) * (k + 1)] == PathOutline(g, paths[k])
  {
    var init, last := paths[..|paths| - 1], paths[|paths| - 1];
    ChainOutlineSize(g, paths);
    ChainOutlineSize(g, init);
    PathOutlineShape(g, last);
    var whole := ChainOutline(g, paths);
    assert whole == ChainOutline(g, init) + PathOutline(g, last);
    if k < |paths| - 1 {
      ChainOutlineBlock(g, init, k);
      assert init[k] == paths[k];
      assert (Intervals + 2) * (k + 1) <= (Intervals + 2) * |init|;
      assert whole[(Intervals + 2) * k .. (Intervals + 2) * (k + 1)]
          == ChainOutline(g, init)[(Intervals + 2) * k .. (Intervals + 2) * (k + 1)];
    } else {
      assert (Intervals + 2) * k == |ChainOutline(g, init)|;
      assert whole[(Intervals + 2) * k ..] == PathOutline(g, last);
    }
  }

  /** Appending one path's outline to the outline of a prefix of the chain gives the outline of the longer prefix. */
  lemma ChainOutlineExtend(g: Geometry, paths: seq<Path>, i: nat)
    requires i < |paths|
    ensures ChainOutline(g, paths[..i + 1]) == ChainOutline(g, paths[..i]) + PathOutline(g, paths[i])
  {
    assert paths[..i + 1][..i] == paths[..i];
  }

  /** The base image at the given canvas size: the chain outline in the inner width at the unfocused opacity. */
  function BaseImage(g: Geometry, chain: PathChain, scheme: ColorScheme, canvasWidth: real, canvasHeight: real): Image {
    Image(ToInt(canvasWidth), ToInt(canvasHeight),
          [Stroke(InnerStrokeWidth, scheme, UnfocusedOpacity, ChainOutline(g, chain.paths))])
  }

  /** The overlay for one path: its outline stroked wide and translucent, then narrow and opaque. */
  function OverlayImage(g: Geometry, path: Path, scheme: ColorScheme, canvasWidth: real, canvasHeight: real): Image {
    Image(ToInt(canvasWidth), ToInt(canvasHeight),
          [Stroke(OuterStrokeWidth, scheme, OuterOpacity, PathOutline(g, path)),
           Stroke(InnerStrokeWidth, scheme, FullOpacity, PathOutline(g, path))])
  }

  /**
   * The fields of a `PathChainEntity`, with the number of times the base image and the
   * overlay have been redrawn so far.
   */
  datatype CacheState = CacheState(
    colorScheme: ColorScheme,
    canvasWidth: real,
    canvasHeight: real,
    base: Image,
    overlay: Option<Image>,
    currentPath: Option<Path>,
    baseRedraws: nat,
    overlayRedraws: nat)

  /** The state `redrawPath` leaves: a fresh base image at the stored canvas size and scheme. */
  function WithBaseRedrawn(g: Geometry, chain: PathChain, st: CacheState): (r: CacheState)
    ensures r.base.width == ToInt(st.canvasWidth) && r.base.height == ToInt(st.canvasHeight)
    ensures r.base.strokes == [Stroke(InnerStrokeWidth, st.colorScheme, UnfocusedOpacity, ChainOutline(g, chain.paths))]
    ensures r.baseRedraws == st.baseRedraws + 1
    ensures r.(base := st.base, baseRedraws := st.baseRedraws) == st
  {
    st.(base := BaseImage(g, chain, st.colorScheme, st.canvasWidth, st.canvasHeight),
        baseRedraws := st.baseRedraws + 1)
  }

  /** The state `redrawCurrentSegment` leaves: no overlay without a current path, otherwise a fresh one for it. */
  function WithOverlayRedrawn(g: Geometry, st: CacheState): (r: CacheState)
    ensures r.overlay.None? <==> st.currentPath.None?
    ensures r.overlay.Some? ==>
      r.overlay.value.width == ToInt(st.canvasWidth) && r.overlay.value.height == ToInt(st.canvasHeight) &&
      |r.overlay.value.strokes| == 2 &&
      r.overlay.value.strokes[0].width == OuterStrokeWidth && r.overlay.value.strokes[0].opacity == OuterOpacity &&
      r.overlay.value.strokes[1].width == InnerStrokeWidth && r.overlay.value.strokes[1].opacity == FullOpacity &&
      forall j :: 0 <= j < 2 ==>
        r.overlay.value.strokes[j].scheme == st.colorScheme &&
        r.overlay.value.strokes[j].outline == PathOutline(g, st.currentPath.value)
    ensures r.overlayRedraws == st.overlayRedraws + 1
    ensures r.(overlay := st.overlay, overlayRedraws := st.overlayRedraws) == st
  {
    match st.currentPath
    case None => st.(overlay := None, overlayRedraws := st.overlayRedraws + 1)
    case Some(path) =>
      st.(overlay := Some(OverlayImage(g, path, st.colorScheme, st.canvasWidth, st.canvasHeight)),
          overlayRedraws := st.overlayRedraws + 1)
  }

  /** The state right after construction (`init`): the base drawn once, no current path, no overlay. */
  function Initial(g: Geometry, chain: PathChain, scheme: ColorScheme, canvasWidth: real, canvasHeight: real): (r: CacheState)
    ensures r.base == BaseImage(g, chain, scheme, canvasWidth, canvasHeight) && r.baseRedraws == 1
    ensures r.currentPath.None? && r.overlay.None? && r.overlayRedraws == 0
    ensures r.colorScheme == scheme && r.canvasWidth == canvasWidth && r.canvasHeight == canvasHeight
  {
    WithBaseRedrawn(g, chain, CacheState(scheme, canvasWidth, canvasHeight, Image(0, 0, []), None, None, 0, 0))
  }

  /** `updateCurrentPath`: a different path is stored and the overlay redrawn once; the same path changes nothing. */
  function AfterUpdateCurrentPath(g: Geometry, st: CacheState, path: Option<Path>): (r: CacheState)
    ensures r.currentPath == path
    ensures path == st.currentPath ==> r == st
    ensures path != st.currentPath ==> r == WithOverlayRedrawn(g, st.(currentPath := path))
    ensures r.overlayRedraws == st.overlayRedraws + (if path != st.currentPath then 1 else 0)
    ensures r.base == st.base && r.baseRedraws == st.baseRedraws
    ensures r.colorScheme == st.colorScheme && r.canvasWidth == st.canvasWidth && r.canvasHeight == st.canvasHeight
  {
    if path != st.currentPath then WithOverlayRedrawn(g, st.(currentPath := path)) else st
  }

  /**
   * `setCanvasDimensions`: a different size redraws the base once, BEFORE the new size is
   * stored, so the base keeps the previous size; the new size is stored in every case.
   */
  function AfterSetCanvasDimensions(g: Geometry, chain: PathChain, st: CacheState, canvasWidth: real, canvasHeight: real): (r: CacheState)
    ensures r.canvasWidth == canvasWidth && r.canvasHeight == canvasHeight
    ensures var changed := st.canvasWidth != canvasWidth || st.canvasHeight != canvasHeight;
      r.baseRedraws == st.baseRedraws + (if changed then 1 else 0) &&
      r.base == if changed then BaseImage(g, chain, st.colorScheme, st.canvasWidth, st.canvasHeight) else st.base
    ensures r.overlay == st.overlay && r.overlayRedraws == st.overlayRedraws && r.currentPath == st.currentPath
    ensures r.colorScheme == st.colorScheme
  {
    var drawn := if st.canvasWidth != canvasWidth || st.canvasHeight != canvasHeight
                 then WithBaseRedrawn(g, chain, st) else st;
    drawn.(canvasWidth := canvasWidth, canvasHeight := canvasHeight)
  }

  /** `switchScheme`: a different scheme is stored and the base redrawn once with it; the overlay is left alone. */
  function AfterSwitchScheme(g: Geometry, chain: PathChain, st: CacheState, scheme: ColorScheme): (r: CacheState)
    ensures r.colorScheme == scheme
    ensures scheme == st.colorScheme ==> r == st
    ensures scheme != st.colorScheme ==>
      r.base == BaseImage(g, chain, scheme, st.canvasWidth, st.canvasHeight) && r.baseRedraws == st.baseRedraws + 1
    ensures r.overlay == st.overlay && r.overlayRedraws == st.overlayRedraws && r.currentPath == st.currentPath
    ensures r.canvasWidth == st.canvasWidth && r.canvasHeight == st.canvasHeight
  {
    if st.colorScheme != scheme then WithBaseRedrawn(g, chain, st.(colorScheme := scheme)) else st
  }

  /**
   * What the cache always reflects: the base shows the whole chain in the current scheme,
   * and the overlay exists exactly when there is a current path and shows that path's
   * outline, outer stroke first. The overlay's colour and both images' sizes may be stale.
   */
  ghost predicate Consistent(g: Geometry, chain: PathChain, st: CacheState) {
    && st.base.strokes == [Stroke(InnerStrokeWidth, st.colorScheme, UnfocusedOpacity, ChainOutline(g, chain.paths))]
    && (st.overlay.Some? <==> st.currentPath.Some?)
    && (st.overlay.Some? ==>
          && |st.overlay.value.strokes| == 2
          && st.overlay.value.strokes[0].width == OuterStrokeWidth
          && st.overlay.value.strokes[0].opacity == OuterOpacity
          && st.overlay.value.strokes[1].width == InnerStrokeWidth
          && st.overlay.value.strokes[1].opacity == FullOpacity
          && st.overlay.value.strokes[0].outline == PathOutline(g, st.currentPath.value)
          && st.overlay.value.strokes[1].outline == PathOutline(g, st.currentPath.value))
  }

  /** Every operation on the cache keeps it consistent. */
  lemma ConsistentPreserved(g: Geometry, chain: PathChain, st: CacheState, path: Option<Path>,
                            scheme: ColorScheme, canvasWidth: real, canvasHeight: real)
    ensures Consistent(g, chain, Initial(g, chain, scheme, canvasWidth, canvasHeight))
    ensures Consistent(g, chain, st) ==> Consistent(g, chain, AfterUpdateCurrentPath(g, st, path))
    ensures Consistent(g, chain, st) ==> Consistent(g, chain, AfterSetCanvasDimensions(g, chain, st, canvasWidth, canvasHeight))
    ensures Consistent(g, chain, st) ==> Consistent(g, chain, AfterSwitchScheme(g, chain, st, scheme))
  {
  }

  /** Telling the cache the same path twice redraws the overlay at most once. */
  lemma UpdateCurrentPathIdempotent(g: Geometry, st: CacheState, path: Option<Path>)
    ensures AfterUpdateCurrentPath(g, AfterUpdateCurrentPath(g, st, path), path) == AfterUpdateCurrentPath(g, st, path)
  {
  }

  /** A canvas resize never touches the overlay, and resizing to the stored size again redraws nothing. */
  lemma SetCanvasDimensionsIdempotent(g: Geometry, chain: PathChain, st: CacheState, canvasWidth: real, canvasHeight: real)
    ensures var once := AfterSetCanvasDimensions(g, chain, st, canvasWidth, canvasHeight);
      AfterSetCanvasDimensions(g, chain, once, canvasWidth, canvasHeight) == once
  {
  }

  /**
   * `cmds` before a further `moveTo`: `Path2D.moveTo` replaces a `moveTo` that is still
   * the last command instead of appending a second one.
   */
  function WithoutTrailingMove(cmds: seq<Cmd>): (r: seq<Cmd>)
    ensures cmds != [] && cmds[|cmds| - 1].MoveTo? ==> r == cmds[..|cmds| - 1]
    ensures cmds == [] || cmds[|cmds| - 1].LineTo? ==> r == cmds
  {
    if cmds != [] && cmds[|cmds| - 1].MoveTo? then cmds[..|cmds| - 1] else cmds
  }

  /** A non-empty chain outline ends with a `lineTo`, so the next `moveTo` is appended, not merged. */
  lemma ChainOutlineEndsWithLine(g: Geometry, paths: seq<Path>)
    requires paths != []
    ensures |ChainOutline(g, paths)| > 0
    ensures ChainOutline(g, paths)[|ChainOutline(g, paths)| - 1].LineTo?
  {
    var last := paths[|paths| - 1];
    PathOutlineShape(g, last);
    assert ChainOutline(g, paths) == ChainOutline(g, paths[..|paths| - 1]) + PathOutline(g, last);
  }

  /**
   * A `Path2D.Double` under construction: its commands so far. Only `moveTo` and
   * `lineTo` are modelled, including `moveTo`'s replacement of a trailing `moveTo`.
   */
  class Path2D {
    var commands: seq<Cmd>

    constructor ()
      ensures commands == []
    {
      commands := [];
    }

    method MoveTo(p: Vec)
      modifies this
      ensures commands == WithoutTrailingMove(old(commands)) + [Cmd.MoveTo(p)]
    {
      commands := WithoutTrailingMove(commands) + [Cmd.MoveTo(p)];
    }

    method LineTo(p: Vec)
      modifies this
      ensures commands == old(commands) + [Cmd.LineTo(p)]
    {
      commands := commands + [Cmd.LineTo(p)];
    }
  }

  /** The entity that draws a path chain and highlights its current path. */
  class PathChainEntity {
    const meepMeep: MeepMeep
    const pathChain: PathChain
    var colorScheme: ColorScheme
    var canvasWidth: real
    var canvasHeight: real
    var baseBufferedImage: Image
    var currentSegmentImage: Option<Image>
    var currentPath: Option<Path>
    ghost var baseRedraws: nat
    ghost var overlayRedraws: nat

    ghost function State(): CacheState
      reads this
    {
      CacheState(colorScheme, canvasWidth, canvasHeight, baseBufferedImage, currentSegmentImage,
                 currentPath, baseRedraws, overlayRedraws)
    }

    ghost predicate Valid()
      reads this
    {
      Consistent(meepMeep.geo, pathChain, State())
    }

    /** Takes the canvas size from the host, then draws the base (`init`). */
    constructor (meepMeep: MeepMeep, pathChain: PathChain, colorScheme: ColorScheme)
      ensures this.meepMeep == meepMeep && this.pathChain == pathChain
      ensures State() == Initial(meepMeep.geo, pathChain, colorScheme, meepMeep.canvasWidth, meepMeep.canvasHeight)
      ensures Valid()
    {
      this.meepMeep := meepMeep;
      this.pathChain := pathChain;
      this.colorScheme := colorScheme;
      canvasWidth := meepMeep.canvasWidth;
      canvasHeight := meepMeep.canvasHeight;
      baseBufferedImage := Image(0, 0, []);
      currentSegmentImage := None;
      currentPath := None;
      baseRedraws := 0;
      overlayRedraws := 0;
      new;
      RedrawPath();
      ConsistentPreserved(meepMeep.geo, pathChain, State(), None, colorScheme, canvasWidth, canvasHeight);
    }

    method UpdateCurrentPath(path: Option<Path>)
      requires Valid()
      modifies this
      ensures Valid()
      ensures State() == AfterUpdateCurrentPath(meepMeep.geo, old(State()), path)
    {
      if path != currentPath {
        currentPath := path;
        RedrawCurrentSegment();
      }
      ConsistentPreserved(meepMeep.geo, pathChain, old(State()), path, colorScheme, canvasWidth, canvasHeight);
    }

    /** Appends the outline of `path` to `drawnPath`, whose own trailing `moveTo` (if any) it replaces. */
    method DrawPath(path: Path, drawnPath: Path2D)
      modifies drawnPath
      ensures drawnPath.commands == WithoutTrailingMove(old(drawnPath.commands)) + PathOutline(meepMeep.geo, path)
    {
      var g := meepMeep.geo;
      var start := g.point(path, 0.0);
      var screenStart := g.toScreen(Vec(start.x, start.y));
      drawnPath.MoveTo(screenStart);
      for i := 0 to Intervals + 1
        invariant drawnPath.commands == WithoutTrailingMove(old(drawnPath.commands)) + [Cmd.MoveTo(screenStart)] + LineSamples(g, path, i)
      {
        var point := g.point(path, i as real / Intervals as real);
        var screenPoint := g.toScreen(Vec(point.x, point.y));
        drawnPath.LineTo(screenPoint);
      }
    }

    method RedrawPath()
      modifies this
      ensures State() == WithBaseRedrawn(meepMeep.geo, pathChain, old(State()))
    {
      var drawnPath := new Path2D();
      for i := 0 to pathChain.Size()
        invariant drawnPath.commands == ChainOutline(meepMeep.geo, pathChain.paths[..i])
        modifies drawnPath
      {
        ChainOutlineExtend(meepMeep.geo, pathChain.paths, i);
        if i > 0 {
          ChainOutlineEndsWithLine(meepMeep.geo, pathChain.paths[..i]);
        }
        DrawPath(pathChain.GetPath(i), drawnPath);
      }
      assert pathChain.paths[..pathChain.Size()] == pathChain.paths;
      baseBufferedImage := Image(ToInt(canvasWidth), ToInt(canvasHeight),
                                 [Stroke(InnerStrokeWidth, colorScheme, UnfocusedOpacity, drawnPath.commands)]);
      baseRedraws := baseRedraws + 1;
    }

    method RedrawCurrentSegment()
      modifies this
      ensures State() == WithOverlayRedrawn(meepMeep.geo, old(State()))
    {
      overlayRedraws := overlayRedraws + 1;
      if currentPath.None? {
        currentSegmentImage := None;
        return;
      }
      var drawnPath := new Path2D();
      DrawPath(currentPath.value, drawnPath);
      assert drawnPath.commands == PathOutline(meepMeep.geo, currentPath.value);
      currentSegmentImage := Some(Image(ToInt(canvasWidth), ToInt(canvasHeight),
        [Stroke(OuterStrokeWidth, colorScheme, OuterOpacity, drawnPath.commands),
         Stroke(InnerStrokeWidth, colorScheme, FullOpacity, drawnPath.commands)]));
    }

    /** The entity has no behaviour of its own per tick. */
    method Update(deltaTime: int)
      ensures State() == old(State())
    {
    }

    /** The images drawn, in order: the base, then the overlay if there is one, both at the origin. */
    method Render(canvasWidth: int, canvasHeight: int) returns (draws: seq<Blit>)
      ensures 1 <= |draws| <= 2
      ensures draws[0] == Blit(baseBufferedImage, 0, 0)
      ensures |draws| == 2 <==> currentSegmentImage.Some?
      ensures |draws| == 2 ==> draws[1] == Blit(currentSegmentImage.value, 0, 0)
    {
      draws := [Blit(baseBufferedImage, 0, 0)];
      if currentSegmentImage.Some? {
        draws := draws + [Blit(currentSegmentImage.value, 0, 0)];
      }
    }

    method SetCanvasDimensions(canvasWidth: real, canvasHeight: real)
      requires Valid()
      modifies this
      ensures Valid()
      ensures State() == AfterSetCanvasDimensions(meepMeep.geo, pathChain, old(State()), canvasWidth, canvasHeight)
    {
      if this.canvasWidth != canvasWidth || this.canvasHeight != canvasHeight {
        RedrawPath();
      }
      this.canvasWidth := canvasWidth;
      this.canvasHeight := canvasHeight;
      ConsistentPreserved(meepMeep.geo, pathChain, old(State()), currentPath, colorScheme, canvasWidth, canvasHeight);
    }

    method SwitchScheme(scheme: ColorScheme)
      requires Valid()
      modifies this
      ensures Valid()
      ensures State() == AfterSwitchScheme(meepMeep.geo, pathChain, old(State()), scheme)
    {
      if this.colorScheme != scheme {
        this.colorScheme := scheme;
        RedrawPath();
      }
      ConsistentPreserved(meepMeep.geo, pathChain, old(State()), currentPath, scheme, canvasWidth, canvasHeight);
    }
  }
}
