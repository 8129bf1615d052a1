/**
 * The placement engine of the T-shirt designer: the colour-to-mockup table, the
 * aspect-preserving fit of the artwork into a 200 x 200 box, and the state that the
 * pointer, touch and button handlers update (position, scale, rotation, drag flag,
 * drag offset and the stored fitted size) on a 400 x 500 drawing surface.
 */
module TShirtDesigner {
  import opened Wrappers
  import opened Text

  const SurfaceWidth: real := 400.0
  const SurfaceHeight: real := 500.0
  /** The artwork is fitted into a MaxBox x MaxBox box. */
  const MaxBox: int := 200
  const MinScale: real := 0.5
  const MaxScale: real := 2.0
  const ScaleStep: real := 0.1
  const RotationStep: real := 15.0

  function MinR(a: real, b: real): real { if a <= b then a else b }
  function MaxR(a: real, b: real): real { if a >= b then a else b }

  // ---------------------------------------------------------------------------
  // Mockup lookup

  const DefaultMockup: string := "/mockup-t.png"

  /** The palette colours, lower-case, with the mockup drawn for each. */
  const Mockups: map<string, string> :=
    map["#0b0b0f" := "/mock-tBL.jpg", "#e6e6eb" := "/mockup-t.png",
        "#1e2a44" := "/mock-tB.jpg", "#6d1b1b" := "/mock-tR.jpg"]

  /** `getMockupPath`: a case-insensitive switch on the colour; unknown colours get the default. */
  function MockupPath(color: string): (path: string)
    ensures ToLower(color) in Mockups ==> path == Mockups[ToLower(color)]
    ensures ToLower(color) !in Mockups ==> path == DefaultMockup
  {
    match ToLower(color)
    case "#0b0b0f" => "/mock-tBL.jpg"
    case "#e6e6eb" => "/mockup-t.png"
    case "#1e2a44" => "/mock-tB.jpg"
    case "#6d1b1b" => "/mock-tR.jpg"
    case _ => "/mockup-t.png"
  }

  /** The lookup never fails: every key yields one of the four mockup files. */
  lemma MockupPathTotal(color: string)
    ensures MockupPath(color) in Mockups.Values
  {
    assert Mockups["#e6e6eb"] == DefaultMockup;
  }

  /** The lookup ignores the case of the key. */
  lemma MockupPathIgnoresCase(color: string)
    ensures MockupPath(ToLower(color)) == MockupPath(color)
  {
    ToLowerIdempotent(color);
  }

  // ---------------------------------------------------------------------------
  // Fitted size

  datatype Size = Size(width: int, height: int)

  /** JavaScript's `Math.round` (halves go up). */
  function Round(x: real): (n: int)
    ensures n as real - 0.5 <= x < n as real + 0.5
  {
    (x + 0.5).Floor
  }

  /**
   * `Math.min(200 / w, 200 / h, 1)`. A zero side makes its quotient Infinity in the
   * source, so it imposes no limit.
   */
  function FitScale(w: nat, h: nat): (s: real)
    ensures 0.0 < s <= 1.0
    ensures w > 0 ==> s <= MaxBox as real / w as real
    ensures h > 0 ==> s <= MaxBox as real / h as real
    ensures s == 1.0 || (w > 0 && s == MaxBox as real / w as real) || (h > 0 && s == MaxBox as real / h as real)
  {
    var sw := if w == 0 then 1.0 else MinR(MaxBox as real / w as real, 1.0);
    var sh := if h == 0 then 1.0 else MinR(MaxBox as real / h as real, 1.0);
    MinR(sw, sh)
  }

  /** `Math.max(1, Math.round(dim * fitScale))`. */
  function FittedSide(dim: nat, s: real): int {
    var r := Round(dim as real * s);
    if r < 1 then 1 else r
  }

  /** The size the draw effect computes for an artwork whose native size is w x h. */
  function FittedSize(w: nat, h: nat): Size {
    var s := FitScale(w, h);
    Size(FittedSide(w, s), FittedSide(h, s))
  }

  lemma RoundAtMost(x: real, n: int)
    requires x <= n as real
    ensures Round(x) <= n
  {
  }

  lemma ScaledAtMost(dim: nat, s: real, bound: real)
    requires dim > 0 && 0.0 < s && s <= bound / dim as real
    ensures dim as real * s <= bound
  {
    calc {
      dim as real * s;
    <= dim as real * (bound / dim as real);
    == bound;
    }
  }

  /** One side of the fit: at least 1, at most the box, never more than the native side (or 1). */
  lemma FittedSideBounds(dim: nat, s: real)
    requires 0.0 < s <= 1.0
    requires dim > 0 ==> s <= MaxBox as real / dim as real
    ensures 1 <= FittedSide(dim, s) <= MaxBox
    ensures FittedSide(dim, s) <= if dim == 0 then 1 else dim
  {
    if dim > 0 {
      ScaledAtMost(dim, s, MaxBox as real);
      RoundAtMost(dim as real * s, MaxBox);
      assert dim as real * s <= dim as real * 1.0;
      RoundAtMost(dim as real * s, dim);
    }
  }

  /** Both fitted sides lie in [1, 200] and neither exceeds the native side. */
  lemma FittedSizeBounds(w: nat, h: nat)
    ensures 1 <= FittedSize(w, h).width <= MaxBox && 1 <= FittedSize(w, h).height <= MaxBox
    ensures w >= 1 ==> FittedSize(w, h).width <= w
    ensures h >= 1 ==> FittedSize(w, h).height <= h
  {
    var s := FitScale(w, h);
    FittedSideBounds(w, s);
    FittedSideBounds(h, s);
  }

  lemma QuotientAtLeastOne(n: nat)
    requires 1 <= n <= MaxBox
    ensures MaxBox as real / n as real >= 1.0
  {
    var q := MaxBox as real / n as real;
    assert q * n as real == MaxBox as real;
  }

  /** An artwork that already fits the box keeps its native size: there is no upscaling. */
  lemma FittedSizeNoUpscale(w: nat, h: nat)
    requires 1 <= w <= MaxBox && 1 <= h <= MaxBox
    ensures FittedSize(w, h) == Size(w, h)
  {
    QuotientAtLeastOne(w);
    QuotientAtLeastOne(h);
    assert FitScale(w, h) == 1.0;
  }

  /** An artwork larger than the box is shrunk until its longer side is exactly 200. */
  lemma QuotientAntitone(k: real, w: real, h: real)
    requires k >= 0.0 && w >= h > 0.0
    ensures k / w <= k / h
  {
    var a, b := k / w, k / h;
    assert a * w == k && b * h == k;
    MulMonotone(a, h, w);
    assert a * h <= b * h;
  }

  lemma MulMonotone(a: real, b: real, c: real)
    requires a >= 0.0 && b <= c
    ensures a * b <= a * c
  {
    assert a * c - a * b == a * (c - b);
  }

  /** When the longer side overflows the box, the fit scale is the box over that side. */
  lemma FitScaleOfLonger(w: nat, h: nat)
    requires h >= 1 && w >= 1 && (w > MaxBox || h > MaxBox)
    ensures w >= h ==> FitScale(w, h) == MaxBox as real / w as real
    ensures h >= w ==> FitScale(w, h) == MaxBox as real / h as real
  {
    if w >= h {
      QuotientAntitone(MaxBox as real, w as real, h as real);
    }
    if h >= w {
      QuotientAntitone(MaxBox as real, h as real, w as real);
    }
  }

  /** A side scaled by the box over itself is drawn exactly as large as the box. */
  lemma FittedSideOfOwnQuotient(dim: nat)
    requires dim >= 1
    ensures FittedSide(dim, MaxBox as real / dim as real) == MaxBox
  {
    assert dim as real * (MaxBox as real / dim as real) == MaxBox as real;
  }

  lemma FittedSizeFillsBox(w: nat, h: nat)
    requires w >= 1 && h >= 1 && (w > MaxBox || h > MaxBox)
    ensures w >= h ==> FittedSize(w, h).width == MaxBox
    ensures h >= w ==> FittedSize(w, h).height == MaxBox
  {
    FitScaleOfLonger(w, h);
    if w >= h {
      FittedSideOfOwnQuotient(w);
    }
    if h >= w {
      FittedSideOfOwnQuotient(h);
    }
  }

  /** A 600 x 300 artwork is drawn 200 x 100. */
  lemma FittedSizeExample()
    ensures FittedSize(600, 300) == Size(200, 100)
  {
    assert FitScale(600, 300) == 1.0 / 3.0;
    assert 600.0 * (1.0 / 3.0) == 200.0;
    assert 300.0 * (1.0 / 3.0) == 100.0;
  }

  // ---------------------------------------------------------------------------
  // Placement state

  datatype Point = Point(x: real, y: real)

  /** Everything the designer component keeps in state for the artwork layer. */
  datatype Placement = Placement(
    position: Point,
    scale: real,
    rotation: real,
    dragging: bool,
    dragStart: Point,
    baseSize: Size)

  /** The transform drawn on the surface. */
  datatype Transform = Transform(position: Point, scale: real, rotation: real)

  function TransformOf(s: Placement): Transform {
    Transform(s.position, s.scale, s.rotation)
  }

  const HomePosition: Point := Point(125.0, 200.0)

  /** The component's initial state. */
  const Initial: Placement :=
    Placement(HomePosition, 1.0, 0.0, false, Point(0.0, 0.0), Size(150, 150))

  /** Width and height of the artwork on the surface: stored fitted size times scale. */
  function ScaledWidth(s: Placement): real { s.baseSize.width as real * s.scale }
  function ScaledHeight(s: Placement): real { s.baseSize.height as real * s.scale }

  /** The hit-test: the closed unrotated rectangle [x, x + W*scale] x [y, y + H*scale]. */
  predicate Hits(s: Placement, q: Point) {
    s.position.x <= q.x <= s.position.x + ScaledWidth(s) &&
    s.position.y <= q.y <= s.position.y + ScaledHeight(s)
  }

  /** Mouse-down and touch-start: a hit starts a drag and records pointer minus position. */
  function PointerDown(s: Placement, hasDesign: bool, q: Point): Placement {
    if hasDesign && Hits(s, q) then
      s.(dragging := true, dragStart := Point(q.x - s.position.x, q.y - s.position.y))
    else s
  }

  /** `Math.max(0, Math.min(v, hi))`. */
  function Clamp(v: real, hi: real): real {
    MaxR(0.0, MinR(v, hi))
  }

  /** Mouse-move and touch-move: pointer minus drag offset, clamped per axis to the surface. */
  function PointerMove(s: Placement, hasDesign: bool, q: Point): Placement {
    if s.dragging && hasDesign then
      s.(position := Point(Clamp(q.x - s.dragStart.x, SurfaceWidth - ScaledWidth(s)),
                           Clamp(q.y - s.dragStart.y, SurfaceHeight - ScaledHeight(s))))
    else s
  }

  /** Mouse-up, mouse-leave and touch-end. */
  function PointerUp(s: Placement): Placement {
    s.(dragging := false)
  }

  /** The "-" button. */
  function ScaleDown(s: Placement): Placement {
    s.(scale := MaxR(MinScale, s.scale - ScaleStep))
  }

  /** The "+" button. */
  function ScaleUp(s: Placement): Placement {
    s.(scale := MinR(MaxScale, s.scale + ScaleStep))
  }

  /** The counter-clockwise button. */
  function RotateCounterClockwise(s: Placement): Placement {
    s.(rotation := s.rotation - RotationStep)
  }

  /** The clockwise button. */
  function RotateClockwise(s: Placement): Placement {
    s.(rotation := s.rotation + RotationStep)
  }

  /** `resetPosition`. */
  function Reset(s: Placement): Placement {
    s.(position := HomePosition, scale := 1.0, rotation := 0.0)
  }

  /** The draw effect stores a freshly fitted size only when it differs from the stored one. */
  function StoreFittedSize(s: Placement, fitted: Size): Placement {
    if fitted.width != s.baseSize.width || fitted.height != s.baseSize.height then
      s.(baseSize := fitted)
    else s
  }

  /** Every input the designer reacts to. */
  datatype Event =
    | Down(hasDesign: bool, at: Point)
    | Move(hasDesign: bool, at: Point)
    | Up
    | Smaller
    | Larger
    | TurnLeft
    | TurnRight
    | ResetButton
    | ArtworkLoaded(nativeWidth: nat, nativeHeight: nat)

  function Apply(s: Placement, e: Event): Placement {
    match e
    case Down(d, q) => PointerDown(s, d, q)
    case Move(d, q) => PointerMove(s, d, q)
    case Up => PointerUp(s)
    case Smaller => ScaleDown(s)
    case Larger => ScaleUp(s)
    case TurnLeft => RotateCounterClockwise(s)
    case TurnRight => RotateClockwise(s)
    case ResetButton => Reset(s)
    case ArtworkLoaded(w, h) => StoreFittedSize(s, FittedSize(w, h))
  }

  function Run(s: Placement, es: seq<Event>): Placement
    decreases |es|
  {
    if es == [] then s else Run(Apply(s, es[0]), es[1..])
  }

  // ---------------------------------------------------------------------------
  // Properties of the placement state

  /** Storing the fitted size leaves it stored; doing it again changes nothing. */
  lemma StoreFittedSizeIdempotent(s: Placement, fitted: Size)
    ensures StoreFittedSize(s, fitted).baseSize == fitted
    ensures StoreFittedSize(StoreFittedSize(s, fitted), fitted) == StoreFittedSize(s, fitted)
    ensures TransformOf(StoreFittedSize(s, fitted)) == TransformOf(s)
  {
  }

  /**
   * A drag starts exactly when a design is shown and the pointer is in the unrotated
   * rectangle; the offset recorded is pointer minus position and nothing else changes.
   */
  lemma PointerDownStartsDrag(s: Placement, hasDesign: bool, q: Point)
    ensures var r := PointerDown(s, hasDesign, q);
      r.dragStart != s.dragStart || r.dragging != s.dragging ==> hasDesign && Hits(s, q)
    ensures hasDesign && Hits(s, q) ==>
      PointerDown(s, hasDesign, q).dragging &&
      PointerDown(s, hasDesign, q).dragStart == Point(q.x - s.position.x, q.y - s.position.y)
    ensures TransformOf(PointerDown(s, hasDesign, q)) == TransformOf(s)
    ensures PointerDown(s, hasDesign, q).baseSize == s.baseSize
  {
  }

  /** The hit-test does not depend on the rotation. */
  lemma HitIgnoresRotation(s: Placement, q: Point, angle: real)
    ensures Hits(s.(rotation := angle), q) == Hits(s, q)
  {
  }

  /** The clamp is never negative, stays under a non-negative bound, and is 0 under a negative one. */
  lemma ClampBounds(v: real, hi: real)
    ensures Clamp(v, hi) >= 0.0
    ensures hi >= 0.0 ==> Clamp(v, hi) <= hi
    ensures hi < 0.0 ==> Clamp(v, hi) == 0.0
    ensures 0.0 <= v <= hi ==> Clamp(v, hi) == v
  {
  }

  /** A move while dragging keeps the artwork's box within the surface on both axes. */
  lemma PointerMoveWithinSurface(s: Placement, hasDesign: bool, q: Point)
    requires s.dragging && hasDesign
    ensures var p := PointerMove(s, hasDesign, q).position;
      && p.x >= 0.0 && p.y >= 0.0
      && (SurfaceWidth - ScaledWidth(s) >= 0.0 ==> p.x <= SurfaceWidth - ScaledWidth(s))
      && (SurfaceWidth - ScaledWidth(s) < 0.0 ==> p.x == 0.0)
      && (SurfaceHeight - ScaledHeight(s) >= 0.0 ==> p.y <= SurfaceHeight - ScaledHeight(s))
      && (SurfaceHeight - ScaledHeight(s) < 0.0 ==> p.y == 0.0)
  {
    ClampBounds(q.x - s.dragStart.x, SurfaceWidth - ScaledWidth(s));
    ClampBounds(q.y - s.dragStart.y, SurfaceHeight - ScaledHeight(s));
  }

  /** Repeating a move with the same pointer changes nothing more. */
  lemma PointerMoveIdempotent(s: Placement, hasDesign: bool, q: Point)
    ensures PointerMove(PointerMove(s, hasDesign, q), hasDesign, q) == PointerMove(s, hasDesign, q)
  {
  }

  /** A move does nothing unless a drag is on and a design is shown; a move changes only the position. */
  lemma PointerMoveOnlyWhileDragging(s: Placement, hasDesign: bool, q: Point)
    ensures !(s.dragging && hasDesign) ==> PointerMove(s, hasDesign, q) == s
    ensures PointerMove(s, hasDesign, q) == s.(position := PointerMove(s, hasDesign, q).position)
  {
  }

  /** Releasing always ends the drag and touches nothing else. */
  lemma PointerUpEndsDrag(s: Placement)
    ensures !PointerUp(s).dragging
    ensures PointerUp(s).(dragging := s.dragging) == s
  {
  }

  /** The artwork's box lies in the surface, as far as the clamp can place it. */
  predicate WithinSurface(s: Placement) {
    && 0.0 <= s.position.x && (s.position.x <= SurfaceWidth - ScaledWidth(s) || s.position.x == 0.0)
    && 0.0 <= s.position.y && (s.position.y <= SurfaceHeight - ScaledHeight(s) || s.position.y == 0.0)
  }

  /** Grabbing the artwork does not make it jump: a move to the grab point leaves it in place. */
  lemma GrabDoesNotSnap(s: Placement, q: Point)
    requires Hits(s, q) && WithinSurface(s)
    ensures PointerMove(PointerDown(s, true, q), true, q).position == s.position
  {
    var g := PointerDown(s, true, q);
    assert q.x - g.dragStart.x == s.position.x;
    assert q.y - g.dragStart.y == s.position.y;
  }

  /** The scale buttons saturate at 0.5 and 2 and never move the artwork. */
  lemma ScaleButtonsStayInRange(s: Placement)
    requires MinScale <= s.scale <= MaxScale
    ensures MinScale <= ScaleDown(s).scale <= s.scale
    ensures s.scale <= ScaleUp(s).scale <= MaxScale
    ensures ScaleDown(s).position == s.position && ScaleUp(s).position == s.position
    ensures ScaleDown(s).rotation == s.rotation && ScaleUp(s).rotation == s.rotation
  {
  }

  /** Repeated presses of "+" end at exactly 2, of "-" at exactly 0.5. */
  lemma ScaleSaturates(s: Placement)
    ensures s.scale >= MaxScale - ScaleStep ==> ScaleUp(s).scale == MaxScale
    ensures s.scale <= MinScale + ScaleStep ==> ScaleDown(s).scale == MinScale
  {
  }

  /** The rotation buttons add -15 and +15 degrees, with no bound and no normalisation. */
  lemma RotationIsAdditive(s: Placement)
    ensures RotateClockwise(s).rotation == s.rotation + 15.0
    ensures RotateCounterClockwise(s).rotation == s.rotation - 15.0
    ensures RotateCounterClockwise(RotateClockwise(s)) == s
  {
  }

  /** Four presses of the clockwise button from the initial state give 60 degrees. */
  lemma FourTurnsGiveSixty()
    ensures Run(Initial, [TurnRight, TurnRight, TurnRight, TurnRight]).rotation == 60.0
  {
    var t := [TurnRight, TurnRight, TurnRight, TurnRight];
    assert t == [TurnRight] + ([TurnRight] + ([TurnRight] + [TurnRight]));
  }

  /** Reset yields the initial transform whatever came before, and is idempotent. */
  lemma ResetRestoresInitial(s: Placement)
    ensures TransformOf(Reset(s)) == TransformOf(Initial)
    ensures Reset(Reset(s)) == Reset(s)
    ensures Reset(s).dragging == s.dragging && Reset(s).baseSize == s.baseSize
  {
  }

  /** Scale stays in [0.5, 2] along every sequence of inputs. */
  lemma {:induction false} RunKeepsScale(s: Placement, es: seq<Event>)
    requires MinScale <= s.scale <= MaxScale
    ensures MinScale <= Run(s, es).scale <= MaxScale
    decreases |es|
  {
    if es != [] {
      var t := Apply(s, es[0]);
      assert MinScale <= t.scale <= MaxScale;
      RunKeepsScale(t, es[1..]);
    }
  }

  /** The "-" button only shrinks the artwork, so a box within the surface stays within it. */
  lemma ScaleDownKeepsWithin(s: Placement)
    requires WithinSurface(s) && MinScale <= s.scale
    requires s.baseSize.width >= 0 && s.baseSize.height >= 0
    ensures WithinSurface(ScaleDown(s))
  {
    var t := ScaleDown(s);
    assert t.scale <= s.scale;
    assert ScaledWidth(t) <= ScaledWidth(s) by {
      MulMonotone(s.baseSize.width as real, t.scale, s.scale);
    }
    assert ScaledHeight(t) <= ScaledHeight(s) by {
      MulMonotone(s.baseSize.height as real, t.scale, s.scale);
    }
  }

  /** Inputs that never enlarge the artwork: everything except "+" and a newly loaded artwork. */
  predicate NeverGrows(e: Event) {
    !e.Larger? && !e.ArtworkLoaded?
  }

  /**
   * As long as the artwork is never enlarged, dragging, releasing, "-", rotating and
   * resetting keep the artwork's box within the surface.
   */
  lemma {:induction false} RunKeepsWithinSurface(s: Placement, es: seq<Event>)
    requires WithinSurface(s)
    requires 1 <= s.baseSize.width <= MaxBox && 1 <= s.baseSize.height <= MaxBox
    requires MinScale <= s.scale <= MaxScale
    requires forall i :: 0 <= i < |es| ==> NeverGrows(es[i])
    ensures WithinSurface(Run(s, es))
    decreases |es|
  {
    if es != [] {
      var t := Apply(s, es[0]);
      match es[0] {
        case Move(d, q) =>
          if s.dragging && d {
            PointerMoveWithinSurface(s, d, q);
          }
        case Smaller =>
          ScaleDownKeepsWithin(s);
        case ResetButton =>
          assert ScaledWidth(t) == s.baseSize.width as real;
          assert ScaledHeight(t) == s.baseSize.height as real;
        case _ =>
      }
      assert WithinSurface(t);
      RunKeepsWithinSurface(t, es[1..]);
    }
  }

  /** From the initial placement, any run of inputs that never enlarge the artwork keeps it on the surface. */
  lemma InitialRunsStayOnSurface(es: seq<Event>)
    requires forall i :: 0 <= i < |es| ==> NeverGrows(es[i])
    ensures WithinSurface(Run(Initial, es))
  {
    RunKeepsWithinSurface(Initial, es);
  }

  /**
   * The scale buttons do not re-clamp the position: an artwork flush with the right edge
   * sticks out of the surface after one press of "+".
   */
  lemma ScaleUpCanLeaveSurface()
    ensures var s := Initial.(position := Point(250.0, 0.0));
      WithinSurface(s) && !WithinSurface(ScaleUp(s))
  {
  }

  /** Uploading a 600 x 300 artwork and dragging it to (50, 50) at scale 1 keeps it in [0, 200] x [0, 400]. */
  lemma DragScenario(grabOffset: Point)
    ensures var s := Run(Initial, [ArtworkLoaded(600, 300)]).(dragging := true, dragStart := grabOffset);
      var p := PointerMove(s, true, Point(50.0 + grabOffset.x, 50.0 + grabOffset.y)).position;
      p == Point(50.0, 50.0) && 0.0 <= p.x <= 200.0 && 0.0 <= p.y <= 400.0
  {
    FittedSizeExample();
  }

  // ---------------------------------------------------------------------------
  // The component's state as updated by its handlers

  class Designer {
    var position: Point
    var scale: real
    var rotation: real
    var dragging: bool
    var dragStart: Point
    var baseSize: Size

    function State(): Placement
      reads this
    {
      Placement(position, scale, rotation, dragging, dragStart, baseSize)
    }

    constructor ()
      ensures State() == Initial
    {
      position := Point(125.0, 200.0);
      scale := 1.0;
      rotation := 0.0;
      dragging := false;
      dragStart := Point(0.0, 0.0);
      baseSize := Size(150, 150);
    }

    /** The part of the draw effect that records the fitted size of a loaded artwork. */
    method ArtworkLoaded(nativeWidth: nat, nativeHeight: nat)
      modifies this
      ensures State() == StoreFittedSize(old(State()), FittedSize(nativeWidth, nativeHeight))
    {
      var fitScale := FitScale(nativeWidth, nativeHeight);
      var fittedWidth := FittedSide(nativeWidth, fitScale);
      var fittedHeight := FittedSide(nativeHeight, fitScale);
      if fittedWidth != baseSize.width || fittedHeight != baseSize.height {
        baseSize := Size(fittedWidth, fittedHeight);
      }
    }

    /**
     * `handleMouseDown`. The pointer is its CSS-pixel offset from the canvas corner, used
     * unscaled as surface coordinates, as the source does.
     */
    method MouseDown(hasDesign: bool, at: Point)
      modifies this
      ensures State() == PointerDown(old(State()), hasDesign, at)
    {
      if !hasDesign {
        return;
      }
      var right := position.x + baseSize.width as real * scale;
      var bottom := position.y + baseSize.height as real * scale;
      if at.x >= position.x && at.x <= right && at.y >= position.y && at.y <= bottom {
        dragging := true;
        dragStart := Point(at.x - position.x, at.y - position.y);
      }
    }

    /** `handleTouchStart`: the first touch point, if any, is handled as a mouse-down. */
    method TouchStart(hasDesign: bool, touch: Option<Point>)
      modifies this
      ensures State() == if touch.Some? then PointerDown(old(State()), hasDesign, touch.value) else old(State())
    {
      if !hasDesign || touch.None? {
        return;
      }
      MouseDown(hasDesign, touch.value);
    }

    /** `handleMouseMove`. */
    method MouseMove(hasDesign: bool, at: Point)
      modifies this
      ensures State() == PointerMove(old(State()), hasDesign, at)
    {
      if !dragging || !hasDesign {
        return;
      }
      var x := at.x - dragStart.x;
      var y := at.y - dragStart.y;
      var maxX := SurfaceWidth - baseSize.width as real * scale;
      var maxY := SurfaceHeight - baseSize.height as real * scale;
      position := Point(MaxR(0.0, MinR(x, maxX)), MaxR(0.0, MinR(y, maxY)));
    }

    /** `handleTouchMove`. */
    method TouchMove(hasDesign: bool, touch: Option<Point>)
      modifies this
      ensures State() == if touch.Some? then PointerMove(old(State()), hasDesign, touch.value) else old(State())
    {
      if !dragging || !hasDesign || touch.None? {
        return;
      }
      MouseMove(hasDesign, touch.value);
    }

    /** `handleMouseUp` (also bound to mouse-leave) and `handleTouchEnd`. */
    method Release()
      modifies this
      ensures State() == PointerUp(old(State()))
    {
      dragging := false;
    }

    method ScaleDownPressed()
      modifies this
      ensures State() == ScaleDown(old(State()))
    {
      scale := MaxR(0.5, scale - 0.1);
    }

    method ScaleUpPressed()
      modifies this
      ensures State() == ScaleUp(old(State()))
    {
      scale := MinR(2.0, scale + 0.1);
    }

    method RotateCounterClockwisePressed()
      modifies this
      ensures State() == RotateCounterClockwise(old(State()))
    {
      rotation := rotation - 15.0;
    }

    method RotateClockwisePressed()
      modifies this
      ensures State() == RotateClockwise(old(State()))
    {
      rotation := rotation + 15.0;
    }

    /** `resetPosition`. */
    method ResetPosition()
      modifies this
      ensures State() == Reset(old(State()))
    {
      position := Point(125.0, 200.0);
      scale := 1.0;
      rotation := 0.0;
    }
  }
}
