/**
 * The featured-products grid: on touch devices, the card nearest the viewport's centre
 * is chosen and marked active; hover, tilt and wishlist state are per-card arrays
 * updated one index at a time.
 */
module FeaturedProducts {
  import opened Wrappers

  /** A card's measured box: its top edge and height in viewport coordinates. */
  datatype Rect = Rect(top: real, height: real)

  function Bottom(r: Rect): real { r.top + r.height }

  function AbsR(x: real): real { if x < 0.0 then -x else x }

  /** At least partly on screen: `rect.bottom > 0 && rect.top < innerHeight`. */
  predicate Visible(r: Rect, viewportHeight: real) {
    Bottom(r) > 0.0 && r.top < viewportHeight
  }

  /** `Math.abs(cardCenter - viewportCenter)`. */
  function Distance(r: Rect, viewportHeight: real): real {
    AbsR(r.top + r.height / 2.0 - viewportHeight / 2.0)
  }

  /** Card `i` takes part in the choice: it is mounted and visible. */
  predicate Candidate(cards: seq<Option<Rect>>, i: int, viewportHeight: real) {
    0 <= i < |cards| && cards[i].Some? && Visible(cards[i].value, viewportHeight)
  }

  function DistanceOf(cards: seq<Option<Rect>>, i: int, viewportHeight: real): real
    requires 0 <= i < |cards| && cards[i].Some?
  {
    Distance(cards[i].value, viewportHeight)
  }

  /**
   * The first loop of `evaluateCenter`: the first visible card at the least distance from
   * the viewport's centre, or -1 when no card is visible.
   */
  method SelectCenter(cards: seq<Option<Rect>>, viewportHeight: real) returns (best: int)
    ensures best == -1 <==> forall i :: 0 <= i < |cards| ==> !Candidate(cards, i, viewportHeight)
    ensures best != -1 ==> Candidate(cards, best, viewportHeight)
    ensures best != -1 ==> forall j :: Candidate(cards, j, viewportHeight) ==>
      DistanceOf(cards, best, viewportHeight) <= DistanceOf(cards, j, viewportHeight)
    ensures best != -1 ==> forall j :: 0 <= j < best && Candidate(cards, j, viewportHeight) ==>
      DistanceOf(cards, best, viewportHeight) < DistanceOf(cards, j, viewportHeight)
  {
    best := -1;
    var bestDistance: real := 0.0;
    for i := 0 to |cards|
      invariant best == -1 <==> forall k :: 0 <= k < i ==> !Candidate(cards, k, viewportHeight)
      invariant best != -1 ==> best < i && Candidate(cards, best, viewportHeight)
      invariant best != -1 ==> bestDistance == DistanceOf(cards, best, viewportHeight)
      invariant best != -1 ==> forall j :: 0 <= j < i && Candidate(cards, j, viewportHeight) ==>
        bestDistance <= DistanceOf(cards, j, viewportHeight)
      invariant best != -1 ==> forall j :: 0 <= j < best && Candidate(cards, j, viewportHeight) ==>
        bestDistance < DistanceOf(cards, j, viewportHeight)
    {
      if cards[i].Some? {
        var rect := cards[i].value;
        var distance := Distance(rect, viewportHeight);
        if Visible(rect, viewportHeight) {
          if best == -1 || distance < bestDistance {
            bestDistance := distance;
            best := i;
          }
        }
      }
      assert Candidate(cards, i, viewportHeight) <==> cards[i].Some? && Visible(cards[i].value, viewportHeight);
    }
  }

  /** The one card that gets played: the chosen index when its video is mounted. */
  predicate ChosenPlays(videos: seq<bool>, best: int) {
    0 <= best < |videos| && videos[best]
  }

  /** The value of `mobileActive[j]` after the second loop of `evaluateCenter`. */
  function FocusAfter(active: seq<bool>, videos: seq<bool>, best: int, j: int): bool
    requires 0 <= j < |active|
  {
    if (j < |videos| && videos[j]) || ChosenPlays(videos, best) then j == best else active[j]
  }

  /**
   * The second loop of `evaluateCenter`: for each mounted video, the chosen one makes
   * `mobileActive` one-hot at its index and every other clears its own entry.
   */
  method ApplyFocus(active: seq<bool>, videos: seq<bool>, best: int) returns (r: seq<bool>)
    ensures |r| == |active|
    ensures forall j :: 0 <= j < |active| ==> r[j] == FocusAfter(active, videos, best, j)
  {
    r := active;
    for i := 0 to |videos|
      invariant |r| == |active|
      invariant forall j :: 0 <= j < |r| ==>
        r[j] == if (j < i && videos[j]) || (0 <= best < i && videos[best]) then j == best else active[j]
    {
      if videos[i] {
        if i == best {
          r := seq(|r|, idx => idx == i);
        } else {
          r := seq(|r|, idx requires 0 <= idx < |r| => if idx == i then false else r[idx]);
        }
      }
    }
  }

  /**
   * `evaluateCenter` as a whole. With every video mounted, the active flags are true at the
   * chosen card only, or all false when no card is visible.
   */
  method EvaluateCenter(cards: seq<Option<Rect>>, videos: seq<bool>, active: seq<bool>, viewportHeight: real)
    returns (best: int, r: seq<bool>)
    ensures best == -1 <==> forall i :: 0 <= i < |cards| ==> !Candidate(cards, i, viewportHeight)
    ensures best != -1 ==> Candidate(cards, best, viewportHeight)
    ensures best != -1 ==> forall j :: Candidate(cards, j, viewportHeight) ==>
      DistanceOf(cards, best, viewportHeight) <= DistanceOf(cards, j, viewportHeight)
    ensures best != -1 ==> forall j :: 0 <= j < best && Candidate(cards, j, viewportHeight) ==>
      DistanceOf(cards, best, viewportHeight) < DistanceOf(cards, j, viewportHeight)
    ensures |r| == |active|
    ensures |videos| == |active| && (forall i :: 0 <= i < |videos| ==> videos[i]) ==>
      forall j :: 0 <= j < |r| ==> r[j] == (j == best)
  {
    best := SelectCenter(cards, viewportHeight);
    r := ApplyFocus(active, videos, best);
  }

  // ---------------------------------------------------------------------------
  // Per-card state

  datatype Tilt = Tilt(rx: real, ry: real)

  datatype Cards = Cards(
    tilt: seq<Tilt>,
    hovered: seq<bool>,
    mobileActive: seq<bool>,
    wishlisted: seq<bool>)

  /** The component's initial state: one entry per product, all false or zero. */
  function InitialCards(n: nat): (c: Cards)
    ensures |c.tilt| == |c.hovered| == |c.mobileActive| == |c.wishlisted| == n
    ensures forall i :: 0 <= i < n ==>
      c.tilt[i] == Tilt(0.0, 0.0) && !c.hovered[i] && !c.mobileActive[i] && !c.wishlisted[i]
  {
    Cards(seq(n, _ => Tilt(0.0, 0.0)), seq(n, _ => false), seq(n, _ => false), seq(n, _ => false))
  }

  /** `prev.map((x, i) => i === index ? v : x)`: an index outside the array changes nothing. */
  function Replace<T>(s: seq<T>, index: int, v: T): (r: seq<T>)
    ensures |r| == |s|
    ensures forall i :: 0 <= i < |s| ==> r[i] == if i == index then v else s[i]
  {
    seq(|s|, i requires 0 <= i < |s| => if i == index then v else s[i])
  }

  /** `handleHoverPlay`. */
  function HoverPlay(c: Cards, index: int): Cards {
    c.(hovered := Replace(c.hovered, index, true))
  }

  /** `handleHoverPause`. */
  function HoverPause(c: Cards, index: int): Cards {
    c.(tilt := Replace(c.tilt, index, Tilt(0.0, 0.0)), hovered := Replace(c.hovered, index, false))
  }

  /** The tilt for a pointer at (x, y) inside a card of the given width and height. */
  function TiltFor(x: real, y: real, width: real, height: real): Tilt
    requires width > 0.0 && height > 0.0
  {
    var midX := width / 2.0;
    var midY := height / 2.0;
    Tilt(-((y - midY) / midY) * 6.0, ((x - midX) / midX) * 6.0)
  }

  /** `handleTilt`. */
  function TiltAt(c: Cards, index: int, x: real, y: real, width: real, height: real): Cards
    requires width > 0.0 && height > 0.0
  {
    c.(tilt := Replace(c.tilt, index, TiltFor(x, y, width, height)))
  }

  /** The wishlist button. */
  function Wishlist(c: Cards, index: int): Cards {
    c.(wishlisted := Replace(c.wishlisted, index, true))
  }

  /** Hovering sets only `hovered[index]`. */
  lemma HoverPlayEffect(c: Cards, index: int)
    ensures HoverPlay(c, index).(hovered := c.hovered) == c
    ensures 0 <= index < |c.hovered| ==> HoverPlay(c, index).hovered == c.hovered[index := true]
  {
  }

  /** Leaving clears only `hovered[index]` and levels only `tilt[index]`. */
  lemma HoverPauseEffect(c: Cards, index: int)
    ensures HoverPause(c, index).(hovered := c.hovered, tilt := c.tilt) == c
    ensures 0 <= index < |c.hovered| ==> HoverPause(c, index).hovered == c.hovered[index := false]
    ensures 0 <= index < |c.tilt| ==> HoverPause(c, index).tilt == c.tilt[index := Tilt(0.0, 0.0)]
  {
  }

  lemma RatioWithinOne(p: real, m: real)
    requires m > 0.0 && 0.0 <= p <= 2.0 * m
    ensures -1.0 <= (p - m) / m <= 1.0
  {
    var q := (p - m) / m;
    assert q * m == p - m;
  }

  /** A pointer inside the card tilts it by at most 6 degrees about each axis. */
  lemma TiltBounded(x: real, y: real, width: real, height: real)
    requires width > 0.0 && height > 0.0
    requires 0.0 <= x <= width && 0.0 <= y <= height
    ensures -6.0 <= TiltFor(x, y, width, height).rx <= 6.0
    ensures -6.0 <= TiltFor(x, y, width, height).ry <= 6.0
  {
    RatioWithinOne(x, width / 2.0);
    RatioWithinOne(y, height / 2.0);
  }

  /** Tilting changes only `tilt[index]`. */
  lemma TiltEffect(c: Cards, index: int, x: real, y: real, width: real, height: real)
    requires width > 0.0 && height > 0.0
    ensures TiltAt(c, index, x, y, width, height).(tilt := c.tilt) == c
    ensures forall i :: 0 <= i < |c.tilt| && i != index ==> TiltAt(c, index, x, y, width, height).tilt[i] == c.tilt[i]
  {
  }

  /** The wishlist button sets its own entry, is idempotent, and never clears an entry. */
  lemma WishlistEffect(c: Cards, index: int)
    ensures 0 <= index < |c.wishlisted| ==> Wishlist(c, index).wishlisted[index]
    ensures Wishlist(Wishlist(c, index), index) == Wishlist(c, index)
    ensures forall i :: 0 <= i < |c.wishlisted| && c.wishlisted[i] ==> Wishlist(c, index).wishlisted[i]
    ensures Wishlist(c, index).(wishlisted := c.wishlisted) == c
  {
  }

  /** Every per-card input. */
  datatype CardEvent =
    | Enter(index: int)
    | Leave(index: int)
    | Pointer(index: int, x: real, y: real, width: real, height: real)
    | Heart(index: int)

  function ApplyCard(c: Cards, e: CardEvent): Cards {
    match e
    case Enter(i) => HoverPlay(c, i)
    case Leave(i) => HoverPause(c, i)
    case Pointer(i, x, y, w, h) => if w > 0.0 && h > 0.0 then TiltAt(c, i, x, y, w, h) else c
    case Heart(i) => Wishlist(c, i)
  }

  function RunCards(c: Cards, es: seq<CardEvent>): Cards
    decreases |es|
  {
    if es == [] then c else RunCards(ApplyCard(c, es[0]), es[1..])
  }

  /** No sequence of per-card inputs removes a card from the wishlist or changes an array's length. */
  lemma {:induction false} WishlistNeverCleared(c: Cards, es: seq<CardEvent>, i: nat)
    requires i < |c.wishlisted| && c.wishlisted[i]
    ensures |RunCards(c, es).wishlisted| == |c.wishlisted| && RunCards(c, es).wishlisted[i]
    ensures |RunCards(c, es).tilt| == |c.tilt| && |RunCards(c, es).hovered| == |c.hovered|
    decreases |es|
  {
    if es != [] {
      WishlistNeverCleared(ApplyCard(c, es[0]), es[1..], i);
    }
  }
}
