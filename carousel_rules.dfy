/**
 * The pure decision rules of the carousel (src/components/Carousel/Carousel.tsx): cyclic
 * next/previous arithmetic, the touch-swipe rules, keyboard and pointer-zone mapping, the swipe
 * preview and the navigation dots. The component state that uses them is in CarouselComponent.
 */
module CarouselRules {
  import opened Wrappers
  import opened Decimal
  import opened Catalog
  import opened Counting

  /** A touch position in client coordinates (pixels; the browser reports them as doubles). */
  datatype Point = Point(x: real, y: real)

  /** A horizontal side: a swipe direction, a pointer zone of the viewport, a cursor arrow. */
  datatype Side = Left | Right

  /** A keyboard key as `KeyboardEvent.key` names it. */
  datatype Key = ArrowLeft | ArrowRight | OtherKey(name: string)

  /** `Math.abs`. */
  function Abs(r: real): (a: real)
    ensures a >= 0.0 && (a == r || a == -r)
  {
    if r < 0.0 then -r else r
  }

  // ---------------------------------------------------------------- cyclic index arithmetic

  /** `goToNext`: the index after `i` among `n` projects, wrapping from the last to the first. */
  function Next(i: nat, n: nat): (r: nat)
    requires n >= 1
    ensures r < n
    ensures i + 1 < n ==> r == i + 1
    ensures i + 1 == n ==> r == 0
  {
    (i + 1) % n
  }

  /**
   * `goToPrev`: the index before `i`, wrapping from the first to the last. The source computes
   * `(i - 1 + n) % n`; the dividend is never negative for `i >= 0`, so Dafny's Euclidean `%`
   * agrees with JavaScript's truncating one here.
   */
  function Prev(i: nat, n: nat): (r: nat)
    requires n >= 1
    ensures r < n
    ensures 1 <= i <= n ==> r == i - 1
    ensures i == 0 ==> r == n - 1
  {
    (i - 1 + n) % n
  }

  /** goToPrev undoes goToNext. */
  lemma PrevAfterNext(i: nat, n: nat)
    requires i < n
    ensures Prev(Next(i, n), n) == i
  {
  }

  /** goToNext undoes goToPrev. */
  lemma NextAfterPrev(i: nat, n: nat)
    requires i < n
    ensures Next(Prev(i, n), n) == i
  {
  }

  /** With a single project both moves stay where they are. */
  lemma SingleProjectIsFixed(i: nat)
    requires i < 1
    ensures Next(i, 1) == i && Prev(i, 1) == i
  {
  }

  /** The index reached by `k` successive goToNext calls from `i`. */
  function Advance(i: nat, n: nat, k: nat): (r: nat)
    requires n >= 1
    ensures r < n || (k == 0 && r == i)
    decreases k
  {
    if k == 0 then i else Next(Advance(i, n, k - 1), n)
  }

  /** Up to `n` steps, advancing shifts the index by the step count, wrapping once. */
  lemma {:induction false} AdvanceShifts(i: nat, n: nat, k: nat)
    requires i < n && k <= n
    ensures Advance(i, n, k) == if i + k < n then i + k else i + k - n
    decreases k
  {
    if k > 0 {
      AdvanceShifts(i, n, k - 1);
    }
  }

  /** `n` successive goToNext calls return to the starting project. */
  lemma AdvanceFullCycle(i: nat, n: nat)
    requires i < n
    ensures Advance(i, n, n) == i
  {
    AdvanceShifts(i, n, n);
  }

  // ---------------------------------------------------------------- touch swiping

  /** Horizontal movement (pixels) a touch move must exceed to update the swipe. */
  const MoveThreshold: real := 10.0

  /** Horizontal movement (pixels) a released swipe must exceed to navigate. */
  const SwipeThreshold: real := 50.0

  /** The move from `a` to `b` is horizontal-dominant and longer than `threshold` (both strict). */
  predicate HorizontalBeyond(a: Point, b: Point, threshold: real)
  {
    Abs(b.x - a.x) > Abs(b.y - a.y) && Abs(b.x - a.x) > threshold
  }

  /** The direction the swipe preview takes for a move from `a` to `b`. */
  function DirectionOf(a: Point, b: Point): (d: Side)
    ensures d == Left <==> b.x < a.x
  {
    if b.x - a.x < 0.0 then Left else Right
  }

  /** The touch move from `start` to `t` updates the stored end point and the preview. */
  predicate MoveQualifies(start: Point, t: Point)
  {
    HorizontalBeyond(start, t, MoveThreshold)
  }

  /**
   * The index a touch release asks for, from the stored start and end points,
   * or None when the release leaves the index alone.
   */
  function ReleaseTarget(start: Option<Point>, end: Option<Point>, i: nat, n: nat): (r: Option<nat>)
    requires i < n
    ensures r.Some? <==> start.Some? && end.Some? && HorizontalBeyond(start.value, end.value, SwipeThreshold)
    ensures r.Some? && end.value.x < start.value.x ==> r.value < n && Prev(r.value, n) == i
    ensures r.Some? && end.value.x > start.value.x ==> r.value < n && Next(r.value, n) == i
  {
    if start.None? || end.None? then None
    else if HorizontalBeyond(start.value, end.value, SwipeThreshold) then
      Some(if end.value.x - start.value.x < 0.0 then Next(i, n) else Prev(i, n))
    else None
  }

  /** The index whose image the swipe preview shows while swiping in direction `d`. */
  function PreviewIndex(d: Side, i: nat, n: nat): (r: nat)
    requires i < n
    ensures r < n
    ensures d == Left ==> Prev(r, n) == i
    ensures d == Right ==> Next(r, n) == i
  {
    if d == Left then Next(i, n) else Prev(i, n)
  }

  /** A release that navigates also passed the move rule, so its end point was stored by a move. */
  lemma CommitImpliesMove(a: Point, b: Point)
    requires HorizontalBeyond(a, b, SwipeThreshold)
    ensures MoveQualifies(a, b)
  {
  }

  /**
   * The preview a qualifying move shows is the project a release at the same point selects:
   * "left" previews and commits to the next project, "right" to the previous one.
   */
  lemma PreviewMatchesCommit(a: Point, b: Point, i: nat, n: nat)
    requires i < n && HorizontalBeyond(a, b, SwipeThreshold)
    ensures ReleaseTarget(Some(a), Some(b), i, n) == Some(PreviewIndex(DirectionOf(a, b), i, n))
  {
  }

  /** The release threshold is strict: a purely horizontal swipe of exactly 50 pixels does nothing. */
  lemma ExactThresholdDoesNotCommit(i: nat, n: nat)
    requires i < n
    ensures ReleaseTarget(Some(Point(100.0, 0.0)), Some(Point(50.0, 0.0)), i, n) == None
    ensures ReleaseTarget(Some(Point(100.0, 0.0)), Some(Point(49.5, 0.0)), i, n) == Some(Next(i, n))
  {
  }

  /** What the swipe preview layer draws: an image source and its alt text. */
  datatype PreviewLayer = PreviewLayer(image: string, alt: string)

  /**
   * The preview layer for swiping in direction `d` while `projects[i]` is shown. The source
   * falls back to the shown project's image or title when the neighbour's is the empty string
   * (the `?.image || project.image` expression).
   */
  function Preview(projects: seq<ProjectRecord>, i: nat, d: Side): (r: PreviewLayer)
    requires i < |projects|
    ensures var q := projects[PreviewIndex(d, i, |projects|)];
      && (q.image != "" ==> r.image == q.image)
      && (q.image == "" ==> r.image == projects[i].image)
      && (q.title != "" ==> r.alt == q.title)
      && (q.title == "" ==> r.alt == projects[i].title)
  {
    var q := projects[PreviewIndex(d, i, |projects|)];
    PreviewLayer(if q.image != "" then q.image else projects[i].image,
                 if q.title != "" then q.title else projects[i].title)
  }

  // ---------------------------------------------------------------- keyboard and pointer zones

  /** The index a key press on the window asks for: the arrow keys navigate, other keys do nothing. */
  function KeyTarget(key: Key, i: nat, n: nat): (r: Option<nat>)
    requires i < n
    ensures key == ArrowLeft ==> r.Some? && r.value < n && Next(r.value, n) == i
    ensures key == ArrowRight ==> r.Some? && r.value < n && Prev(r.value, n) == i
    ensures key.OtherKey? ==> r == None
  {
    match key
    case ArrowLeft => Some(Prev(i, n))
    case ArrowRight => Some(Next(i, n))
    case OtherKey(_) => None
  }

  /**
   * The index a click on a side zone asks for (the middle half of the viewport takes no clicks):
   * the left quarter goes back, the right quarter forward, unless the click landed inside a button.
   */
  function ZoneClickTarget(zone: Side, insideButton: bool, i: nat, n: nat): (r: Option<nat>)
    requires i < n
    ensures r.Some? <==> !insideButton
    ensures r.Some? && zone == Left ==> r.value < n && Next(r.value, n) == i
    ensures r.Some? && zone == Right ==> r.value < n && Prev(r.value, n) == i
  {
    if insideButton then None else if zone == Left then Some(Prev(i, n)) else Some(Next(i, n))
  }

  // ---------------------------------------------------------------- navigation dots

  /** One navigation dot as rendered. */
  datatype Dot = Dot(active: bool, loaded: bool, disabled: bool, ariaLabel: string)

  /** The dots under the carousel, one per project, for current index `i`. */
  function Dots(projects: seq<ProjectRecord>, i: nat, imagesLoaded: set<string>, allPreloaded: bool): (r: seq<Dot>)
    ensures |r| == |projects|
    ensures forall k :: 0 <= k < |r| ==> (r[k].active <==> k == i)
    ensures forall k :: 0 <= k < |r| ==> (r[k].loaded <==> projects[k].image in imagesLoaded)
    ensures forall k :: 0 <= k < |r| ==>
      (r[k].disabled <==> projects[k].image !in imagesLoaded && !allPreloaded)
    ensures forall k :: 0 <= k < |r| ==> r[k].ariaLabel == "Go to project " + Dec(k + 1)
  {
    seq(|projects|, k requires 0 <= k < |projects| =>
      var loaded := projects[k].image in imagesLoaded;
      Dot(k == i, loaded, !loaded && !allPreloaded, "Go to project " + Dec(k + 1)))
  }

  /** The number of active dots. */
  function ActiveCount(dots: seq<Dot>): (c: nat)
    ensures c <= |dots|
  {
    CountTrue(seq(|dots|, k requires 0 <= k < |dots| => dots[k].active))
  }

  /** Exactly the dot of the current project is active when the index is in range. */
  lemma {:induction false} OneActiveDot(projects: seq<ProjectRecord>, i: nat, imagesLoaded: set<string>, allPreloaded: bool)
    requires i < |projects|
    ensures ActiveCount(Dots(projects, i, imagesLoaded, allPreloaded)) == 1
  {
    var dots := Dots(projects, i, imagesLoaded, allPreloaded);
    CountIsOneAt(seq(|dots|, k requires 0 <= k < |dots| => dots[k].active), i);
  }

  /** Once every preload attempt has resolved, no dot is disabled, even for images that failed. */
  lemma NoDotDisabledAfterPreload(projects: seq<ProjectRecord>, i: nat, imagesLoaded: set<string>)
    ensures forall k :: 0 <= k < |projects| ==> !Dots(projects, i, imagesLoaded, true)[k].disabled
  {
  }

  /** The index a click on dot `k` asks for: a disabled button takes no clicks. */
  function DotClickTarget(dots: seq<Dot>, k: nat): (r: Option<nat>)
    requires k < |dots|
    ensures r.Some? <==> !dots[k].disabled
    ensures r.Some? ==> r.value == k
  {
    if dots[k].disabled then None else Some(k)
  }

  // ---------------------------------------------------------------- preloading

  /** A preload round's attempts have all resolved: one per project, successful or not. */
  predicate AllAttempted(resolved: set<nat>, n: nat)
  {
    forall k :: 0 <= k < n ==> k in resolved
  }

  /** The image keys of the catalog. */
  function ImageKeys(projects: seq<ProjectRecord>): (keys: set<string>)
    ensures forall k :: 0 <= k < |projects| ==> projects[k].image in keys
    ensures forall key :: key in keys ==> exists k :: 0 <= k < |projects| && projects[k].image == key
  {
    set k | 0 <= k < |projects| :: projects[k].image
  }
}
