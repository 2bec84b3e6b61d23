/**
  * The hero-section slideshow: a ring of `n` slides with a current index that
  * the arrows, a seven-second timer and horizontal swipes move by one, and the
  * placement of every slide relative to the current one.
  */
module Carousel {
  import opened Seqs

  /** A swipe must travel more than this many pixels sideways. Touch coordinates are CSS pixels,
      which can be fractional, so they are `real`. */
  const SwipeThreshold: real := 40.0

  /** Below this window width only the current slide is visible. */
  const NarrowWidth: int := 500

  /** `(i + 1) % images.length`. */
  function Forward(i: int, n: nat): (r: int)
    requires n > 0
    ensures 0 <= r < n
    ensures 0 <= i < n - 1 ==> r == i + 1
    ensures i == n - 1 ==> r == 0
  {
    if 0 <= i < n - 1 then ModUnique(i + 1, n, 0, i + 1); (i + 1) % n
    else if i == n - 1 then ModUnique(i + 1, n, 1, 0); (i + 1) % n
    else (i + 1) % n
  }

  /** `(i - 1 + images.length) % images.length`. */
  function Backward(i: int, n: nat): (r: int)
    requires n > 0
    ensures 0 <= r < n
    ensures 0 < i < n ==> r == i - 1
    ensures i == 0 ==> r == n - 1
  {
    if 0 < i < n then ModUnique(i - 1 + n, n, 1, i - 1); (i - 1 + n) % n
    else if i == 0 then ModUnique(i - 1 + n, n, 0, n - 1); (i - 1 + n) % n
    else (i - 1 + n) % n
  }

  /** The arrows undo each other. */
  lemma ForwardBackwardInverse(i: int, n: nat)
    requires 0 <= i < n
    ensures Backward(Forward(i, n), n) == i
    ensures Forward(Backward(i, n), n) == i
  {
  }

  /** `k` steps forward from slide `i`. */
  function ForwardBy(i: int, k: nat, n: nat): (r: int)
    requires n > 0
    ensures 0 <= r < n
  {
    if k == 0 then i % n else Forward(ForwardBy(i, k - 1, n), n)
  }

  /** `k` ticks of the timer from slide `i` land on slide `(i + k) % n`: the slideshow visits every
      slide and comes back after `n` ticks. */
  lemma {:induction false} ForwardByIsModular(i: int, k: nat, n: nat)
    requires n > 0 && 0 <= i < n
    ensures ForwardBy(i, k, n) == (i + k) % n
  {
    if k == 0 {
      ModUnique(i, n, 0, i);
    } else {
      ForwardByIsModular(i, k - 1, n);
      ModStep(i + k - 1, n);
    }
  }

  /** One more step wraps the remainder around. */
  lemma ModStep(a: int, n: int)
    requires n > 0
    ensures (a + 1) % n == if a % n == n - 1 then 0 else a % n + 1
  {
    var q, r := a / n, a % n;
    assert a == q * n + r;
    if r < n - 1 {
      ModUnique(a + 1, n, q, r + 1);
    } else {
      assert (q + 1) * n == q * n + n;
      ModUnique(a + 1, n, q + 1, 0);
    }
  }

  /** `pos`: how many steps slide `i` lies ahead of the current slide. */
  function Pos(i: int, current: int, n: nat): (r: int)
    requires n > 0 && 0 <= i < n && 0 <= current < n
    ensures 0 <= r < n
    ensures r == 0 <==> i == current
    ensures r == 1 <==> i == Forward(current, n) && n > 1
    ensures r == n - 1 <==> i == Backward(current, n)
    ensures r == if i >= current then i - current else i - current + n
  {
    if i >= current then ModUnique(i - current + n, n, 1, i - current); (i - current + n) % n
    else ModUnique(i - current + n, n, 0, i - current + n); (i - current + n) % n
  }

  /** Two slides never share a position. */
  lemma PosInjective(i: int, j: int, current: int, n: nat)
    requires n > 0 && 0 <= i < n && 0 <= j < n && 0 <= current < n
    requires Pos(i, current, n) == Pos(j, current, n)
    ensures i == j
  {
  }

  /** Euclidean division is unique: a quotient and a remainder in range are `a / n` and `a % n`. */
  lemma ModUnique(a: int, n: int, q: int, r: int)
    requires n > 0 && 0 <= r < n && a == q * n + r
    ensures a / n == q && a % n == r
  {
    var q', r' := a / n, a % n;
    assert (q - q') * n == r' - r;
    if q - q' >= 1 {
      MulMono(1, q - q', n);
      assert false;
    } else if q' - q >= 1 {
      MulMono(1, q' - q, n);
      assert false;
    }
  }

  /** The style a slide gets. */
  datatype Placement = Front | Right | Left | Hidden

  /** The style chain: on a narrow window only the front slide shows; on a wide one the next slide
      sits to the right and the previous one to the left, with position 1 taken first. */
  function PlacementFor(pos: int, n: nat, narrow: bool): (r: Placement)
    ensures r == Front <==> pos == 0
    ensures narrow ==> r == Front || r == Hidden
    ensures !narrow ==> (r == Right <==> pos == 1)
    ensures !narrow ==> (r == Left <==> pos == n - 1 && pos != 0 && pos != 1)
  {
    if narrow then (if pos == 0 then Front else Hidden)
    else if pos == 0 then Front
    else if pos == 1 then Right
    else if pos == n - 1 then Left
    else Hidden
  }

  /** `ring-glow`: the front slide and its two neighbours. */
  predicate Glows(pos: int, n: nat) {
    pos == 0 || pos == 1 || pos == n - 1
  }

  /** On a wide window exactly the glowing slides are visible. */
  lemma GlowIffVisible(pos: int, n: nat)
    ensures Glows(pos, n) <==> PlacementFor(pos, n, false) != Hidden
  {
  }

  /** Exactly one slide is in front: the current one. */
  lemma OneFrontSlide(i: int, current: int, n: nat, narrow: bool)
    requires n > 0 && 0 <= i < n && 0 <= current < n
    ensures PlacementFor(Pos(i, current, n), n, narrow) == Front <==> i == current
  {
  }

  /** With three slides or more, the slide after the current one is on the right and the one before
      it on the left. */
  lemma NeighboursFlank(current: int, n: nat)
    requires n >= 3 && 0 <= current < n
    ensures PlacementFor(Pos(Forward(current, n), current, n), n, false) == Right
    ensures PlacementFor(Pos(Backward(current, n), current, n), n, false) == Left
  {
  }

  /** The indicator dots: white for the current slide. */
  function Indicators(current: int, n: nat): (r: seq<bool>)
    requires 0 <= current < n
    ensures |r| == n
    ensures r[current]
    ensures forall i, j :: 0 <= i < j < n && r[i] ==> !r[j]
  {
    seq(n, i => i == current)
  }

  /** What a touch gesture does. */
  datatype Swipe = NoSwipe | SwipeNext | SwipePrev

  function Abs(x: real): real {
    if x < 0.0 then -x else x
  }

  /** `handleTouchEnd`: nothing unless the finger moved; a mostly sideways move of more than 40
      pixels goes forward when it is leftward and back otherwise. */
  function SwipeOf(hasMoved: bool, dx: real, dy: real): (r: Swipe)
    ensures !hasMoved ==> r == NoSwipe
    ensures r == SwipeNext <==> hasMoved && dx < -SwipeThreshold && -dx > Abs(dy)
    ensures r == SwipePrev <==> hasMoved && dx > SwipeThreshold && dx > Abs(dy)
  {
    if !hasMoved then NoSwipe
    else if Abs(dx) > SwipeThreshold && Abs(dx) > Abs(dy) then (if dx < 0.0 then SwipeNext else SwipePrev)
    else NoSwipe
  }

  function Mirror(s: Swipe): Swipe {
    match s
    case NoSwipe => NoSwipe
    case SwipeNext => SwipePrev
    case SwipePrev => SwipeNext
  }

  /** A swipe and its mirror image move the slideshow in opposite directions. */
  lemma SwipeMirrored(dx: real, dy: real)
    ensures SwipeOf(true, -dx, dy) == Mirror(SwipeOf(true, dx, dy))
  {
  }

  /** The slide index after a gesture. */
  function AfterSwipe(s: Swipe, current: int, n: nat): (r: int)
    requires n > 0
  {
    match s
    case NoSwipe => current
    case SwipeNext => Forward(current, n)
    case SwipePrev => Backward(current, n)
  }

  /** A swipe followed by its mirror image returns to the same slide. */
  lemma MirroredSwipesCancel(s: Swipe, current: int, n: nat)
    requires 0 <= current < n
    ensures AfterSwipe(Mirror(s), AfterSwipe(s, current, n), n) == current
  {
    ForwardBackwardInverse(current, n);
  }

  /** The component's state: the current index and the three touch refs. */
  class Slideshow {
    const n: nat
    var currentIndex: int
    var touchStartX: real
    var touchStartY: real
    var hasMoved: bool

    predicate Valid()
      reads this
    {
      n > 0 && 0 <= currentIndex < n
    }

    /** The slideshow needs at least one slide: the caption reads `images[currentIndex]`. */
    constructor (n: nat)
      requires n > 0
      ensures this.n == n && currentIndex == 0 && touchStartX == 0.0 && touchStartY == 0.0 && !hasMoved
      ensures Valid()
    {
      this.n := n;
      currentIndex := 0;
      touchStartX := 0.0;
      touchStartY := 0.0;
      hasMoved := false;
    }

    /** `nextSlide`, also run by the timer every seven seconds. */
    method NextSlide()
      requires Valid()
      modifies this`currentIndex
      ensures currentIndex == Forward(old(currentIndex), n)
      ensures Valid()
    {
      currentIndex := (currentIndex + 1) % n;
    }

    /** `prevSlide`. */
    method PrevSlide()
      requires Valid()
      modifies this`currentIndex
      ensures currentIndex == Backward(old(currentIndex), n)
      ensures Valid()
    {
      currentIndex := (currentIndex - 1 + n) % n;
    }

    /** `handleTouchStart`: remembers where the finger went down. */
    method TouchStart(x: real, y: real)
      modifies this`touchStartX, this`touchStartY, this`hasMoved
      ensures touchStartX == x && touchStartY == y && !hasMoved
    {
      touchStartX := x;
      touchStartY := y;
      hasMoved := false;
    }

    /** `handleTouchMove`. */
    method TouchMove()
      modifies this`hasMoved
      ensures hasMoved
    {
      hasMoved := true;
    }

    /** `handleTouchEnd`, for a finger lifted at `(x, y)`. */
    method TouchEnd(x: real, y: real)
      requires Valid()
      modifies this`currentIndex
      ensures currentIndex == AfterSwipe(SwipeOf(hasMoved, x - touchStartX, y - touchStartY), old(currentIndex), n)
      ensures Valid()
    {
      if !hasMoved {
        return;
      }
      var dx := x - touchStartX;
      var dy := y - touchStartY;
      if Abs(dx) > SwipeThreshold && Abs(dx) > Abs(dy) {
        if dx < 0.0 {
          NextSlide();
        } else {
          PrevSlide();
        }
      }
    }
  }
}
