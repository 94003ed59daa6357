/** The image carousel the detail views share (PropertyDetails.tsx,
    JobDetails.tsx): the list of shown images, the cyclic next and previous
    index, and the decision a horizontal swipe makes. */
module Carousel {
  import opened Basics

  /** `images?.filter(img => img) || []`: the non-empty entries, in order
      and with every repetition kept (a missing entry is the empty string
      here). */
  function AllImages(images: seq<string>): (r: seq<string>)
    ensures IsSubsequence(r, images)
    ensures forall x :: x in r <==> x in images && x != ""
    ensures forall x :: multiset(r)[x] == (if x != "" then multiset(images)[x] else 0)
  {
    if images == [] then []
    else
      assert images == [images[0]] + images[1..];
      if images[0] != "" then [images[0]] + AllImages(images[1..])
      else AllImages(images[1..])
  }

  /** A list without empty entries is shown whole, so the gallery counts
      every image, repeated ones included. */
  lemma {:induction false} AllImagesKeepsFullList(images: seq<string>)
    requires forall i :: 0 <= i < |images| ==> images[i] != ""
    ensures AllImages(images) == images
  {
    if images != [] {
      AllImagesKeepsFullList(images[1..]);
      assert images == [images[0]] + images[1..];
    }
  }

  /** `nextImage` on an index into `n` images: one on, from the last back to
      the first; nothing happens with fewer than two images. */
  function NextIndex(i: int, n: int): int
  {
    if n > 1 then (if i < n - 1 then i + 1 else 0) else i
  }

  /** `prevImage`: one back, from the first to the last; nothing happens
      with fewer than two images. */
  function PrevIndex(i: int, n: int): int
  {
    if n > 1 then (if i > 0 then i - 1 else n - 1) else i
  }

  /** The index the gallery shows is in range, or 0 when there is no image. */
  predicate InRange(i: int, n: int)
  {
    0 <= i && (i < n || i == 0)
  }

  /** Both moves keep the index in range. */
  lemma MovesStayInRange(i: int, n: int)
    requires InRange(i, n)
    ensures InRange(NextIndex(i, n), n) && InRange(PrevIndex(i, n), n)
    ensures n > 0 ==> 0 <= NextIndex(i, n) < n && 0 <= PrevIndex(i, n) < n
  {
  }

  /** With more than one image each move undoes the other. */
  lemma PrevUndoesNext(i: int, n: int)
    requires n > 1 && 0 <= i < n
    ensures PrevIndex(NextIndex(i, n), n) == i
    ensures NextIndex(PrevIndex(i, n), n) == i
  {
  }

  /** With zero or one image neither move changes the index. */
  lemma FewImagesDoNotMove(i: int, n: int)
    requires n <= 1
    ensures NextIndex(i, n) == i && PrevIndex(i, n) == i
  {
  }

  /** `k` presses of `nextImage`. */
  function NextTimes(i: int, n: int, k: nat): int
    decreases k
  {
    if k == 0 then i else NextTimes(NextIndex(i, n), n, k - 1)
  }

  /** Pressing next `a + b` times is pressing it `a` times, then `b` times. */
  lemma {:induction false} NextTimesAdd(i: int, n: int, a: nat, b: nat)
    ensures NextTimes(i, n, a + b) == NextTimes(NextTimes(i, n, a), n, b)
    decreases a
  {
    if a > 0 {
      NextTimesAdd(NextIndex(i, n), n, a - 1, b);
    }
  }

  /** Before reaching the last image, `k` presses move `k` places on. */
  lemma {:induction false} NextTimesWalks(i: int, n: int, k: nat)
    requires n > 1 && 0 <= i && i + k < n
    ensures NextTimes(i, n, k) == i + k
    decreases k
  {
    if k > 0 {
      NextTimesWalks(i + 1, n, k - 1);
    }
  }

  /** `n` presses of next bring the gallery back to the image it started on. */
  lemma NextCycles(i: int, n: int)
    requires 0 <= i < n
    ensures NextTimes(i, n, n) == i
  {
    if n > 1 {
      var toLast := n - 1 - i;
      NextTimesWalks(i, n, toLast);
      NextTimesAdd(i, n, toLast, 1);
      assert NextTimes(i, n, toLast + 1) == 0;
      NextTimesWalks(0, n, i);
      NextTimesAdd(i, n, toLast + 1, i);
    }
  }

  // ---------------------------------------------------------------- swipes

  /** `minSwipeDistance`. */
  const MinSwipeDistance := 50

  datatype Swipe = NoSwipe | SwipePrev | SwipeNext

  /** `onTouchEnd`: a missing (or zero) start or end position does nothing;
      otherwise a move of more than 50 pixels to the left shows the
      previous image and one of more than 50 to the right the next. */
  function SwipeDecision(start: Option<int>, end: Option<int>): (r: Swipe)
    ensures start.None? || end.None? || start == Some(0) || end == Some(0) ==> r == NoSwipe
    ensures r == SwipePrev <==> start.Some? && end.Some? && start.value != 0 && end.value != 0
                                && start.value - end.value > MinSwipeDistance
    ensures r == SwipeNext <==> start.Some? && end.Some? && start.value != 0 && end.value != 0
                                && start.value - end.value < -MinSwipeDistance
  {
    if start.None? || end.None? || start.value == 0 || end.value == 0 then NoSwipe
    else
      var distance := start.value - end.value;
      if distance > MinSwipeDistance then SwipePrev
      else if distance < -MinSwipeDistance then SwipeNext
      else NoSwipe
  }

  /** Swiping the same way back takes the opposite decision. */
  lemma SwipeReversed(a: int, b: int)
    ensures SwipeDecision(Some(a), Some(b)) == SwipePrev <==> SwipeDecision(Some(b), Some(a)) == SwipeNext
    ensures SwipeDecision(Some(a), Some(b)) == NoSwipe <==> SwipeDecision(Some(b), Some(a)) == NoSwipe
  {
  }

  /** A move of at most 50 pixels either way does nothing. */
  lemma ShortSwipeIgnored(a: int, b: int)
    requires -MinSwipeDistance <= a - b <= MinSwipeDistance
    ensures SwipeDecision(Some(a), Some(b)) == NoSwipe
  {
  }

  /** The index a swipe leaves the gallery on. */
  function AfterSwipe(i: int, n: int, s: Swipe): int
  {
    match s
    case NoSwipe => i
    case SwipePrev => PrevIndex(i, n)
    case SwipeNext => NextIndex(i, n)
  }
}
