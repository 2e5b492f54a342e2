/** The photo carousel `ImageSlider`: a cyclic index over the images and a fullscreen flag. */
module Gallery {
  import opened Arithmetic

  /**
   * The updater that `paginate(newDirection)` hands to `setCurrentIndex`:
   * forward for direction 1, backward for anything else, wrapping at both ends.
   * On a valid index it is a step of arithmetic modulo the image count.
   */
  function Paginated(prev: int, count: int, newDirection: int): (r: int)
    ensures 0 <= prev < count ==> 0 <= r < count
    ensures 0 <= prev < count && newDirection == 1 ==> r == (prev + 1) % count
    ensures 0 <= prev < count && newDirection != 1 ==> r == (prev - 1) % count
  {
    if newDirection == 1 then
      if prev == count - 1 then 0 else prev + 1
    else
      if prev == 0 then count - 1 else prev - 1
  }

  /** Next then previous, or previous then next, returns to the same image. */
  lemma NextThenPrevious(i: int, count: int, d: int)
    requires 0 <= i < count && d != 1
    ensures Paginated(Paginated(i, count, 1), count, d) == i
    ensures Paginated(Paginated(i, count, d), count, 1) == i
  {
  }

  /** With a single image every step stays on it. */
  lemma SingleImage(d: int)
    ensures Paginated(0, 1, d) == 0
  {
  }

  /** The index after `k` presses of "next". */
  function Forward(i: int, count: int, k: nat): int {
    if k == 0 then i else Paginated(Forward(i, count, k - 1), count, 1)
  }

  /** One press of "next" on a reduced index reduces the successor. */
  lemma NextOfRemainder(a: int, count: int)
    requires count > 0
    ensures Paginated(a % count, count, 1) == (a + 1) % count
  {
    var q, m := a / count, a % count;
    assert a == count * q + m;
    if m == count - 1 {
      ModBracket(a + 1, count, q + 1, 0);
    } else {
      ModBracket(a + 1, count, q, m + 1);
    }
  }

  /** Pressing "next" `k` times advances the index by `k` modulo the count. */
  lemma {:induction false} ForwardModular(i: int, count: int, k: nat)
    requires 0 <= i < count
    ensures Forward(i, count, k) == (i + k) % count
  {
    if k == 0 {
      ModBracket(i, count, 0, i);
    } else {
      ForwardModular(i, count, k - 1);
      NextOfRemainder(i + k - 1, count);
    }
  }

  /** A full round of "next" presses comes back to the starting image. */
  lemma FullCycle(i: int, count: int)
    requires 0 <= i < count
    ensures Forward(i, count, count) == i
  {
    ForwardModular(i, count, count);
    ModBracket(i + count, count, 1, i);
  }

  /** The carousel's state. */
  class ImageSlider {
    const images: seq<string>
    var currentIndex: int
    var direction: int
    var isFullscreen: bool

    /** The index names an image (the component shows a placeholder when there are none). */
    predicate Valid()
      reads this
    {
      |images| == 0 || 0 <= currentIndex < |images|
    }

    constructor (images: seq<string>)
      ensures this.images == images
      ensures currentIndex == 0 && direction == 0 && !isFullscreen
      ensures Valid()
    {
      this.images := images;
      currentIndex := 0;
      direction := 0;
      isFullscreen := false;
    }

    /** `paginate(newDirection)`: record the direction, then step the index. */
    method Paginate(newDirection: int)
      modifies this
      ensures direction == newDirection
      ensures currentIndex == Paginated(old(currentIndex), |images|, newDirection)
      ensures isFullscreen == old(isFullscreen)
      ensures old(Valid()) ==> Valid()
    {
      direction := newDirection;
      currentIndex := Paginated(currentIndex, |images|, newDirection);
    }

    /** The fullscreen button. */
    method OpenFullscreen()
      modifies this
      ensures isFullscreen
      ensures currentIndex == old(currentIndex) && direction == old(direction)
    {
      isFullscreen := true;
    }

    /** The close button, or a click on the backdrop. */
    method CloseFullscreen()
      modifies this
      ensures !isFullscreen
      ensures currentIndex == old(currentIndex) && direction == old(direction)
    {
      isFullscreen := false;
    }
  }

  /** A press of "next" followed by one of "previous" leaves the carousel on its image. */
  method NextThenBack(s: ImageSlider)
    requires s.Valid() && |s.images| > 0
    modifies s
    ensures s.currentIndex == old(s.currentIndex) && s.direction == -1
    ensures s.isFullscreen == old(s.isFullscreen)
  {
    s.Paginate(1);
    s.Paginate(-1);
    NextThenPrevious(old(s.currentIndex), |s.images|, -1);
  }
}
