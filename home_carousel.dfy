/**
 * The home-page carousel: a ring index over the items, moved by the arrows,
 * the dots and the periodic tick (an abstract event standing for the timer).
 */
module HomeCarousel {
  import opened Wrappers

  /** `(prev + 1) % n`, used by the right arrow and by the tick. */
  function NextIndex(i: nat, n: nat): (r: nat)
    requires n > 0
    ensures r < n
  {
    (i + 1) % n
  }

  /** `(prev - 1 + n) % n`; the left operand is never negative, so the remainder agrees with the truncating one. */
  function PreviousIndex(i: nat, n: nat): (r: nat)
    requires 0 < n
    ensures r < n
  {
    (i - 1 + n) % n
  }

  lemma PreviousUndoesNext(i: nat, n: nat)
    requires 0 <= i < n
    ensures PreviousIndex(NextIndex(i, n), n) == i
  {
    if i + 1 < n {
      ModUnique(i + 1, n, 0, i + 1);
      ModUnique(i + n, n, 1, i);
    } else {
      ModUnique(i + 1, n, 1, 0);
      ModUnique(n - 1, n, 0, n - 1);
    }
  }

  lemma NextUndoesPrevious(i: nat, n: nat)
    requires 0 <= i < n
    ensures NextIndex(PreviousIndex(i, n), n) == i
  {
    if i > 0 {
      ModUnique(i - 1 + n, n, 1, i - 1);
      ModUnique(i, n, 0, i);
    } else {
      ModUnique(n - 1, n, 0, n - 1);
      ModUnique(n, n, 1, 0);
    }
  }

  /** `k` steps forward from `i`. */
  function Advance(i: nat, n: nat, k: nat): (r: nat)
    requires n > 0
  {
    if k == 0 then i else NextIndex(Advance(i, n, k - 1), n)
  }

  /** Euclidean division leaves one remainder: `x == q * n + r` with `0 <= r < n` fixes `x % n`. */
  lemma ModUnique(x: int, n: int, q: int, r: int)
    requires n > 0 && 0 <= r < n && x == q * n + r
    ensures x % n == r
  {
    var d := q - x / n;
    assert d * n == x % n - r;
    if d >= 1 {
      assert false;
    } else if d <= -1 {
      assert false;
    }
  }

  /** One step on the reduced index is one step on the unreduced count. */
  lemma StepReduced(x: nat, n: nat)
    requires n > 0
    ensures (x % n + 1) % n == (x + 1) % n
  {
    var q, j := x / n, x % n;
    if j + 1 < n {
      ModUnique(x + 1, n, q, j + 1);
      ModUnique(j + 1, n, 0, j + 1);
    } else {
      ModUnique(x + 1, n, q + 1, 0);
      ModUnique(j + 1, n, 1, 0);
    }
  }

  /** `k` ticks move `k` places around the ring. */
  lemma {:induction false} AdvanceIsModular(i: nat, n: nat, k: nat)
    requires 0 <= i < n
    ensures Advance(i, n, k) == (i + k) % n
  {
    if k == 0 {
      ModUnique(i, n, 0, i);
    } else {
      AdvanceIsModular(i, n, k - 1);
      var x: nat := i + k - 1;
      var prev := Advance(i, n, k - 1);
      assert prev == x % n;
      assert Advance(i, n, k) == (prev + 1) % n;
      StepReduced(x, n);
      assert x + 1 == i + k;
    }
  }

  /** After `n` ticks the carousel is back where it started. */
  lemma FullTurn(i: nat, n: nat)
    requires 0 <= i < n
    ensures Advance(i, n, n) == i
  {
    AdvanceIsModular(i, n, n);
    ModUnique(i + n, n, 1, i);
  }

  /** The timer runs only when there is an item; arrows and dots need at least two. */
  predicate AutoAdvances(n: nat) {
    n > 0
  }

  predicate ShowsArrowsAndDots(n: nat) {
    n > 1
  }

  /** `handleItemClick`: a link opens only when the item has a URL. */
  function ClickTarget(url: string): (target: Option<string>)
    ensures target.Some? <==> url != ""
    ensures target.Some? ==> target.value == url
  {
    if url != "" then Some(url) else None
  }

  class Carousel {
    var currentIndex: nat

    /** The first slide is shown first. */
    constructor ()
      ensures currentIndex == 0
    {
      currentIndex := 0;
    }

    method Tick(n: nat)
      requires AutoAdvances(n)
      modifies this
      ensures currentIndex == NextIndex(old(currentIndex), n)
    {
      currentIndex := (currentIndex + 1) % n;
    }

    method GoToNext(n: nat)
      requires ShowsArrowsAndDots(n)
      modifies this
      ensures currentIndex == NextIndex(old(currentIndex), n)
    {
      currentIndex := (currentIndex + 1) % n;
    }

    method GoToPrevious(n: nat)
      requires ShowsArrowsAndDots(n)
      modifies this
      ensures currentIndex == PreviousIndex(old(currentIndex), n)
    {
      currentIndex := (currentIndex - 1 + n) % n;
    }

    /** A dot sets the index directly. */
    method SelectDot(index: nat, n: nat)
      requires ShowsArrowsAndDots(n) && index < n
      modifies this
      ensures currentIndex == index
    {
      currentIndex := index;
    }
  }
}
