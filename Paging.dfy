/** Page arithmetic of the view pager: where a move lands, what the
    transition animates to, how a new data source clamps the page, and
    which pages the three-slot window mounts. All of it is plain integer
    arithmetic on the current page, the page count and the loop flag. */
module Paging {

  function Min(a: int, b: int): int { if a <= b then a else b }

  function Max(a: int, b: int): int { if a >= b then a else b }

  /** JavaScript's `%` on integers: the truncated remainder, whose sign
      follows the dividend (unlike Dafny's Euclidean `%`). */
  function JsRem(a: int, n: int): (r: int)
    requires n > 0
    ensures -n < r < n
    ensures a >= 0 ==> 0 <= r
    ensures a <= 0 ==> r <= 0
    ensures (a - r) % n == 0
  {
    if a >= 0 then
      DivModUnique(a - a % n, n, a / n, 0);
      a % n
    else
      var q := (-a) / n;
      assert -a == q * n + (-a) % n;
      assert (-q) * n == -(q * n);
      DivModUnique(a + (-a) % n, n, -q, 0);
      -((-a) % n)
  }

  /** Euclidean division is determined by its defining equation: a
      quotient and a remainder in [0, n) that rebuild x are x / n and x % n. */
  lemma DivModUnique(x: int, n: int, q: int, r: int)
    requires n > 0 && 0 <= r < n && x == q * n + r
    ensures x % n == r && x / n == q
  {
    var q0, r0 := x / n, x % n;
    assert x == q0 * n + r0;
    assert (q - q0) * n == r0 - r;
    MulSign(q - q0, n);
  }

  lemma MulSign(k: int, n: int)
    requires n > 0
    ensures k >= 1 ==> k * n >= n
    ensures k <= -1 ==> k * n <= -n
  {
    if k >= 1 {
      assert k * n == (k - 1) * n + n;
    } else if k <= -1 {
      assert k * n == (k + 1) * n - n;
    }
  }

  /** The page a move of `step` pages from `currentPage` lands on: wrapped
      around the page count in loop mode (0 when there are no pages),
      clamped to the last page and then to 0 otherwise. */
  function TargetPage(currentPage: int, step: int, pageCount: nat, isLoop: bool): (t: int)
    ensures pageCount == 0 ==> t == (if isLoop then 0 else -1)
    ensures pageCount > 0 ==> 0 < t + pageCount && t < pageCount
    ensures pageCount > 0 && (isLoop ==> currentPage + step + pageCount >= 0) ==> 0 <= t < pageCount
  {
    var raw := currentPage + step;
    if isLoop then
      (if pageCount == 0 then 0 else JsRem(raw + pageCount, pageCount))
    else
      Min(Max(0, raw), pageCount - 1)
  }

  /** The slot the current page occupies in the window once a move has
      settled: 1 when a left neighbour is mounted, 0 at the first page of
      a non-looping pager. */
  function NextChildIndex(pageNumber: int, isLoop: bool): (c: int)
    ensures c == 0 || c == 1
    ensures c == 0 <==> !isLoop && pageNumber <= 0
  {
    if pageNumber > 0 || isLoop then 1 else 0
  }

  /** What one call of movePage decides before it animates or commits:
      the page it lands on, whether that differs from the current page,
      the value the scroll animation is driven to, and the slot index
      committed with the page. */
  datatype Transition = Transition(pageNumber: int, moved: bool, scrollStep: int, nextChildIndex: int)

  function PlanMove(currentPage: int, childIndex: int, step: int, pageCount: nat, isLoop: bool): (tr: Transition)
    ensures tr.moved <==> tr.pageNumber != currentPage
    ensures !tr.moved ==> tr.scrollStep == childIndex
    ensures 0 <= currentPage + step < pageCount ==> tr.pageNumber == currentPage + step
    ensures 0 <= tr.pageNumber < pageCount ==>
      var s := Slots(tr.pageNumber, pageCount, isLoop);
      0 <= tr.nextChildIndex < |s| && s[tr.nextChildIndex] == Slot(tr.pageNumber, false)
    ensures 0 <= currentPage < pageCount && -1 <= step <= 1 && childIndex == NextChildIndex(currentPage, isLoop) ==>
      var s := Slots(currentPage, pageCount, isLoop);
      0 <= tr.scrollStep < |s| && s[tr.scrollStep].page == tr.pageNumber
  {
    TargetPageFacts(currentPage, step, pageCount, isLoop);
    var pageNumber := TargetPage(currentPage, step, pageCount, isLoop);
    var moved := pageNumber != currentPage;
    Transition(pageNumber, moved, (if moved then step else 0) + childIndex, NextChildIndex(pageNumber, isLoop))
  }

  /** The facts about the target page that a plan relies on: a raw target
      in range is the target itself, and in loop mode a one-page step from
      a page in range reaches its neighbour. */
  lemma TargetPageFacts(currentPage: int, step: int, pageCount: nat, isLoop: bool)
    ensures 0 <= currentPage + step < pageCount ==> TargetPage(currentPage, step, pageCount, isLoop) == currentPage + step
    ensures isLoop && 0 <= currentPage < pageCount && -1 <= step <= 1 ==>
      TargetPage(currentPage, step, pageCount, true)
        == if currentPage + step < 0 then pageCount - 1
           else if currentPage + step >= pageCount then 0
           else currentPage + step
  {
    if isLoop && 0 <= currentPage + step < pageCount {
      LoopTargetWraps(currentPage, step, pageCount, currentPage + step);
      assert (currentPage + step - (currentPage + step)) % pageCount == 0;
    }
    if isLoop && 0 <= currentPage < pageCount && -1 <= step <= 1 {
      LoopNeighbour(currentPage, step, pageCount);
    }
  }

  /** The onChangePage notifications a settled transition delivers. */
  function Notice(tr: Transition): (n: seq<int>)
    ensures |n| <= 1
    ensures n == [] <==> !tr.moved
    ensures forall k :: 0 <= k < |n| ==> n[k] == tr.pageNumber
  {
    if tr.moved then [tr.pageNumber] else []
  }

  /** The page kept when the data source is replaced by one of `pageCount` pages. */
  function ConstrainedPage(currentPage: int, pageCount: nat): (p: int)
    ensures 0 <= p <= Max(0, pageCount - 1)
    ensures 0 <= currentPage < pageCount ==> p == currentPage
    ensures currentPage >= pageCount > 0 ==> p == pageCount - 1
    ensures currentPage < 0 || pageCount == 0 ==> p == 0
  {
    Max(0, Min(currentPage, pageCount - 1))
  }

  /** One mounted page: its index in the data source and whether it is the
      wrapped-around copy that carries the loop suffix in its key. */
  datatype Slot = Slot(page: int, loopCopy: bool)

  /** The pages render mounts around `currentPage`, left to right; the
      container shows them side by side. */
  function Slots(currentPage: int, pageCount: nat, isLoop: bool): (s: seq<Slot>)
    ensures 1 <= |s| <= 3
    ensures Slot(currentPage, false) in s
  {
    var left :=
      if currentPage > 0 then [Slot(currentPage - 1, false)]
      else if currentPage == 0 && isLoop then [Slot(pageCount - 1, true)]
      else [];
    var right :=
      if currentPage < pageCount - 1 then [Slot(currentPage + 1, false)]
      else if currentPage == pageCount - 1 && isLoop then [Slot(0, true)]
      else [];
    left + [Slot(currentPage, false)] + right
  }

  /** Nothing is mounted until there are pages and the layout width is known. */
  function Window(currentPage: int, pageCount: nat, isLoop: bool, viewWidth: real): (w: seq<Slot>)
    ensures w == [] <==> pageCount == 0 || viewWidth <= 0.0
    ensures w != [] ==> w == Slots(currentPage, pageCount, isLoop)
  {
    if pageCount > 0 && viewWidth > 0.0 then Slots(currentPage, pageCount, isLoop) else []
  }

  // ---------------------------------------------------------------------
  // Target page

  /** In loop mode, as long as the raw target is not below -pageCount, the
      truncated remainder agrees with the Euclidean one: the target is the
      unique page in [0, pageCount) congruent to currentPage + step. */
  lemma {:induction false} LoopTargetWraps(currentPage: int, step: int, pageCount: nat, p: int)
    requires pageCount > 0 && currentPage + step + pageCount >= 0
    ensures var t := TargetPage(currentPage, step, pageCount, true);
      && t == (currentPage + step + pageCount) % pageCount
      && 0 <= t < pageCount
      && (t - (currentPage + step)) % pageCount == 0
      && (0 <= p < pageCount && (p - (currentPage + step)) % pageCount == 0 ==> p == t)
  {
    var raw := currentPage + step;
    var t := TargetPage(currentPage, step, pageCount, true);
    var q := (raw + pageCount) / pageCount;
    assert raw + pageCount == q * pageCount + t;
    assert (1 - q) * pageCount == pageCount - q * pageCount;
    DivModUnique(t - raw, pageCount, 1 - q, 0);
    if 0 <= p < pageCount && (p - raw) % pageCount == 0 {
      var q' := (p - raw) / pageCount;
      assert p - raw == q' * pageCount + 0;
      assert (1 - q') * pageCount == pageCount - q' * pageCount;
      DivModUnique(raw + pageCount, pageCount, 1 - q', p);
    }
  }

  /** For a one-page step from a page in range, the loop-mode target is the
      neighbouring page, wrapping from the first page to the last and back. */
  lemma {:induction false} LoopNeighbour(currentPage: int, step: int, pageCount: nat)
    requires 0 <= currentPage < pageCount && -1 <= step <= 1
    ensures TargetPage(currentPage, step, pageCount, true)
      == if currentPage + step < 0 then pageCount - 1
         else if currentPage + step >= pageCount then 0
         else currentPage + step
  {
    var a := currentPage + step + pageCount;
    if currentPage + step < 0 {
      DivModUnique(a, pageCount, 0, pageCount - 1);
    } else if currentPage + step >= pageCount {
      DivModUnique(a, pageCount, 2, 0);
    } else {
      DivModUnique(a, pageCount, 1, currentPage + step);
    }
  }

  /** A loop-mode target with no pages is page 0. */
  lemma LoopTargetWithoutPages(currentPage: int, step: int)
    ensures TargetPage(currentPage, step, 0, true) == 0
  {
  }

  /** Below -pageCount JavaScript's remainder keeps the sign of the
      dividend, so a loop-mode move can land on a negative page: from page
      0 of three, a step of -4 lands on -1. */
  lemma {:induction false} LoopTargetFarBelow(currentPage: int, step: int, pageCount: nat)
    requires pageCount > 0 && currentPage + step + pageCount < 0
    ensures var t := TargetPage(currentPage, step, pageCount, true);
      0 < t + pageCount && t <= 0 && ((currentPage + step + pageCount) % pageCount != 0 ==> t < 0)
  {
    var a := currentPage + step + pageCount;
    var q := (-a) / pageCount;
    assert -a == q * pageCount + (-a) % pageCount;
    if (-a) % pageCount == 0 {
      assert a == (-q) * pageCount + 0;
      DivModUnique(a, pageCount, -q, 0);
    }
  }

  lemma LoopTargetNegativeWitness()
    ensures TargetPage(0, -4, 3, true) == -1
  {
    assert JsRem(-1, 3) == -(1 % 3);
  }

  /** Without looping the target is the raw page clamped to
      [0, pageCount - 1]; with no pages that interval is empty and the
      target is -1. */
  lemma NonLoopTargetClamps(currentPage: int, step: int, pageCount: nat)
    ensures var raw, t := currentPage + step, TargetPage(currentPage, step, pageCount, false);
      && (pageCount == 0 ==> t == -1)
      && (pageCount > 0 ==>
            && 0 <= t < pageCount
            && (0 <= raw < pageCount ==> t == raw)
            && (raw < 0 ==> t == 0)
            && (raw >= pageCount ==> t == pageCount - 1))
  {
  }

  /** Stepping back from the first page of a non-looping pager stays put:
      nothing moves and nothing is announced. */
  lemma BackFromFirstPageStays(childIndex: int, pageCount: nat)
    requires pageCount > 0
    ensures var tr := PlanMove(0, childIndex, -1, pageCount, false);
      tr.pageNumber == 0 && !tr.moved && Notice(tr) == [] && tr.scrollStep == childIndex
  {
  }

  /** goToPage with a valid target steps by target - currentPage, and that
      move lands exactly on the target in both modes. */
  lemma {:induction false} GoToPageLands(currentPage: int, childIndex: int, target: int, pageCount: nat, isLoop: bool)
    requires 0 <= target < pageCount
    ensures var tr := PlanMove(currentPage, childIndex, target - currentPage, pageCount, isLoop);
      tr.pageNumber == target && (tr.moved <==> target != currentPage)
  {
    if isLoop {
      LoopTargetWraps(currentPage, target - currentPage, pageCount, target);
      assert (target - (currentPage + (target - currentPage))) % pageCount == 0;
    }
  }

  // ---------------------------------------------------------------------
  // Window

  /** The window around a page in range: the left slot is mounted iff the
      page has a predecessor or the pager loops (then it is the last page,
      as a loop copy exactly at page 0); the centre slot is the page
      itself; the right slot is mounted iff the page has a successor or the
      pager loops (then it is page 0, as a loop copy exactly at the last
      page). At most three pages are mounted. */
  lemma WindowShape(currentPage: int, pageCount: nat, isLoop: bool)
    requires 0 <= currentPage < pageCount
    ensures var s := Slots(currentPage, pageCount, isLoop);
      var hasLeft := currentPage > 0 || isLoop;
      var hasRight := currentPage < pageCount - 1 || isLoop;
      && |s| == 1 + (if hasLeft then 1 else 0) + (if hasRight then 1 else 0)
      && 1 <= |s| <= 3
      && (hasLeft ==> s[0] == Slot(if currentPage > 0 then currentPage - 1 else pageCount - 1, currentPage == 0))
      && s[if hasLeft then 1 else 0] == Slot(currentPage, false)
      && (hasRight ==> s[|s| - 1] == Slot(if currentPage < pageCount - 1 then currentPage + 1 else 0, currentPage == pageCount - 1))
  {
  }

  /** Every mounted page is a valid index into the data source. */
  lemma WindowPagesInRange(currentPage: int, pageCount: nat, isLoop: bool, k: int)
    requires 0 <= currentPage < pageCount
    requires 0 <= k < |Slots(currentPage, pageCount, isLoop)|
    ensures 0 <= Slots(currentPage, pageCount, isLoop)[k].page < pageCount
  {
  }

  /** The mounted slots (page index plus loop flag) are pairwise
      distinct except for a single looping page, which is mounted three
      times with its loop copy twice. */
  lemma WindowSlotsDistinct(currentPage: int, pageCount: nat, isLoop: bool)
    requires 0 <= currentPage < pageCount
    ensures var s := Slots(currentPage, pageCount, isLoop);
      (forall j, k :: 0 <= j < k < |s| ==> s[j] != s[k]) <==> !(isLoop && pageCount == 1)
  {
    var s := Slots(currentPage, pageCount, isLoop);
    if isLoop && pageCount == 1 {
      assert s[0] == s[2];
    }
  }

  /** On the page a move settles on, the committed slot index is the
      position of that page's own (non-copy) slot in its window. */
  lemma CommitPointsAtCentre(pageNumber: int, pageCount: nat, isLoop: bool)
    requires 0 <= pageNumber < pageCount
    ensures var s, k := Slots(pageNumber, pageCount, isLoop), NextChildIndex(pageNumber, isLoop);
      0 <= k < |s| && s[k] == Slot(pageNumber, false)
  {
  }

  /** From rest (childIndex on the centre slot), a one-page move animates
      the scroll value to a slot of the current window that shows exactly
      the page the move lands on. */
  lemma AnimationTargetShowsTarget(currentPage: int, step: int, pageCount: nat, isLoop: bool)
    requires 0 <= currentPage < pageCount && -1 <= step <= 1
    ensures var tr := PlanMove(currentPage, NextChildIndex(currentPage, isLoop), step, pageCount, isLoop);
      var s := Slots(currentPage, pageCount, isLoop);
      0 <= tr.scrollStep < |s| && s[tr.scrollStep].page == tr.pageNumber
  {
    if isLoop {
      LoopNeighbour(currentPage, step, pageCount);
    }
  }

  // ---------------------------------------------------------------------
  // Data-source update

  /** Clamping to the new page count twice is clamping once. */
  lemma ConstrainedPageIdempotent(currentPage: int, pageCount: nat)
    ensures ConstrainedPage(ConstrainedPage(currentPage, pageCount), pageCount) == ConstrainedPage(currentPage, pageCount)
  {
  }
}
