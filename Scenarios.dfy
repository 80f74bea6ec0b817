/** Clients of the pager that replay its documented behaviour end to end,
    each proved from the pager's contracts alone. */
module Scenarios {
  import opened Paging
  import opened Pager

  /** Three pages, no looping, on page 0: a swipe back animates, settles
      on page 0 and announces nothing. */
  method BackFromFirstPage() returns (page: int, changes: seq<int>)
    ensures page == 0 && changes == []
  {
    var v := new ViewPager(false, false, false, 3);
    v.WillMount(0);
    v.MovePage(-1, true);
    v.Complete(0, true, 0.0);
    page, changes := v.currentPage, v.pageChanges;
  }

  /** Three pages, looping, on page 0: a swipe back wraps to page 2 and
      announces it once. */
  method LoopBackFromFirstPage() returns (page: int, changes: seq<int>, slot: int)
    ensures page == 2 && changes == [2] && slot == 1
  {
    var v := new ViewPager(true, false, false, 3);
    v.WillMount(0);
    v.MovePage(-1, true);
    v.Complete(0, true, 0.0);
    page, changes, slot := v.currentPage, v.pageChanges, v.childIndex;
  }

  /** While an animated move runs, a horizontal drag is refused; once the
      move has settled, the same drag is claimed. */
  method CaptureRefusedWhileAnimating() returns (during: bool, after: bool, touches: seq<bool>)
    ensures !during && after && touches == [true]
  {
    var v := new ViewPager(false, false, false, 3);
    v.WillMount(0);
    v.GoToPage(1, true);
    during := v.OnMoveShouldSetPanResponder(30.0, 5.0);
    v.Complete(0, true, 1.0);
    after := v.OnMoveShouldSetPanResponder(30.0, 5.0);
    touches := v.touches;
  }

  /** An interrupted animation still announces its page, but commits
      nothing and leaves fling raised, so later drags are refused until a
      props update clears it. */
  method InterruptedMove() returns (page: int, changes: seq<int>, claimed: bool, reclaimed: bool)
    ensures page == 0 && changes == [1] && !claimed && reclaimed
  {
    var v := new ViewPager(false, false, false, 3);
    v.WillMount(0);
    v.MovePage(1, true);
    v.Complete(0, false, 0.4);
    page, changes := v.currentPage, v.pageChanges;
    claimed := v.OnMoveShouldSetPanResponder(30.0, 5.0);
    v.ReceiveProps(false, 3, false, false);
    reclaimed := v.OnMoveShouldSetPanResponder(30.0, 5.0);
  }

  /** A page outside the data source is reported and changes nothing. */
  method InvalidGoToPage() returns (page: int, changes: seq<int>, errors: seq<int>)
    ensures page == 0 && changes == [] && errors == [5, -1]
  {
    var v := new ViewPager(false, false, false, 3);
    v.WillMount(0);
    v.GoToPage(5, true);
    v.GoToPage(-1, false);
    page, changes, errors := v.currentPage, v.pageChanges, v.invalidPages;
  }

  /** An initial page is reached before the first render, on slot 1. */
  method InitialPage() returns (page: int, slot: int, changes: seq<int>, window: seq<Slot>)
    ensures page == 2 && slot == 1 && changes == [2]
    ensures window == [Slot(1, false), Slot(2, false), Slot(3, false)]
  {
    var v := new ViewPager(false, false, false, 5);
    v.WillMount(2);
    v.OnLayout(320.0);
    page, slot, changes := v.currentPage, v.childIndex, v.pageChanges;
    var width;
    window, width := v.Render();
  }

  /** Starting autoplay twice creates one interval; turning autoplay off
      through the props leaves none running. */
  method AutoPlayOnThenOff() returns (created: nat, live: int)
    ensures created == 1 && live == 0
  {
    var v := new ViewPager(false, false, true, 3);
    v.WillMount(0);
    v.DidMount();
    v.StartAutoPlay();
    v.ReceiveProps(false, 3, false, false);
    created, live := v.intervalsCreated, v.intervalsCreated - v.intervalsCleared;
  }

  /** Shrinking the data source under a page beyond its end clamps to the
      new last page and keeps the non-looping pager at rest. */
  method ShrinkingDataSource() returns (page: int, slot: int, scroll: real)
    ensures page == 1 && slot == 1 && scroll == 1.0
  {
    var v := new ViewPager(false, false, false, 5);
    v.WillMount(4);
    v.ReceiveProps(false, 2, false, false);
    page, slot, scroll := v.currentPage, v.childIndex, v.scrollValue;
  }

  /** In loop mode a props update on page 0 pulls the slot index down to
      0 although page 0's own slot is still slot 1 (its left neighbour,
      the last page, stays mounted), and the scroll value is not reset. */
  method LoopUpdateOnFirstPage() returns (slot: int, centre: Slot, scroll: real)
    ensures slot == 0 && centre == Slot(2, true) && scroll == 1.0
  {
    var v := new ViewPager(true, false, false, 3);
    v.WillMount(0);
    v.ReceiveProps(false, 3, true, false);
    v.OnLayout(320.0);
    slot, scroll := v.childIndex, v.scrollValue;
    var window, width := v.Render();
    centre := window[slot];
  }
}
