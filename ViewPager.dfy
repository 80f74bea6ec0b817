/** The view pager widget as an object: its props, the page-transition
    state the gesture and animation callbacks update in place, the
    autoplay timer handle, and the calls it makes back to its owner
    (onChangePage, hasTouch and the invalid-page diagnostic), recorded in
    order. The animation library is reduced to its completion callbacks:
    starting an animated move queues one, and the environment later
    delivers it, finished or interrupted. */
module Pager {
  import opened Paging
  import opened Gesture

  class ViewPager {
    // Props.
    var isLoop: bool
    var locked: bool
    var autoPlay: bool
    /** Number of pages of the data source (its identity sequence has this length). */
    var pageCount: nat

    // Component state.
    var currentPage: int
    var viewWidth: real
    /** The animated scroll value: the position within the mounted window, in pages. */
    var scrollValue: real
    /** The window slot that shows the current page. */
    var childIndex: int
    /** An animated move has started and has not been committed. */
    var fling: bool
    /** An autoplay interval handle is held. */
    var autoPlayer: bool
    var intervalsCreated: nat
    var intervalsCleared: nat
    /** Completion callbacks of started animations not yet delivered, each
        carrying the transition its movePage call planned. */
    var pending: seq<Transition>

    // Calls made to the owner, oldest first.
    var pageChanges: seq<int>
    var touches: seq<bool>
    var invalidPages: seq<int>

    /** The slot index is 0 or 1, every planned commit targets such a slot,
        and exactly the interval handle held is live. */
    ghost predicate Valid()
      reads this
    {
      && (childIndex == 0 || childIndex == 1)
      && (forall k :: 0 <= k < |pending| ==> pending[k].nextChildIndex == 0 || pending[k].nextChildIndex == 1)
      && intervalsCreated == intervalsCleared + (if autoPlayer then 1 else 0)
    }

    /** At rest: no transition running, the current page valid, the scroll
        value exactly on the slot index, and that slot showing the current
        page itself. */
    ghost predicate AtRest()
      reads this
    {
      && !fling
      && 0 <= currentPage < pageCount
      && scrollValue == childIndex as real
      && 0 <= childIndex < |Slots(currentPage, pageCount, isLoop)|
      && Slots(currentPage, pageCount, isLoop)[childIndex] == Slot(currentPage, false)
    }

    /** The state postChange leaves behind for a transition. */
    ghost predicate SettledOn(tr: Transition)
      reads this
    {
      && !fling
      && childIndex == tr.nextChildIndex
      && scrollValue == tr.nextChildIndex as real
      && currentPage == tr.pageNumber
    }

    /** The effect of movePage(step, animate): an animated move raises
        fling and queues its transition, touching nothing else; an
        immediate one commits and announces a change of page at once. */
    twostate predicate MoveEffect(step: int, animate: bool)
      reads this
    {
      var tr := PlanMove(old(currentPage), old(childIndex), step, old(pageCount), old(isLoop));
      && pageCount == old(pageCount) && isLoop == old(isLoop)
      && if animate then
           && fling
           && pending == old(pending) + [tr]
           && currentPage == old(currentPage) && childIndex == old(childIndex)
           && scrollValue == old(scrollValue) && pageChanges == old(pageChanges)
         else
           && SettledOn(tr)
           && pending == old(pending)
           && pageChanges == old(pageChanges) + Notice(tr)
    }

    twostate predicate EngineUnchanged()
      reads this
    {
      && currentPage == old(currentPage) && childIndex == old(childIndex)
      && scrollValue == old(scrollValue) && fling == old(fling)
      && pending == old(pending) && pageChanges == old(pageChanges)
    }

    /** The constructor: page 0, no known width, scroll value 0. */
    constructor (isLoop: bool, locked: bool, autoPlay: bool, pageCount: nat)
      ensures Valid()
      ensures this.isLoop == isLoop && this.locked == locked
      ensures this.autoPlay == autoPlay && this.pageCount == pageCount
      ensures currentPage == 0 && viewWidth == 0.0 && scrollValue == 0.0
      ensures childIndex == 0 && !fling && pending == []
      ensures !autoPlayer && intervalsCreated == 0 && intervalsCleared == 0
      ensures pageChanges == [] && touches == [] && invalidPages == []
    {
      this.isLoop, this.locked, this.autoPlay, this.pageCount := isLoop, locked, autoPlay, pageCount;
      currentPage, viewWidth, scrollValue := 0, 0.0, 0.0;
      childIndex, fling, pending := 0, false, [];
      autoPlayer, intervalsCreated, intervalsCleared := false, 0, 0;
      pageChanges, touches, invalidPages := [], [], [];
    }

    /** postChange: commit a planned transition. */
    method PostChange(tr: Transition)
      modifies this`fling, this`childIndex, this`scrollValue, this`currentPage
      ensures SettledOn(tr)
    {
      fling := false;
      childIndex := tr.nextChildIndex;
      scrollValue := tr.nextChildIndex as real;
      currentPage := tr.pageNumber;
    }

    /** movePage(step, gs, animate). */
    method MovePage(step: int, animate: bool)
      requires Valid()
      modifies this`fling, this`childIndex, this`scrollValue, this`currentPage, this`pending, this`pageChanges
      ensures Valid()
      ensures MoveEffect(step, animate)
      ensures !animate && pageCount > 0 && (isLoop ==> old(currentPage) + step + pageCount >= 0) ==> AtRest()
    {
      var tr := PlanMove(currentPage, childIndex, step, pageCount, isLoop);
      if animate {
        fling := true;
        pending := pending + [tr];
      } else {
        PostChange(tr);
        if tr.moved {
          pageChanges := pageChanges + [tr.pageNumber];
        }
        if pageCount > 0 && (isLoop ==> old(currentPage) + step + pageCount >= 0) {
          LandsInRange(old(currentPage), step, pageCount, isLoop);
          CommitPointsAtCentre(tr.pageNumber, pageCount, isLoop);
        }
      }
    }

    /** The completion callback of the `i`-th outstanding animation. If the
        animation finished, its transition is committed; if it was
        interrupted, nothing is committed, fling stays raised and the
        scroll value is wherever the animation stopped. Either way a
        planned change of page is announced. */
    method Complete(i: nat, finished: bool, stoppedAt: real)
      requires Valid() && i < |pending|
      modifies this`fling, this`childIndex, this`scrollValue, this`currentPage, this`pending, this`pageChanges
      ensures Valid()
      ensures pending == old(pending[..i] + pending[i + 1..])
      ensures finished ==> SettledOn(old(pending[i]))
      ensures !finished ==>
        && fling == old(fling) && currentPage == old(currentPage)
        && childIndex == old(childIndex) && scrollValue == stoppedAt
      ensures pageChanges == old(pageChanges) + Notice(old(pending[i]))
      ensures (&& finished && 0 <= old(pending[i]).pageNumber < pageCount
               && old(pending[i]).nextChildIndex == NextChildIndex(old(pending[i]).pageNumber, isLoop)) ==> AtRest()
    {
      var tr := pending[i];
      pending := pending[..i] + pending[i + 1..];
      if finished {
        PostChange(tr);
        if 0 <= tr.pageNumber < pageCount && tr.nextChildIndex == NextChildIndex(tr.pageNumber, isLoop) {
          CommitPointsAtCentre(tr.pageNumber, pageCount, isLoop);
        }
      } else {
        scrollValue := stoppedAt;
      }
      if tr.moved {
        pageChanges := pageChanges + [tr.pageNumber];
      }
    }

    /** goToPage(pageNumber, animate): a page outside [0, pageCount) is
        reported and ignored; any other is reached by moving
        target - currentPage pages, which lands exactly on it. */
    method GoToPage(target: int, animate: bool)
      requires Valid()
      modifies this`fling, this`childIndex, this`scrollValue, this`currentPage, this`pending, this`pageChanges, this`invalidPages
      ensures Valid()
      ensures 0 <= target < pageCount ==>
        && MoveEffect(target - old(currentPage), animate)
        && invalidPages == old(invalidPages)
        && (if animate then pending[|pending| - 1].pageNumber == target else currentPage == target)
      ensures !(0 <= target < pageCount) ==>
        EngineUnchanged() && invalidPages == old(invalidPages) + [target]
      ensures 0 <= target < pageCount && !animate ==> AtRest()
    {
      if target < 0 || target >= pageCount {
        invalidPages := invalidPages + [target];
        return;
      }
      GoToPageLands(currentPage, childIndex, target, pageCount, isLoop);
      MovePage(target - currentPage, animate);
    }

    /** The release (and terminate) handler: the drag becomes a page step,
        the owner hears that the touch ended, and the move is animated. */
    method Release(dx: real, vx: real, deviceWidth: real)
      requires Valid() && deviceWidth > 0.0
      modifies this`fling, this`childIndex, this`scrollValue, this`currentPage, this`pending, this`pageChanges, this`touches
      ensures Valid()
      ensures MoveEffect(ReleaseStep(dx, deviceWidth, vx), true)
      ensures touches == old(touches) + [false]
    {
      var step := ReleaseStep(dx, deviceWidth, vx);
      touches := touches + [false];
      MovePage(step, true);
    }

    /** onMoveShouldSetPanResponder: claim the drag by the capture rule,
        telling the owner that a touch began when it is claimed. */
    method OnMoveShouldSetPanResponder(dx: real, dy: real) returns (claimed: bool)
      modifies this`touches
      ensures claimed == ClaimsDrag(dx, dy, locked, fling)
      ensures touches == old(touches) + (if claimed then [true] else [])
    {
      claimed := false;
      if Abs(dx) > Abs(dy) {
        if !locked && !fling {
          touches := touches + [true];
          claimed := true;
        }
      }
    }

    /** componentWillMount: a looping pager starts on slot 1; a positive
        initial page (0 stands for none) is reached by an immediate goToPage. */
    method WillMount(initialPage: int)
      requires Valid()
      modifies this`fling, this`childIndex, this`scrollValue, this`currentPage, this`pending, this`pageChanges, this`invalidPages
      ensures Valid()
      ensures pending == old(pending)
      ensures !(0 < initialPage < pageCount) ==>
        && currentPage == old(currentPage) && fling == old(fling)
        && childIndex == (if isLoop then 1 else 0)
        && scrollValue == (if isLoop then 1.0 else old(scrollValue))
        && pageChanges == old(pageChanges)
        && invalidPages == old(invalidPages) + (if initialPage > 0 then [initialPage] else [])
      ensures 0 < initialPage < pageCount ==>
        && currentPage == initialPage && childIndex == 1 && scrollValue == 1.0 && !fling
        && pageChanges == old(pageChanges) + (if initialPage != old(currentPage) then [initialPage] else [])
        && invalidPages == old(invalidPages)
      ensures (&& old(currentPage) == 0 && old(scrollValue) == 0.0 && !old(fling)
               && pageCount > 0 && initialPage < pageCount) ==> AtRest()
    {
      childIndex := 0;
      if isLoop {
        childIndex := 1;
        scrollValue := 1.0;
      }
      if initialPage > 0 {
        GoToPage(initialPage, false);
      }
    }

    /** componentDidMount. */
    method DidMount()
      requires Valid()
      modifies this`autoPlayer, this`intervalsCreated
      ensures Valid()
      ensures autoPlayer == (old(autoPlayer) || autoPlay)
      ensures intervalsCreated == old(intervalsCreated) + (if autoPlay && !old(autoPlayer) then 1 else 0)
    {
      if autoPlay {
        StartAutoPlay();
      }
    }

    /** _startAutoPlay: create the interval only when none is held. */
    method StartAutoPlay()
      requires Valid()
      modifies this`autoPlayer, this`intervalsCreated
      ensures Valid()
      ensures autoPlayer
      ensures intervalsCreated == old(intervalsCreated) + (if old(autoPlayer) then 0 else 1)
    {
      if !autoPlayer {
        autoPlayer := true;
        intervalsCreated := intervalsCreated + 1;
      }
    }

    /** cleanupAutoplayer: clear the interval if one is held. */
    method CleanupAutoplayer()
      requires Valid()
      modifies this`autoPlayer, this`intervalsCleared
      ensures Valid()
      ensures !autoPlayer && intervalsCleared == intervalsCreated
      ensures intervalsCleared == old(intervalsCleared) + (if old(autoPlayer) then 1 else 0)
    {
      if autoPlayer {
        autoPlayer := false;
        intervalsCleared := intervalsCleared + 1;
      }
    }

    /** componentWillUnmount. */
    method WillUnmount()
      requires Valid()
      modifies this`autoPlayer, this`intervalsCleared
      ensures Valid()
      ensures !autoPlayer && intervalsCleared == intervalsCreated
    {
      CleanupAutoplayer();
    }

    /** One firing of the autoplay interval: an animated move to the next page. */
    method AutoPlayTick()
      requires Valid() && autoPlayer
      modifies this`fling, this`childIndex, this`scrollValue, this`currentPage, this`pending, this`pageChanges
      ensures Valid()
      ensures MoveEffect(1, true)
    {
      MovePage(1, true);
    }

    /** componentWillReceiveProps with the next props: start or clear
        autoplay, then adapt the engine to the new data source. */
    method ReceiveProps(nextAutoPlay: bool, nextPageCount: nat, nextIsLoop: bool, nextLocked: bool)
      requires Valid()
      modifies this`autoPlayer, this`intervalsCreated, this`intervalsCleared,
        this`currentPage, this`scrollValue, this`childIndex, this`fling,
        this`autoPlay, this`pageCount, this`isLoop, this`locked
      ensures Valid()
      ensures nextAutoPlay ==>
        && autoPlayer && intervalsCleared == old(intervalsCleared)
        && intervalsCreated == old(intervalsCreated) + (if old(autoPlayer) then 0 else 1)
      ensures !nextAutoPlay ==>
        && !autoPlayer && intervalsCreated == old(intervalsCreated) && intervalsCleared == intervalsCreated
      ensures currentPage == ConstrainedPage(old(currentPage), nextPageCount)
      ensures scrollValue == if nextIsLoop then old(scrollValue) else if currentPage > 0 then 1.0 else 0.0
      ensures childIndex == Min(old(childIndex), currentPage)
      ensures !fling
      ensures autoPlay == nextAutoPlay && pageCount == nextPageCount && isLoop == nextIsLoop && locked == nextLocked
      ensures (!nextIsLoop && nextPageCount > 0 && (old(currentPage) > 0 ==> old(childIndex) == 1)) ==> AtRest()
    {
      if nextAutoPlay {
        StartAutoPlay();
      } else {
        CleanupAutoplayer();
      }
      AdoptDataSource(nextPageCount, nextIsLoop);
      autoPlay, locked := nextAutoPlay, nextLocked;
    }

    /** The data-source part of componentWillReceiveProps: clamp the page
        into the new page count, reset the scroll value when not looping,
        pull the slot index down to the clamped page and clear fling. */
    method AdoptDataSource(nextPageCount: nat, nextIsLoop: bool)
      requires Valid()
      modifies this`currentPage, this`scrollValue, this`childIndex, this`fling, this`pageCount, this`isLoop
      ensures Valid()
      ensures currentPage == ConstrainedPage(old(currentPage), nextPageCount)
      ensures scrollValue == if nextIsLoop then old(scrollValue) else if currentPage > 0 then 1.0 else 0.0
      ensures childIndex == Min(old(childIndex), currentPage)
      ensures !fling
      ensures pageCount == nextPageCount && isLoop == nextIsLoop
      ensures (!nextIsLoop && nextPageCount > 0 && (old(currentPage) > 0 ==> old(childIndex) == 1)) ==> AtRest()
    {
      var constrainedPage := ConstrainedPage(currentPage, nextPageCount);
      if !nextIsLoop && nextPageCount > 0 && (currentPage > 0 ==> childIndex == 1) {
        NonLoopClampRests(currentPage, childIndex, nextPageCount);
      }
      currentPage := constrainedPage;
      if !nextIsLoop {
        scrollValue := if constrainedPage > 0 then 1.0 else 0.0;
      }
      childIndex := Min(childIndex, constrainedPage);
      fling := false;
      pageCount, isLoop := nextPageCount, nextIsLoop;
    }

    /** onLayout: a zero width or the width already known is ignored;
        otherwise the width is recorded (the page is left as it is). */
    method OnLayout(width: real)
      modifies this`viewWidth
      ensures width == 0.0 ==> viewWidth == old(viewWidth)
      ensures width != 0.0 ==> viewWidth == width
    {
      if width == 0.0 || viewWidth == width {
        return;
      }
      viewWidth := width;
    }

    /** The mounting part of render: the slots pushed into the scene
        container, and the container's width, one view width per slot. */
    method Render() returns (slots: seq<Slot>, containerWidth: real)
      ensures slots == Window(currentPage, pageCount, isLoop, viewWidth)
      ensures containerWidth == viewWidth * |slots| as real
    {
      var bodyComponents: seq<Slot> := [];
      var pagesNum: nat := 0;
      if pageCount > 0 && viewWidth > 0.0 {
        if currentPage > 0 {
          bodyComponents := bodyComponents + [Slot(currentPage - 1, false)];
          pagesNum := pagesNum + 1;
        } else if currentPage == 0 && isLoop {
          bodyComponents := bodyComponents + [Slot(pageCount - 1, true)];
          pagesNum := pagesNum + 1;
        }
        bodyComponents := bodyComponents + [Slot(currentPage, false)];
        pagesNum := pagesNum + 1;
        if currentPage < pageCount - 1 {
          bodyComponents := bodyComponents + [Slot(currentPage + 1, false)];
          pagesNum := pagesNum + 1;
        } else if currentPage == pageCount - 1 && isLoop {
          bodyComponents := bodyComponents + [Slot(0, true)];
          pagesNum := pagesNum + 1;
        }
      }
      slots := bodyComponents;
      containerWidth := viewWidth * pagesNum as real;
    }
  }

  /** Without looping, clamping a page whose slot index matches its left
      neighbour leaves the clamped page on its own slot. */
  lemma NonLoopClampRests(currentPage: int, childIndex: int, pageCount: nat)
    requires pageCount > 0 && (childIndex == 0 || childIndex == 1)
    requires currentPage > 0 ==> childIndex == 1
    ensures var p := ConstrainedPage(currentPage, pageCount);
      var k := Min(childIndex, p);
      && k == (if p > 0 then 1 else 0)
      && 0 <= k < |Slots(p, pageCount, false)|
      && Slots(p, pageCount, false)[k] == Slot(p, false)
  {
    var p := ConstrainedPage(currentPage, pageCount);
    CommitPointsAtCentre(p, pageCount, false);
  }

  /** With pages, a move lands in [0, pageCount) unless it is a loop-mode
      move whose raw target is below -pageCount. */
  lemma LandsInRange(currentPage: int, step: int, pageCount: nat, isLoop: bool)
    requires pageCount > 0 && (isLoop ==> currentPage + step + pageCount >= 0)
    ensures 0 <= TargetPage(currentPage, step, pageCount, isLoop) < pageCount
  {
    if isLoop {
      LoopTargetWraps(currentPage, step, pageCount, 0);
    } else {
      NonLoopTargetClamps(currentPage, step, pageCount);
    }
  }
}
