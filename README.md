# ViewPager page-transition engine in Dafny

This project models the core of `ViewPager`, a horizontally swipeable
paginated view for React Native. Below the rendering code sits a small,
sequential, integer-valued state machine, and that machine is what is modelled:

- **Gesture decisions** (module `Gesture`, file `Gesture.dfy`). The release
  rule turns a drag `dx` and a release velocity `vx`, relative to the device
  width, into a page step of -1, 0 or +1. The capture rule decides whether
  the pager claims a drag. All quantities are exact `real`s.
- **Page arithmetic** (module `Paging`, file `Paging.dfy`):
  - where `movePage(step)` lands. In loop mode it wraps through
    JavaScript's truncating `%`, modelled as `JsRem`; otherwise it is
    clamped.
  - the `moved` flag, the animation target `scrollStep` and the slot index
    committed with the page (`PlanMove`, giving a `Transition`).
  - the page clamping applied when a new data source arrives
    (`ConstrainedPage`).
  - the window of at most three mounted pages (`Slots`, `Window`). Each
    `Slot` is a page index plus the flag that adds the loop suffix to its key.
- **The widget object** (module `Pager`, class `ViewPager`, file
  `ViewPager.dfy`):
  - its props: `isLoop`, `locked`, `autoPlay`, `pageCount`.
  - its state: `currentPage`, `viewWidth`, `scrollValue`, `childIndex`,
    `fling`, and the autoplay handle `autoPlayer` with counters of the
    intervals created and cleared.
  - the calls it makes to its owner, recorded in order: `pageChanges` for
    `onChangePage`, `touches` for `hasTouch`, and `invalidPages` for the
    invalid-page diagnostic.
  - each lifecycle and event handler as a method whose postcondition gives
    the whole new state in terms of the old one.
- **The animation** is reduced to its completion callbacks. An animated
  `MovePage` raises `fling` and appends the planned `Transition` to
  `pending`. `Complete(i, finished, stoppedAt)` delivers the i-th outstanding
  callback:
  - if the animation finished, the transition is committed (postChange);
  - if it was interrupted, only the scroll value moves, to where the
    animation stopped;
  - either way a planned change of page is announced.
- **Scenarios** (module `Scenarios`, file `Scenarios.dfy`) drive a fresh
  pager through documented sequences. Each result is proved from the
  class's contracts alone.

Behaviour of the code that the model keeps as written, including some that
looks unintended:

- `onChangePage` fires when a planned move completes, even when the
  animation was interrupted and nothing was committed
  (`ViewPager.js:217-222`).
- An interrupted animation leaves `fling` raised, so every later drag is
  refused until a props update or a later commit clears it, although no
  transition is running any more. A later commit is a finished completion
  of another animated move, such as an autoplay tick's, or an immediate
  `goToPage`. See `Scenarios.InterruptedMove`.
- In loop mode, a target below `-pageCount` can give a negative page,
  because JavaScript's `%` keeps the dividend's sign. It gives 0 when
  `currentPage + step + pageCount` is a multiple of `pageCount`
  (`Paging.LoopTargetFarBelow`, `Paging.LoopTargetNegativeWitness`).
  With no pages and no looping, the target is -1.
- The animation target is not confined to `[0, 1]`. Any step of +1 that
  changes page from slot 1 animates to slot 2, looping or not; a `goToPage` jump of several
  pages animates beyond the window.
- In loop mode, a props update on page 0 sets `childIndex` to 0, although
  page 0's own slot is still slot 1, and leaves the scroll value at 1
  (`Scenarios.LoopUpdateOnFirstPage`). The non-looping update keeps the
  pager at rest (`Pager.ViewPager.AdoptDataSource`).
- With a single looping page, that page is mounted three times and its loop
  copy appears twice with the same key (`Paging.WindowSlotsDistinct`).
- The release rule divides by the device width (`ViewPager.js:73`), not by
  the measured view width. The two are separate quantities here.

## Model

| member | source | states |
|---|---|---|
| `Gesture.ReleaseStep` | ViewPager.js:72-82 | the release rule; its step is always -1, 0 or +1 |
| `Gesture.ClaimsDrag` | ViewPager.js:92-95 | the capture condition: abs(dx) > abs(dy), not locked and no transition running; a locked pager or a running transition never claims, and a claimed drag has a non-zero dx |
| `Gesture.RelativeDistance` | ViewPager.js:73-80 | dividing the drag by a positive device width keeps its sign, and compares it with ±0.5 exactly when the drag compares with ± half the width |
| `Gesture.ReleaseStepCharacterised` | ViewPager.js:77-82 | +1 needs a leftward drag and -1 a rightward one; no drag gives 0; a drag past half the width decides the direction whatever the velocity; within half the width a page step happens iff the velocity is at least 1e-6 in the drag's direction |
| `Gesture.ReleaseExamples` | ViewPager.js:78-82 | at any width: -60% with no velocity gives +1, +10% at 2e-6 gives -1, +10% with no velocity gives 0 |
| `Pager.ViewPager.OnMoveShouldSetPanResponder` | ViewPager.js:91-100 | a drag is claimed iff abs(dx) > abs(dy), the pager is not locked and no transition runs; `hasTouch(true)` is sent exactly when it is claimed |
| `Paging.JsRem` | ViewPager.js:196 | truncated remainder: strictly between -n and n, sign of the dividend, and differs from the dividend by a multiple of n |
| `Paging.TargetPage` | ViewPager.js:194-198 | the page movePage lands on: 0 in loop mode and -1 otherwise when there are no pages; with pages always in (-pageCount, pageCount), and in [0, pageCount) unless looping with currentPage + step below -pageCount |
| `Paging.NextChildIndex` | ViewPager.js:203 | the slot index committed with a page is 0 or 1, and 0 exactly at page 0 or below of a non-looping pager |
| `Paging.PlanMove` | ViewPager.js:194-203 | the plan of one movePage call: moved iff the landing page differs from the current page; a move that does not change page animates back to childIndex; a raw target in range is the landing page in both modes; the committed slot index is the landing page's own non-copy slot in its window; from rest, a step of -1, 0 or +1 animates to a slot of the current window that shows the landing page |
| `Paging.TargetPageFacts` | ViewPager.js:194-198 | a raw target in range is the target in both modes; in loop mode a one-page step from a page in range reaches its neighbour, wrapping between the first and last pages |
| `Paging.Notice` | ViewPager.js:219-225 | a transition announces at most one page, the page it lands on, and announces one exactly when it moved |
| `Paging.LoopTargetWraps` | ViewPager.js:194-196 | in loop mode with currentPage + step ≥ -pageCount, the target equals the Euclidean (currentPage + step + pageCount) % pageCount, lies in [0, pageCount), and is the unique page there congruent to currentPage + step |
| `Paging.LoopNeighbour` | ViewPager.js:194-196 | a one-page loop-mode step from a valid page reaches the neighbour, wrapping from first to last page and from last to first |
| `Paging.LoopTargetWithoutPages` | ViewPager.js:196 | with no pages a loop-mode target is 0 |
| `Paging.LoopTargetFarBelow` | ViewPager.js:196 | below -pageCount the loop-mode target lies in (-pageCount, 0], and is negative unless the shifted raw page is a multiple of the count |
| `Paging.LoopTargetNegativeWitness` | ViewPager.js:196 | from page 0 of three, a loop-mode step of -4 lands on page -1 |
| `Paging.NonLoopTargetClamps` | ViewPager.js:197-198 | without looping the target is the raw page clamped into [0, pageCount - 1], unchanged when already in range; with no pages it is -1 |
| `Paging.BackFromFirstPageStays` | ViewPager.js:194-202 | without looping, stepping back from page 0 lands on 0: not moved, nothing announced, and the animation target is the current slot |
| `Paging.GoToPageLands` | ViewPager.js:180-198 | for a valid target, moving by target - currentPage lands exactly on the target in both modes, and is a move iff the target differs from the current page |
| `Paging.AnimationTargetShowsTarget` | ViewPager.js:201-202 | from rest, a step of -1, 0 or +1 animates the scroll value to a slot of the current window that shows the page the move lands on |
| `Paging.CommitPointsAtCentre` | ViewPager.js:203 | the committed slot index (1 if the page is past 0 or looping, else 0) is the position of the page's own non-copy slot in its window |
| `Paging.ConstrainedPage` | ViewPager.js:140-141 | the page kept after a data-source change lies in [0, max(0, count - 1)]; it is the old page if that is valid, the last page if the old one is beyond the end, and 0 if there are no pages |
| `Paging.ConstrainedPageIdempotent` | ViewPager.js:141 | clamping to the same page count twice equals clamping once |
| `Paging.Slots` | ViewPager.js:285-305 | the pages mounted around the current page, left to right: 1 to 3 slots, one of them the current page itself, not a loop copy |
| `Paging.Window` | ViewPager.js:284 | nothing is mounted exactly when there are no pages or the view width is not positive; otherwise the mounted slots are `Slots` |
| `Paging.WindowShape` | ViewPager.js:284-306 | for a page in range: a left slot iff the page is past 0 or looping (the last page, a loop copy exactly at page 0); the centre slot is the page itself; a right slot iff before the last page or looping (page 0, a loop copy exactly at the last page); 1 to 3 slots |
| `Paging.WindowPagesInRange` | ViewPager.js:284-306 | every mounted page is a valid index into the data source |
| `Paging.WindowSlotsDistinct` | ViewPager.js:247-306 | the mounted slots (page index plus loop-suffix flag) are pairwise distinct iff the pager is not looping over a single page |
| `Pager.ViewPager.constructor` | ViewPager.js:58-65 | page 0, width 0, scroll value 0, no transition, no timer, nothing sent |
| `Pager.ViewPager.PostChange` | ViewPager.js:205-212 | commit: fling cleared, slot index and scroll value both set to the planned slot, current page set to the planned page |
| `Pager.ViewPager.MovePage` | ViewPager.js:192-227 | animated: raises fling and queues the planned transition, the page unchanged; immediate: commits it and announces the page iff it moved; an immediate move landing in range ends at rest |
| `Pager.ViewPager.Complete` | ViewPager.js:214-222 | removes the delivered callback; commits only if finished, otherwise keeps page, slot and fling and leaves the scroll value where the animation stopped; announces the planned page iff it moved, finished or not |
| `Pager.ViewPager.GoToPage` | ViewPager.js:180-190 | page outside [0, pageCount): reported, engine unchanged; otherwise exactly movePage(target - currentPage), landing on the target (committed, or queued when animated) |
| `Pager.ViewPager.Release` | ViewPager.js:72-87 | sends `hasTouch(false)` and starts an animated move by the release step |
| `Pager.ViewPager.WillMount` | ViewPager.js:114-123 | looping pagers start on slot 1 with scroll value 1; a positive initial page in range is committed immediately on slot 1 and announced; one out of range is reported; from the constructor's state the pager is then at rest |
| `Pager.ViewPager.DidMount` | ViewPager.js:126-130 | starts autoplay when the prop asks for it |
| `Pager.ViewPager.StartAutoPlay` | ViewPager.js:171-178 | afterwards a handle is held; an interval is created only if none was held |
| `Pager.ViewPager.CleanupAutoplayer` | ViewPager.js:160-165 | afterwards no handle is held and every interval created has been cleared |
| `Pager.ViewPager.WillUnmount` | ViewPager.js:156-158 | leaves no live interval |
| `Pager.ViewPager.AutoPlayTick` | ViewPager.js:173-176 | an interval firing is an animated movePage(1) |
| `Pager.ViewPager.ReceiveProps` | ViewPager.js:132-154 | autoplay on: a handle held, created only if missing; off: none held or live; then the data-source update below, and the new props adopted |
| `Pager.ViewPager.AdoptDataSource` | ViewPager.js:139-152 | page clamped by `ConstrainedPage`; scroll value reset to 1 or 0 (page past 0 or not) only when not looping; slot index lowered to min(slot, page); fling cleared; a non-looping pager whose slot matched its page ends at rest |
| `Pager.NonLoopClampRests` | ViewPager.js:146-150 | without looping, clamping a page whose slot index was consistent gives slot min(slot, page) = (page > 0 ? 1 : 0), the page's own slot |
| `Pager.LandsInRange` | ViewPager.js:194-198 | with pages, a non-looping move or a loop move not below -pageCount lands in [0, pageCount) |
| `Pager.ViewPager.OnLayout` | ViewPager.js:264-273 | a zero width leaves the view width as it was; any other width becomes the view width; nothing else changes |
| `Pager.ViewPager.Render` | ViewPager.js:275-310 | the pushed slots are the window of the current page (none without pages or a known width), and the container is one view width per slot |
| `Scenarios.BackFromFirstPage` | ViewPager.js:194-222 | three pages, no looping, page 0: an animated step back settles on page 0 with no announcement |
| `Scenarios.LoopBackFromFirstPage` | ViewPager.js:194-222 | three pages, looping, page 0: a step back wraps to page 2 on slot 1 and announces 2 once |
| `Scenarios.CaptureRefusedWhileAnimating` | ViewPager.js:91-100 | a drag during an animated goToPage is refused; after completion it is claimed |
| `Scenarios.InterruptedMove` | ViewPager.js:214-222 | an interrupted move announces page 1, stays on page 0, refuses the next drag, and claims again after a props update |
| `Scenarios.InvalidGoToPage` | ViewPager.js:180-186 | targets 5 and -1 on three pages are both reported, in order, with no page change or announcement |
| `Scenarios.InitialPage` | ViewPager.js:118-123 | initial page 2 of five is committed before the first render on slot 1, announced, and mounts pages 1, 2 and 3 |
| `Scenarios.AutoPlayOnThenOff` | ViewPager.js:126-178 | mounting with autoplay and starting it again creates one interval; switching autoplay off leaves none live |
| `Scenarios.ShrinkingDataSource` | ViewPager.js:139-152 | page 4 of five, data source shrunk to two pages: page 1 on slot 1 with scroll value 1 |
| `Scenarios.LoopUpdateOnFirstPage` | ViewPager.js:139-152 | looping on page 0, a props update sets the slot index to 0, whose slot is the last page's loop copy, and leaves the scroll value at 1 |

## Left out

- React and React Native plumbing is not modelled: PropTypes, default props, `StyleSheet`, element creation, `StaticRenderer`, `React.cloneElement`, `bindFunctions`. These are UI-framework work.
- The page indicator (`renderPageIndicator`, `DefaultViewPageIndicator`) is not modelled. It is a pluggable renderer outside the core.
- `_getPage`'s page payloads and render callback are not modelled. A mounted page is its index plus the loop-suffix flag, which together determine its key.
- The data source is modelled only as its page count; `ViewPagerDataSource` is not part of this model. The absent-data-source branch of `componentWillReceiveProps` (line 139) is not modelled, because the prop is required.
- `Animated.spring` friction and tension, the `translateX` interpolation, and the animated value's intermediate positions are not modelled. They are floating-point curves run by a foreign library. An interrupted animation leaves the scroll value at a position the environment supplies.
- The gesture state `gs` handed to the animation factory is not modelled.
- How the animation library orders and flags completions is not modelled. Any outstanding completion may be delivered, finished or not. The model does not capture that starting a new animation, or `setValue`, stops a running one.
- The live drag offset of `onPanResponderMove` (lines 107-111) is not modelled. It is a one-line floating-point update that can divide by a zero view width.
- `PanResponder` event delivery and `Dimensions.get` are not modelled. `dx`, `dy`, `vx` and the device width are parameters.
- `setInterval`'s 5000 ms period is not modelled. Only whether a handle is held is modelled, plus counts of intervals created and cleared.
- `Pager.ViewPager.StartAutoPlay`: assumes that the host supplies `this.setInterval` and that it returns a handle. `ViewPager.js` applies no timer mixin, and its class (line 23) defines no `setInterval`. As written, the call at line 173 is not a function and `_startAutoPlay` would throw. `DidMount` would then throw too, and so would `ReceiveProps` with `autoPlay` set, before it reaches the data-source clamp at lines 139-151. The model does not capture that exception.
- `Paging.WindowSlotsDistinct`: proves distinct slots, not distinct React keys. The key `'p_' + pageID + (loop ? '_1' : '')` (line 252) is distinct for distinct slots only if the page identities are unique and no identity equals another identity followed by `_1`. Page identities are not modelled.
- `getCurrentPage` is a plain field read and is not modelled.
- React's batching of `setState` is not modelled. State updates take effect immediately.
- Non-integer or non-finite numbers are not modelled. An `initialPage` of 0 stands for an absent prop, since both are falsy. Fractional pages and NaN or undefined widths are outside the model.
- `onChangePage` and `hasTouch` are optional props. The model records every call the pager would make, whether or not the owner supplied the callback.
- `Gesture.ReleaseStep`: computes with exact reals, not IEEE doubles. The double nearest 1e-6 is slightly below the real 1e-6, and `dx / deviceWidth` is rounded, so the comparisons of lines 77-81 can come out differently exactly at the ±0.5 and ±1e-6 boundaries.
- `Gesture.ReleaseStep`: requires a positive device width. The source divides by the window width, and a zero width is not modelled.
