# Scroll-driven controllers of modern-mobile-examples, in Dafny

This project models the two pieces of the mobile demo catalogue that have behaviour beyond
rendering. Both keep a scrolling view, an indicator derived from its offset, and the user's
gestures consistent with each other.

- **The scroll handle** (`ScrollHandle`, in `scroll_handle.dfy`). A list drives a round handle
  along a track beside it. The track is the container height minus four handle radii (80). The
  scroll offset and the measured container and content heights give a progress in [0, 1], and
  progress times the track length is the handle's position. A pan on the handle takes authority
  over that position: `onStart` copies the derived position, and `onActive` clamps the start
  position plus the pointer translation to the track. `onActive` then turns the result back into
  a scroll offset and asks the list to jump there without animation. `onEnd` gives authority back
  to the offset. The pure pipeline is a set of functions. The component's shared values form the
  class `ScrollHandleController`, and every `scrollToOffset` request is appended to its `seeks` log.
- **Overscroll and pull-to-refresh** (`Overscroll`, in `overscroll.dfy`). Every animated style is
  a pure function of the scroll offset: the header image's `top`, the header background and title
  opacities, the title's translateY, and the spinner's dash offset and opacity. The class
  `OverscrollController` models the refresh machine. Its fields are the offset and its JavaScript
  mirror, `isRefreshing`, the spinner reload progress and the loop leg animating it, the refresh
  timers (the one still subscribed and those not yet fired), whether the page is mounted, and the
  log of animated `scrollTo` requests. It handles six events: scroll, drag release, timer fired,
  animation finished, refresh-effect run and unmount.
- **The numeric primitives** (`Interpolation`, in `interpolation.dfy`). These are react-native-redash's
  `clamp` (`Math.min(Math.max(lower, value), upper)`) and react-native-reanimated's
  `interpolate(..., Extrapolate.CLAMP)`. The second computes the straight-line value and then
  clamps it to the output range. Both work over exact reals. `Wrappers` holds an `Option` type.

Each handler is one atomic step. The model does not capture the hop between the UI thread and
the JavaScript thread (`runOnJS`). The events the scroll view would send in reply to a seek are
not generated automatically. A client feeds them back as `OnScroll`, as `DragAndSettle` and the
refresh scenarios do.

### Where the code differs from a natural reading of the feature

The model follows the code in each of these cases:

- The progress divisor is `contentHeight - containerHeight || 1`. It falls back to 1 only when the
  range is exactly zero. A negative range is used as it is. Then any offset at or below the top
  gives progress 0, but pulling the list down past its top gives a positive progress
  (`NegativeRangeProgress`). Equal heights give `clamp(scrollY, 0, 1)`, which is not always 0
  (`ZeroRangeDividesByOne`).
- The pan handler defines only `onStart`, `onActive` and `onEnd`, and the gesture library calls
  `onEnd` only when an active pan ends. A press that never becomes active (a tap) or a cancelled
  pan therefore leaves `isDraggingHandle` set. Until a later drag ends, scroll telemetry no longer
  moves the drawn handle (`PressWithoutEnd`).
- `onActive` seeks whatever the scrollable range is, including when the range is zero or negative.
- A second `onStart` overwrites the gesture context instead of being rejected.
  `ctx.startScrollY` is written but never read.
- The spinner's dash offset is 1000 (nothing drawn) when the page is not pulled. It falls to 0
  (fully drawn) at the −70 threshold.
- A drag release while the page is already refreshing is not ignored. It scrolls to the threshold
  again and restarts the spinner loop from its first leg. `isRefreshing` does not change, so the
  refresh effect does not run again and no second timer starts (`DoubleRelease`).
- The refresh state is a single boolean. Refreshing always ends with a fixed 3000 ms timer. No
  external completion signal exists.
- The mount-time run of the refresh effect already scrolls to 0 and resets the spinner.
- While the page is mounted, the timer that fires is always the subscribed one, because
  `isRefreshing` can only become false through that timer. The `isSubbed` guard matters only
  after unmount (`TimerAfterUnmountIgnored`).

## Model

| member | source | states |
|---|---|---|
| `Interpolation.Clamp` | components/ScrollHandleExample.tsx:39-43 | redash `clamp`. The result never exceeds the upper bound. With ordered bounds it lies between them, equals the value when the value is inside, and is the nearer bound outside. With inverted bounds it is the upper bound. |
| `Interpolation.Interpolate` | components/OverscrollExample.tsx:49-54 | Clamped interpolation over an increasing input range. The result lies between the two output values. It equals the first output at or before the range start and the second at or after the range end. Inside the range it is the straight line through the two end points. |
| `ScrollHandle.ScrollableRange` | components/ScrollHandleExample.tsx:40 | The divisor is never zero. It is the real range `contentHeight - containerHeight` whenever that is non-zero, negative ranges included. |
| `ScrollHandle.ScrollProgress` | components/ScrollHandleExample.tsx:38-44 | For any offset and heights, progress lies in [0, 1]. With a positive range and an offset inside it, progress times the range is exactly the offset. |
| `ScrollHandle.DerivedHandleTranslateY` | components/ScrollHandleExample.tsx:46-48 | The derived handle position lies in [0, track length] whenever the track length is non-negative, and in [track length, 0] otherwise. |
| `ScrollHandle.TrackLength` | components/ScrollHandleExample.tsx:47 | The track is shorter than the container, and it is positive exactly when the container is taller than four handle radii (80). |
| `ScrollHandle.SeekOffset` | components/ScrollHandleExample.tsx:79-82 | On a positive track, a manual position on the track seeks to an offset within the scrollable range: in [0, range] for a non-negative range, in [range, 0] for a non-positive one. |
| `ScrollHandle.ZeroRangeDividesByOne` | components/ScrollHandleExample.tsx:40 | With content exactly as tall as the container, progress is `clamp(scrollY, 0, 1)`, so it is 0 at or above the top. |
| `ScrollHandle.NegativeRangeProgress` | components/ScrollHandleExample.tsx:38-44 | With content shorter than the container, progress is 0 for every offset ≥ 0 and strictly positive for every negative offset. |
| `ScrollHandle.HalfWayScenario` | components/ScrollHandleExample.tsx:38-48 | Container 800, content 2000, offset 600: progress 0.5, handle at 360. |
| `ScrollHandle.SeekAtTrackEnd` | components/ScrollHandleExample.tsx:79-82 | A handle at the end of the track seeks to exactly `contentHeight - containerHeight`, and a handle at 0 seeks to 0. |
| `ScrollHandle.SeekRoundTrip` | components/ScrollHandleExample.tsx:79-82 | Take a positive range, a positive track and a manual position on the track. The offset `onActive` seeks to, fed back as the scroll offset, derives exactly that manual position. |
| `ScrollHandle.ScrollRoundTrip` | components/ScrollHandleExample.tsx:38-82 | Take a positive range, a positive track and an offset inside the range. The handle position that offset derives seeks back to exactly that offset. |
| `ScrollHandle.DragRoundTrip` | components/ScrollHandleExample.tsx:73-82 | For any start position and pointer translation, the seek derives exactly the clamped handle position that `onActive` stored. |
| `ScrollHandle.ScrollHandleController.HandleTranslateY` | components/ScrollHandleExample.tsx:46-48 | The controller's derived handle stays on the track whenever the track length is non-negative. |
| `ScrollHandle.ScrollHandleController.DisplayedTranslateY` | components/ScrollHandleExample.tsx:98-100 | The drawn translateY is the manual position while dragging and the derived one otherwise. |
| `ScrollHandle.ScrollHandleController.constructor` | components/ScrollHandleExample.tsx:31-36 | Initial shared values: offset 0, both heights 1, not dragging, manual position 0, empty gesture context, no seeks. |
| `ScrollHandle.ScrollHandleController.OnScroll` | components/ScrollHandleExample.tsx:50-52 | The offset becomes the reported offset, also while dragging. Nothing else changes. While dragging, the drawn handle does not move. |
| `ScrollHandle.ScrollHandleController.OnLayout` | components/ScrollHandleExample.tsx:130-132 | The container height becomes the measured layout height. Nothing else changes. |
| `ScrollHandle.ScrollHandleController.OnContentSizeChange` | components/ScrollHandleExample.tsx:127-129 | The content height becomes the reported height. Nothing else changes. |
| `ScrollHandle.ScrollHandleController.SetOffset` | components/ScrollHandleExample.tsx:54-59 | Exactly one non-animated seek to the given offset is appended to the log. |
| `ScrollHandle.ScrollHandleController.OnStart` | components/ScrollHandleExample.tsx:65-71 | The context becomes (offset, derived position), overwriting any earlier one. The manual position is the derived one and dragging is set. There is no seek and the offset is unchanged. A drag started from rest does not move the drawn handle. |
| `ScrollHandle.ScrollHandleController.OnActive` | components/ScrollHandleExample.tsx:72-85 | Requires an active drag, which by the class invariant has a recorded context, and a non-zero track. The manual position becomes `clamp(start + translation, 0, track)`, which stays on a positive track. Exactly one seek to `manual / track × (content − container)` is appended. The offset itself is unchanged. |
| `ScrollHandle.ScrollHandleController.OnEnd` | components/ScrollHandleExample.tsx:86-88 | Called when an active pan ends. Dragging is cleared, so the drawn handle is the derived one. Nothing else changes. |
| `ScrollHandle.DragWithoutMoving` | components/ScrollHandleExample.tsx:65-88 | With a positive range and track and the offset inside the range, a start, a move of 0 and an end issue exactly one seek, to the current offset. The offset is unchanged, the drag ends and the drawn handle stays where it was. |
| `ScrollHandle.PressWithoutEnd` | components/ScrollHandleExample.tsx:50-71 | A start with no end, followed by any scroll event, leaves the handle under manual authority. The drawn handle does not follow the new offset and no seek is issued. |
| `ScrollHandle.DragAndSettle` | components/ScrollHandleExample.tsx:50-88 | The sequence is start, move, the seek reported back as a scroll, then end. Afterwards the drawn handle is exactly the clamped drag position: authority returns without a jump. |
| `ScrollHandle.DragTopToBottomScenario` | components/ScrollHandleExample.tsx:72-85 | Container 800, content 2000: dragging from the top by the whole 720 track seeks to 1200. |
| `Overscroll.HeaderImageTop` | components/OverscrollExample.tsx:40-44 | `top` lies in [−1000, 0]. It equals the offset inside that range, is 0 whenever the page is scrolled down, and is −1000 beyond. |
| `Overscroll.HeaderBackgroundOpacity` | components/OverscrollExample.tsx:47-56 | Opacity lies in [0, 1]. It is 0 up to offset 50, 1 from 80, and `(y − 50) / 30` in between. |
| `Overscroll.HeaderTitleOpacity` | components/OverscrollExample.tsx:72-79 | Opacity lies in [0, 1]. It is 0 up to offset 90, 1 from 110, and `(y − 90) / 20` in between. |
| `Overscroll.HeaderTitleTranslateY` | components/OverscrollExample.tsx:80-89 | translateY lies in [0, 7]. It is 7 up to offset 90, 0 from 110, and linear in between. |
| `Overscroll.SpinnerDashBase` | components/OverscrollExample.tsx:94-105 | The overscroll part of the dash offset lies in [0, 1000]. It is 1000 at any offset ≥ 0, 0 at or beyond −70, and linear in between. |
| `Overscroll.SpinnerOpacity` | components/OverscrollExample.tsx:107-116 | Opacity lies in [0, 1]. It is 0 at any offset ≥ 0, 1 at or beyond −35, and `−y / 35` in between. |
| `Overscroll.PullChargesSpinner` | components/OverscrollExample.tsx:93-116 | Pulling further never decreases the drawn part of the spinner or its opacity. |
| `Overscroll.ScrollingDownRevealsHeader` | components/OverscrollExample.tsx:46-91 | Scrolling further down never lowers the header background or title opacity and never raises the title's translateY. |
| `Overscroll.OverscrollController.SpinnerStrokeDashOffset` | components/OverscrollExample.tsx:96-103 | The full dash offset is the overscroll part plus the reload progress. It lies in [−1000, 2000]. |
| `Overscroll.OverscrollController.constructor` | components/OverscrollExample.tsx:26-32 | Initial state: offset and mirror 0, not refreshing, reload progress 0, no loop, effect not yet run, no timer started or pending, mounted, no scroll requests. |
| `Overscroll.OverscrollController.OnScroll` | components/OverscrollExample.tsx:34-37 | Every scroll event sets both the shared offset and its mirror to the reported offset. Nothing else changes. |
| `Overscroll.OverscrollController.StartSpinnerReloadProgress` | components/OverscrollExample.tsx:142-158 | Without reset, the reload progress is animated to −1000. With reset, it is first set to 1000 and then animated to 0. The running loop leg becomes this one. Every value written stays in [−1000, 1000]. |
| `Overscroll.OverscrollController.OnAnimationFinished` | components/OverscrollExample.tsx:152-156 | A loop leg that finished starts the next leg with the negated flag, so the reload progress becomes 0 after a leg towards −1000 and −1000 after a reset leg. A cancelled leg's callback changes nothing, and neither does a callback with no loop leg running. |
| `Overscroll.OverscrollController.OnScrollEndDrag` | components/OverscrollExample.tsx:169-178 | If the mirror is at or beyond −70, the page is set refreshing, exactly one animated scroll to −70 is requested, and the loop starts with `false`, also when already refreshing. Otherwise nothing changes. The effect and its timer are untouched either way. |
| `Overscroll.OverscrollController.OnTimerFired` | components/OverscrollExample.tsx:121-127 | A pending timer fires once and is no longer pending. Afterwards the page is refreshing exactly when it was before and the timer is not the subscribed one. While the page is mounted, every timer that fires ends the refresh. |
| `Overscroll.OverscrollController.RunEffect` | components/OverscrollExample.tsx:118-139 | On a mounted page, the effect runs only when `isRefreshing` changed since its last run, and then first unsubscribes the previous timer. Refreshing, it starts one new timer, which is then the only pending one. Not refreshing, it requests an animated scroll to 0, stops the loop and animates the reload progress to 0. |
| `Overscroll.OverscrollController.OnUnmount` | components/OverscrollExample.tsx:125-127 | Unmounting runs the effect's last cleanup: no timer stays subscribed. Nothing else changes. |
| `Overscroll.OverscrollController.Handle` | components/OverscrollExample.tsx:34-178 | Only a drag release (at or beyond the threshold) can start refreshing, and only the subscribed timer can end it. Every other event leaves `isRefreshing` alone. |
| `Overscroll.PullToRefreshCycle` | components/OverscrollExample.tsx:118-178 | The cycle is mount, pull to −70 and release, one loop leg, timer, and effect. Scroll requests are 0, −70, then 0. The page ends not refreshing, with the loop stopped and the reload progress heading to 0. |
| `Overscroll.ShortPull` | components/OverscrollExample.tsx:169-178 | Releasing at −69 requests no scroll, does not refresh and starts no loop. |
| `Overscroll.DoubleRelease` | components/OverscrollExample.tsx:169-178 | A second release while refreshing requests −70 again and restarts the loop at its first leg, but only one timer is ever started. |
| `Overscroll.ReleaseDuringLoop` | components/OverscrollExample.tsx:141-178 | A second release replaces the running leg. The replaced leg's cancel leaves the loop running, and when the new leg finishes the reset leg writes 1000 and targets 0. |
| `Overscroll.TimerAfterUnmountIgnored` | components/OverscrollExample.tsx:118-128 | If the page unmounts while refreshing, its timer still fires once but leaves `isRefreshing` set. |

## Left out

- Rendering, layout, the list and scroll-view internals, images, the SVG path, safe-area insets and the status bar: these are view composition with no logic to state.
- `interpolateColor` for the header button colours (components/OverscrollExample.tsx:60-69): the colour blending lives in the animation library, whose code is not part of this model.
- Animation curves, durations and easing (`withTiming` 1000 ms and 300 ms, the 3000 ms timeout as a length of time): only the values assigned, the animation targets and the discrete finished/cancelled events are modelled. The value of the reload progress part-way through an animation is not modelled.
- The `runOnJS` hop and the scheduling between the UI and JavaScript threads: each handler is one atomic step.
- What the scroll view does with a `scrollTo`/`scrollToOffset` request: requests are recorded as outbound values only. The offsets the view then reports must be fed in as scroll events.
- IEEE floating point: the model uses exact reals. `NaN` from `0 / 0` is not modelled. `ScrollHandle.ScrollHandleController.OnActive` therefore requires a non-zero track length. In the code, a zero track makes `onActive` compute NaN.
- `ScrollHandle.ScrollHandleController.OnActive` also requires an active drag. The gesture library calls `onStart` when a pan begins and before any `onActive`, so the flag is set and the context recorded. Before any `onStart` the context fields are undefined and the code would compute NaN.
- `ScrollHandle.ScrollHandleController.OnEnd`: the gesture library's dispatch of state changes to handlers is not modelled. The model assumes `onEnd` follows only an active pan; which handler, if any, runs on cancel or failure is left to the library, and `PressWithoutEnd` shows the state such a gesture leaves behind.
- `Overscroll.OverscrollController.OnAnimationFinished`: the animation library's delivery of completion callbacks is not modelled. The model assumes a callback with `isFinished` true comes only from the leg that is currently running, and that a replaced or cancelled leg reports `false`.
- When timers fire: each pending timer may fire once, at any point between other events. The 3000 ms delay is not modelled.
- After unmount, only the refresh effect stops running. The model does not stop the environment from delivering other events to an unmounted page.
- React's batching of several state updates before one render is not modelled. Each `RunEffect` sees the state as it is at that moment.
