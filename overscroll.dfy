/**
 * The overscroll page: a header image pinned to the overscroll, a header bar and title that fade
 * in as the page scrolls down, and pull-to-refresh with a looping spinner.
 *
 * The pure part gives every animated style value as a function of the scroll offset. The
 * controller class holds the offset and its JavaScript-side mirror, the `isRefreshing` state, the
 * spinner's reload progress with the loop that drives it, the refresh timer, and the animated
 * `scrollTo` requests sent to the scroll view.
 */
module Overscroll {
  import opened Wrappers
  import opened Interpolation

  /** Offset at which the header background has fully faded in. */
  const HeaderBgThreshold: real := 80.0
  /** Pull-to-refresh threshold: releasing the drag at or above this much overscroll refreshes. */
  const PtrThreshold: real := -70.0
  /** Length of the spinner's dash pattern and the span its stroke offset is animated over. */
  const SpinnerDashMax: real := 1000.0

  // ---------------------------------------------------------------------------------------------
  // Style values derived from the scroll offset

  /** The header image's `top`: it follows the overscroll down to 1000 and stays put once scrolled down. */
  function HeaderImageTop(scrollY: real): (top: real)
    ensures -1000.0 <= top <= 0.0
    ensures -1000.0 <= scrollY <= 0.0 ==> top == scrollY
    ensures scrollY >= 0.0 ==> top == 0.0
    ensures scrollY <= -1000.0 ==> top == -1000.0
  {
    Clamp(scrollY, -1000.0, 0.0)
  }

  /** The header background's opacity: hidden up to offset 50, fully shown from 80, linear between. */
  function HeaderBackgroundOpacity(scrollY: real): (opacity: real)
    ensures 0.0 <= opacity <= 1.0
    ensures scrollY <= 50.0 ==> opacity == 0.0
    ensures scrollY >= 80.0 ==> opacity == 1.0
    ensures 50.0 <= scrollY <= 80.0 ==> opacity == (scrollY - 50.0) / 30.0
  {
    Interpolate(scrollY, HeaderBgThreshold - 30.0, HeaderBgThreshold, 0.0, 1.0)
  }

  /** The header title's opacity: hidden up to offset 90, fully shown from 110, linear between. */
  function HeaderTitleOpacity(scrollY: real): (opacity: real)
    ensures 0.0 <= opacity <= 1.0
    ensures scrollY <= 90.0 ==> opacity == 0.0
    ensures scrollY >= 110.0 ==> opacity == 1.0
    ensures 90.0 <= scrollY <= 110.0 ==> opacity == (scrollY - 90.0) / 20.0
  {
    Interpolate(scrollY, HeaderBgThreshold + 10.0, HeaderBgThreshold + 30.0, 0.0, 1.0)
  }

  /** The header title's translateY: 7 below its place up to offset 90, in place from 110. */
  function HeaderTitleTranslateY(scrollY: real): (dy: real)
    ensures 0.0 <= dy <= 7.0
    ensures scrollY <= 90.0 ==> dy == 7.0
    ensures scrollY >= 110.0 ==> dy == 0.0
    ensures 90.0 <= scrollY <= 110.0 ==> dy == 7.0 - 7.0 * (scrollY - 90.0) / 20.0
  {
    Interpolate(scrollY, HeaderBgThreshold + 10.0, HeaderBgThreshold + 30.0, 7.0, 0.0)
  }

  /**
   * The overscroll part of the spinner's stroke-dash offset: the full 1000 (nothing drawn) when
   * not pulled, falling linearly to 0 (fully drawn) at the refresh threshold.
   */
  function SpinnerDashBase(scrollY: real): (offset: real)
    ensures 0.0 <= offset <= SpinnerDashMax
    ensures scrollY >= 0.0 ==> offset == SpinnerDashMax
    ensures scrollY <= PtrThreshold ==> offset == 0.0
    ensures PtrThreshold <= scrollY <= 0.0 ==> offset == (scrollY + 70.0) / 70.0 * 1000.0
  {
    Interpolate(scrollY, PtrThreshold, 0.0, 0.0, SpinnerDashMax)
  }

  /** The spinner's opacity: invisible when not pulled, fully visible from half the threshold on. */
  function SpinnerOpacity(scrollY: real): (opacity: real)
    ensures 0.0 <= opacity <= 1.0
    ensures scrollY >= 0.0 ==> opacity == 0.0
    ensures scrollY <= PtrThreshold / 2.0 ==> opacity == 1.0
    ensures PtrThreshold / 2.0 <= scrollY <= 0.0 ==> opacity == -scrollY / 35.0
  {
    Interpolate(scrollY, PtrThreshold / 2.0, 0.0, 1.0, 0.0)
  }

  /** The further the page is pulled down, the more of the spinner is drawn and the more opaque it is. */
  lemma PullChargesSpinner(scrollY: real, pulledFurther: real)
    requires pulledFurther <= scrollY
    ensures SpinnerDashBase(pulledFurther) <= SpinnerDashBase(scrollY)
    ensures SpinnerOpacity(pulledFurther) >= SpinnerOpacity(scrollY)
  {
    InterpolateMonotone(pulledFurther, scrollY, PtrThreshold, 0.0, 0.0, SpinnerDashMax);
    InterpolateMonotone(pulledFurther, scrollY, PtrThreshold / 2.0, 0.0, 1.0, 0.0);
  }

  /** Scrolling further down never hides the header background or title again. */
  lemma ScrollingDownRevealsHeader(scrollY: real, scrolledFurther: real)
    requires scrollY <= scrolledFurther
    ensures HeaderBackgroundOpacity(scrollY) <= HeaderBackgroundOpacity(scrolledFurther)
    ensures HeaderTitleOpacity(scrollY) <= HeaderTitleOpacity(scrolledFurther)
    ensures HeaderTitleTranslateY(scrollY) >= HeaderTitleTranslateY(scrolledFurther)
  {
    InterpolateMonotone(scrollY, scrolledFurther, HeaderBgThreshold - 30.0, HeaderBgThreshold, 0.0, 1.0);
    InterpolateMonotone(scrollY, scrolledFurther, HeaderBgThreshold + 10.0, HeaderBgThreshold + 30.0, 0.0, 1.0);
    InterpolateMonotone(scrollY, scrolledFurther, HeaderBgThreshold + 10.0, HeaderBgThreshold + 30.0, 7.0, 0.0);
  }

  // ---------------------------------------------------------------------------------------------
  // The controller

  /** An imperative `scrollTo` request sent to the scroll view. */
  datatype ScrollRequest = ScrollRequest(y: real, animated: bool)

  /** The events the page reacts to, each handled as one atomic step. */
  datatype Event =
    | Scroll(contentOffsetY: real)
    | DragRelease
    | TimerFired(token: nat)
    | AnimFinished(isFinished: bool)
    | EffectRun
    | Unmount

  class OverscrollController {
    /** The shared scroll offset the styles are computed from. */
    var scrollY: real
    /** The same offset mirrored into a JavaScript-side ref for the drag-release check. */
    var scrollYInternal: real
    var isRefreshing: bool
    /** The value most recently assigned to the spinner's reload progress (for an animation, its target). */
    var spinnerReloadProgress: real
    /** Every value assigned to the reload progress, in order, animation targets included. */
    var spinnerWrites: seq<real>
    /**
     * The spinner loop: `Some(shouldReset)` while a loop leg is animating whose completion will
     * start the next leg with `!shouldReset`; `None` when no such leg is running.
     */
    var loopLeg: Option<bool>
    /** The `isRefreshing` value the refresh effect last ran with; `None` before it first ran. */
    var effectRanWith: Option<bool>
    /** The refresh timer whose `isSubbed` flag is still set, if any. */
    var liveTimer: Option<nat>
    /** How many refresh timers have been started; the next one gets this number as its token. */
    var timersStarted: nat
    /** The timers started and not yet fired; each fires once. */
    var pendingTimers: set<nat>
    /** Whether the page is still mounted; unmounting runs the effect's last cleanup. */
    var mounted: bool
    /** Every `scrollTo` request sent to the scroll view, in order. */
    var scrollRequests: seq<ScrollRequest>

    /**
     * The reload progress is the last value written to it and stays within one dash length; a
     * subscribed timer belongs to an effect run made while refreshing; while mounted, the only
     * timer that can still fire is the subscribed one, and none is pending when not refreshing.
     */
    ghost predicate Valid()
      reads this
    {
      && spinnerReloadProgress == (if spinnerWrites == [] then 0.0 else spinnerWrites[|spinnerWrites| - 1])
      && -SpinnerDashMax <= spinnerReloadProgress <= SpinnerDashMax
      && (forall i :: 0 <= i < |spinnerWrites| ==> -SpinnerDashMax <= spinnerWrites[i] <= SpinnerDashMax)
      && (liveTimer.Some? ==> liveTimer.value < timersStarted && effectRanWith == Some(true) && mounted)
      && (forall t :: t in pendingTimers ==> t < timersStarted)
      && (mounted ==> forall t :: t in pendingTimers ==> liveTimer == Some(t))
      && (mounted && !isRefreshing ==> pendingTimers == {})
    }

    /** The spinner's full stroke-dash offset: the overscroll part plus the reload progress. */
    function SpinnerStrokeDashOffset(): (offset: real)
      reads this
      requires Valid()
      ensures -SpinnerDashMax <= offset <= 2.0 * SpinnerDashMax
      ensures offset - spinnerReloadProgress == SpinnerDashBase(scrollY)
    {
      SpinnerDashBase(scrollY) + spinnerReloadProgress
    }

    constructor ()
      ensures Valid()
      ensures scrollY == 0.0 && scrollYInternal == 0.0 && !isRefreshing
      ensures spinnerReloadProgress == 0.0 && spinnerWrites == [] && loopLeg == None
      ensures effectRanWith == None && liveTimer == None && timersStarted == 0
      ensures pendingTimers == {} && mounted
      ensures scrollRequests == []
    {
      scrollY := 0.0;
      scrollYInternal := 0.0;
      isRefreshing := false;
      spinnerReloadProgress := 0.0;
      spinnerWrites := [];
      loopLeg := None;
      effectRanWith := None;
      liveTimer := None;
      timersStarted := 0;
      pendingTimers := {};
      mounted := true;
      scrollRequests := [];
    }

    /** Scroll telemetry: both the shared offset and its mirror take the reported offset. */
    method OnScroll(contentOffsetY: real)
      requires Valid()
      modifies this
      ensures Valid()
      ensures scrollY == contentOffsetY && scrollYInternal == contentOffsetY
      ensures isRefreshing == old(isRefreshing) && spinnerReloadProgress == old(spinnerReloadProgress)
      ensures spinnerWrites == old(spinnerWrites) && loopLeg == old(loopLeg)
      ensures effectRanWith == old(effectRanWith) && liveTimer == old(liveTimer) && timersStarted == old(timersStarted)
      ensures pendingTimers == old(pendingTimers) && mounted == old(mounted)
      ensures scrollRequests == old(scrollRequests)
    {
      scrollY := contentOffsetY;
      scrollYInternal := contentOffsetY;
    }

    /**
     * One leg of the spinner loop. Without reset it animates the reload progress towards -1000;
     * with reset it first jumps to 1000 and then animates towards 0. Either way the running leg
     * is replaced by this one.
     */
    method StartSpinnerReloadProgress(shouldReset: bool)
      requires Valid()
      modifies this
      ensures Valid()
      ensures spinnerWrites == old(spinnerWrites) + (if shouldReset then [SpinnerDashMax, 0.0] else [-SpinnerDashMax])
      ensures spinnerReloadProgress == (if shouldReset then 0.0 else -SpinnerDashMax)
      ensures loopLeg == Some(shouldReset)
      ensures scrollY == old(scrollY) && scrollYInternal == old(scrollYInternal) && isRefreshing == old(isRefreshing)
      ensures effectRanWith == old(effectRanWith) && liveTimer == old(liveTimer) && timersStarted == old(timersStarted)
      ensures pendingTimers == old(pendingTimers) && mounted == old(mounted)
      ensures scrollRequests == old(scrollRequests)
    {
      if shouldReset {
        spinnerReloadProgress := SpinnerDashMax;
        spinnerWrites := spinnerWrites + [SpinnerDashMax];
      }
      var target := if shouldReset then 0.0 else -SpinnerDashMax;
      spinnerReloadProgress := target;
      spinnerWrites := spinnerWrites + [target];
      loopLeg := Some(shouldReset);
    }

    /**
     * The completion callback of the running loop leg. A leg that finished starts the next leg in
     * the other direction. A cancelled leg's callback does nothing: whatever cancelled it (a new
     * leg, or the reset in the refresh effect) has already replaced or ended the loop.
     */
    method OnAnimationFinished(isFinished: bool)
      requires Valid()
      modifies this
      ensures Valid()
      ensures old(loopLeg).Some? && isFinished ==>
        && loopLeg == Some(!old(loopLeg).value)
        && spinnerWrites == old(spinnerWrites) + (if !old(loopLeg).value then [SpinnerDashMax, 0.0] else [-SpinnerDashMax])
        && spinnerReloadProgress == (if old(loopLeg).value then -SpinnerDashMax else 0.0)
      ensures !isFinished || old(loopLeg).None? ==>
        && loopLeg == old(loopLeg) && spinnerWrites == old(spinnerWrites)
        && spinnerReloadProgress == old(spinnerReloadProgress)
      ensures scrollY == old(scrollY) && scrollYInternal == old(scrollYInternal) && isRefreshing == old(isRefreshing)
      ensures effectRanWith == old(effectRanWith) && liveTimer == old(liveTimer) && timersStarted == old(timersStarted)
      ensures pendingTimers == old(pendingTimers) && mounted == old(mounted)
      ensures scrollRequests == old(scrollRequests)
    {
      match loopLeg
      case Some(shouldReset) =>
        if isFinished {
          StartSpinnerReloadProgress(!shouldReset);
        }
      case None =>
    }

    /**
     * Drag release: pulled to the threshold or beyond, the page starts refreshing, scrolls
     * (animated) to the threshold and starts the spinner loop. Nothing stops a second release while
     * already refreshing from doing the same again; since `isRefreshing` does not change, the
     * refresh effect and its timer are not restarted. Above the threshold nothing happens.
     */
    method OnScrollEndDrag()
      requires Valid()
      modifies this
      ensures Valid()
      ensures old(scrollYInternal) <= PtrThreshold ==>
        && isRefreshing
        && scrollRequests == old(scrollRequests) + [ScrollRequest(PtrThreshold, true)]
        && loopLeg == Some(false)
        && spinnerWrites == old(spinnerWrites) + [-SpinnerDashMax]
        && spinnerReloadProgress == -SpinnerDashMax
      ensures old(scrollYInternal) > PtrThreshold ==>
        && isRefreshing == old(isRefreshing) && scrollRequests == old(scrollRequests)
        && loopLeg == old(loopLeg) && spinnerWrites == old(spinnerWrites)
        && spinnerReloadProgress == old(spinnerReloadProgress)
      ensures scrollY == old(scrollY) && scrollYInternal == old(scrollYInternal)
      ensures effectRanWith == old(effectRanWith) && liveTimer == old(liveTimer) && timersStarted == old(timersStarted)
      ensures pendingTimers == old(pendingTimers) && mounted == old(mounted)
    {
      if scrollYInternal <= PtrThreshold {
        isRefreshing := true;
        scrollRequests := scrollRequests + [ScrollRequest(PtrThreshold, true)];
        StartSpinnerReloadProgress(false);
      }
    }

    /**
     * A pending refresh timer fires, once: it ends the refresh only if its effect has not been
     * cleaned up since. While the page is mounted the firing timer is always the subscribed one,
     * so it always ends the refresh.
     */
    method OnTimerFired(token: nat)
      requires Valid()
      requires token in pendingTimers
      modifies this
      ensures Valid()
      ensures pendingTimers == old(pendingTimers) - {token}
      ensures isRefreshing == (old(isRefreshing) && old(liveTimer) != Some(token))
      ensures old(mounted) ==> !isRefreshing
      ensures scrollY == old(scrollY) && scrollYInternal == old(scrollYInternal)
      ensures spinnerReloadProgress == old(spinnerReloadProgress) && spinnerWrites == old(spinnerWrites) && loopLeg == old(loopLeg)
      ensures effectRanWith == old(effectRanWith) && liveTimer == old(liveTimer) && timersStarted == old(timersStarted)
      ensures mounted == old(mounted) && scrollRequests == old(scrollRequests)
    {
      pendingTimers := pendingTimers - {token};
      if liveTimer == Some(token) {
        isRefreshing := false;
      }
    }

    /**
     * The refresh effect after a render of the mounted page. It runs only when `isRefreshing`
     * differs from the value it last ran with, first cleaning up the previous run (which
     * unsubscribes its timer). Refreshing, it starts a new timer. Not refreshing, it scrolls
     * (animated) back to 0, cancels the spinner loop and animates the reload progress back to 0.
     */
    method RunEffect()
      requires Valid()
      modifies this
      ensures Valid()
      ensures isRefreshing == old(isRefreshing) && mounted == old(mounted)
      ensures mounted ==> effectRanWith == Some(isRefreshing)
      ensures !mounted || old(effectRanWith) == Some(old(isRefreshing)) ==>
        && effectRanWith == old(effectRanWith)
        && liveTimer == old(liveTimer) && timersStarted == old(timersStarted) && pendingTimers == old(pendingTimers)
        && scrollRequests == old(scrollRequests) && loopLeg == old(loopLeg)
        && spinnerWrites == old(spinnerWrites) && spinnerReloadProgress == old(spinnerReloadProgress)
      ensures mounted && old(effectRanWith) != Some(old(isRefreshing)) && isRefreshing ==>
        && liveTimer == Some(old(timersStarted)) && timersStarted == old(timersStarted) + 1
        && pendingTimers == {old(timersStarted)}
        && scrollRequests == old(scrollRequests) && loopLeg == old(loopLeg)
        && spinnerWrites == old(spinnerWrites) && spinnerReloadProgress == old(spinnerReloadProgress)
      ensures mounted && old(effectRanWith) != Some(old(isRefreshing)) && !isRefreshing ==>
        && liveTimer == None && timersStarted == old(timersStarted) && pendingTimers == {}
        && scrollRequests == old(scrollRequests) + [ScrollRequest(0.0, true)]
        && loopLeg == None
        && spinnerWrites == old(spinnerWrites) + [0.0] && spinnerReloadProgress == 0.0
      ensures scrollY == old(scrollY) && scrollYInternal == old(scrollYInternal)
    {
      if !mounted || effectRanWith == Some(isRefreshing) {
        return;
      }
      liveTimer := None;
      if isRefreshing {
        liveTimer := Some(timersStarted);
        pendingTimers := pendingTimers + {timersStarted};
        timersStarted := timersStarted + 1;
      } else {
        scrollRequests := scrollRequests + [ScrollRequest(if isRefreshing then PtrThreshold else 0.0, true)];
        loopLeg := None;
        spinnerReloadProgress := 0.0;
        spinnerWrites := spinnerWrites + [0.0];
      }
      effectRanWith := Some(isRefreshing);
    }

    /** The page unmounts: the effect's last cleanup runs, which unsubscribes a pending timer. */
    method OnUnmount()
      requires Valid()
      modifies this
      ensures Valid()
      ensures !mounted && liveTimer == None
      ensures scrollY == old(scrollY) && scrollYInternal == old(scrollYInternal) && isRefreshing == old(isRefreshing)
      ensures spinnerReloadProgress == old(spinnerReloadProgress) && spinnerWrites == old(spinnerWrites) && loopLeg == old(loopLeg)
      ensures effectRanWith == old(effectRanWith) && timersStarted == old(timersStarted) && pendingTimers == old(pendingTimers)
      ensures scrollRequests == old(scrollRequests)
    {
      liveTimer := None;
      mounted := false;
    }

    /** Dispatches one event; only a drag release or a timer can change whether the page is refreshing. */
    method Handle(e: Event)
      requires Valid()
      requires e.TimerFired? ==> e.token in pendingTimers
      modifies this
      ensures Valid()
      ensures !(e.DragRelease? || e.TimerFired?) ==> isRefreshing == old(isRefreshing)
      ensures e.DragRelease? ==> isRefreshing == (old(isRefreshing) || old(scrollYInternal) <= PtrThreshold)
      ensures e.TimerFired? ==> isRefreshing == (old(isRefreshing) && old(liveTimer) != Some(e.token))
    {
      match e
      case Scroll(y) => OnScroll(y);
      case DragRelease => OnScrollEndDrag();
      case TimerFired(token) => OnTimerFired(token);
      case AnimFinished(isFinished) => OnAnimationFinished(isFinished);
      case EffectRun => RunEffect();
      case Unmount => OnUnmount();
    }
  }

  // ---------------------------------------------------------------------------------------------
  // Scenarios

  /**
   * A full pull-to-refresh cycle on a fresh page: mount, pull to the threshold and release, one
   * spinner leg completes, the refresh timer fires and the effect resets. The page asks to scroll
   * to 0 on mount, to the threshold on release and back to 0 at the end; it ends not refreshing,
   * with the loop stopped and the reload progress heading back to 0.
   */
  method PullToRefreshCycle() returns (requests: seq<ScrollRequest>, refreshing: bool, loopRunning: bool, progress: real)
    ensures requests == [ScrollRequest(0.0, true), ScrollRequest(PtrThreshold, true), ScrollRequest(0.0, true)]
    ensures !refreshing && !loopRunning && progress == 0.0
  {
    var page := new OverscrollController();
    page.RunEffect();
    page.OnScroll(PtrThreshold);
    page.OnScrollEndDrag();
    page.RunEffect();
    page.OnAnimationFinished(true);
    page.OnTimerFired(0);
    page.RunEffect();
    page.OnAnimationFinished(false);
    requests, refreshing, loopRunning, progress := page.scrollRequests, page.isRefreshing, page.loopLeg.Some?, page.spinnerReloadProgress;
  }

  /** Releasing a pull that stops one unit short of the threshold changes nothing. */
  method ShortPull() returns (requests: seq<ScrollRequest>, refreshing: bool, loopRunning: bool)
    ensures requests == [] && !refreshing && !loopRunning
  {
    var page := new OverscrollController();
    page.OnScroll(PtrThreshold + 1.0);
    page.OnScrollEndDrag();
    requests, refreshing, loopRunning := page.scrollRequests, page.isRefreshing, page.loopLeg.Some?;
  }

  /**
   * Releasing twice while refreshing: the second release scrolls to the threshold again and
   * restarts the spinner loop from its first leg, but starts no second timer.
   */
  method DoubleRelease() returns (requests: seq<ScrollRequest>, timers: nat, leg: Option<bool>)
    ensures requests == [ScrollRequest(PtrThreshold, true), ScrollRequest(PtrThreshold, true)]
    ensures timers == 1 && leg == Some(false)
  {
    var page := new OverscrollController();
    page.OnScroll(-100.0);
    page.OnScrollEndDrag();
    page.RunEffect();
    page.OnAnimationFinished(true);
    page.OnScrollEndDrag();
    page.RunEffect();
    requests, timers, leg := page.scrollRequests, page.timersStarted, page.loopLeg;
  }

  /**
   * A second release replaces the running leg, whose callback then reports it cancelled. The loop
   * goes on: when the new leg finishes, the reset leg writes 1000 and heads for 0.
   */
  method ReleaseDuringLoop() returns (leg: Option<bool>, writes: seq<real>)
    ensures leg == Some(true)
    ensures writes == [-SpinnerDashMax, -SpinnerDashMax, SpinnerDashMax, 0.0]
  {
    var page := new OverscrollController();
    page.OnScroll(-100.0);
    page.OnScrollEndDrag();
    page.RunEffect();
    page.OnScrollEndDrag();
    page.OnAnimationFinished(false);
    page.OnAnimationFinished(true);
    leg, writes := page.loopLeg, page.spinnerWrites;
  }

  /**
   * The page unmounts while refreshing: the effect's cleanup unsubscribes the pending timer, so
   * when it fires it does not set the state of the unmounted page.
   */
  method TimerAfterUnmountIgnored() returns (refreshing: bool, pending: set<nat>)
    ensures refreshing && pending == {}
  {
    var page := new OverscrollController();
    page.RunEffect();
    page.OnScroll(-80.0);
    page.OnScrollEndDrag();
    page.RunEffect();
    page.OnUnmount();
    page.OnTimerFired(0);
    refreshing, pending := page.isRefreshing, page.pendingTimers;
  }
}
