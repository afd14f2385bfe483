/**
 * The scroll-handle list: a list whose scroll offset drives a handle along a track beside it,
 * and a pan gesture on the handle that takes over the handle's position and seeks the list.
 *
 * The pure part maps the scroll offset and the two measured heights to a progress in [0, 1] and
 * then to a position on the track. The controller class holds the shared values the component
 * keeps (offset, heights, drag flag, manual handle position, the gesture context) and records
 * every non-animated seek it asks the list for.
 */
module ScrollHandle {
  import opened Wrappers
  import opened Interpolation

  /** Radius of the round handle; the track is four radii shorter than the container. */
  const HandleRadius: real := 20.0

  /** Length of the track the handle moves along inside a container of the given height. */
  function TrackLength(containerHeight: real): (track: real)
    ensures track < containerHeight
    ensures track > 0.0 <==> containerHeight > 4.0 * HandleRadius
  {
    containerHeight - 4.0 * HandleRadius
  }

  /**
   * The divisor `contentHeight - containerHeight || 1`: JavaScript's `||` replaces only a zero
   * (falsy) range by 1, so a negative range is kept as it is. It is never zero.
   */
  function ScrollableRange(containerHeight: real, contentHeight: real): (r: real)
    ensures r != 0.0
    ensures contentHeight != containerHeight ==> r == contentHeight - containerHeight
  {
    if contentHeight - containerHeight == 0.0 then 1.0 else contentHeight - containerHeight
  }

  /** How far the list is scrolled, as a fraction of its scrollable range. */
  function ScrollProgress(scrollY: real, containerHeight: real, contentHeight: real): (p: real)
    ensures 0.0 <= p <= 1.0
    ensures contentHeight > containerHeight && 0.0 <= scrollY <= contentHeight - containerHeight ==>
      p * (contentHeight - containerHeight) == scrollY
  {
    Clamp(scrollY / ScrollableRange(containerHeight, contentHeight), 0.0, 1.0)
  }

  /** The handle position derived from the scroll offset: progress times the track length. */
  function DerivedHandleTranslateY(scrollY: real, containerHeight: real, contentHeight: real): (h: real)
    ensures TrackLength(containerHeight) >= 0.0 ==> 0.0 <= h <= TrackLength(containerHeight)
    ensures TrackLength(containerHeight) <= 0.0 ==> TrackLength(containerHeight) <= h <= 0.0
  {
    var p, track := ScrollProgress(scrollY, containerHeight, contentHeight), TrackLength(containerHeight);
    ScaledWithin(p, track);
    p * track
  }

  /**
   * The list offset a manual handle position stands for: its fraction of the track times the
   * range. A position on a positive track seeks within the range (whichever its sign).
   */
  function SeekOffset(manualHandleTranslateY: real, containerHeight: real, contentHeight: real): (offset: real)
    requires TrackLength(containerHeight) != 0.0
    ensures TrackLength(containerHeight) > 0.0 && 0.0 <= manualHandleTranslateY <= TrackLength(containerHeight) ==>
      && (contentHeight >= containerHeight ==> 0.0 <= offset <= contentHeight - containerHeight)
      && (contentHeight <= containerHeight ==> contentHeight - containerHeight <= offset <= 0.0)
  {
    SeekWithinRange(manualHandleTranslateY, containerHeight, contentHeight);
    manualHandleTranslateY / TrackLength(containerHeight) * (contentHeight - containerHeight)
  }

  /** A position on a positive track stands for a fraction in [0, 1], which scales the range within itself. */
  lemma SeekWithinRange(manualHandleTranslateY: real, containerHeight: real, contentHeight: real)
    requires TrackLength(containerHeight) != 0.0
    ensures TrackLength(containerHeight) > 0.0 && 0.0 <= manualHandleTranslateY <= TrackLength(containerHeight) ==>
      var offset := manualHandleTranslateY / TrackLength(containerHeight) * (contentHeight - containerHeight);
      && (contentHeight >= containerHeight ==> 0.0 <= offset <= contentHeight - containerHeight)
      && (contentHeight <= containerHeight ==> contentHeight - containerHeight <= offset <= 0.0)
  {
    var track := TrackLength(containerHeight);
    if track > 0.0 && 0.0 <= manualHandleTranslateY <= track {
      RatioBounds(manualHandleTranslateY, track);
      ScaledWithin(manualHandleTranslateY / track, contentHeight - containerHeight);
    }
  }

  // ---------------------------------------------------------------------------------------------
  // Properties of the derivation pipeline

  /** With content exactly as tall as the container the divisor falls back to 1, not to the range. */
  lemma ZeroRangeDividesByOne(scrollY: real, height: real)
    ensures ScrollProgress(scrollY, height, height) == Clamp(scrollY, 0.0, 1.0)
    ensures scrollY <= 0.0 ==> ScrollProgress(scrollY, height, height) == 0.0
  {
  }

  /**
   * A negative range (content shorter than the container) is used unchanged: a scroll offset at
   * or past the top gives progress 0, while pulling the list down past its top (a negative
   * offset) gives a positive progress.
   */
  lemma NegativeRangeProgress(scrollY: real, containerHeight: real, contentHeight: real)
    requires contentHeight < containerHeight
    ensures scrollY >= 0.0 ==> ScrollProgress(scrollY, containerHeight, contentHeight) == 0.0
    ensures scrollY < 0.0 ==> ScrollProgress(scrollY, containerHeight, contentHeight) > 0.0
  {
    var range := contentHeight - containerHeight;
    assert scrollY / range * range == scrollY;
  }

  /** Container 800, content 2000, offset 600: half-way, and the handle 360 down its 720 track. */
  lemma HalfWayScenario()
    ensures ScrollProgress(600.0, 800.0, 2000.0) == 0.5
    ensures DerivedHandleTranslateY(600.0, 800.0, 2000.0) == 360.0
  {
  }

  /** Dragging the handle to the end of the track seeks to the end of the scrollable range. */
  lemma SeekAtTrackEnd(containerHeight: real, contentHeight: real)
    requires TrackLength(containerHeight) != 0.0
    ensures SeekOffset(TrackLength(containerHeight), containerHeight, contentHeight) == contentHeight - containerHeight
    ensures SeekOffset(0.0, containerHeight, contentHeight) == 0.0
  {
    var track := TrackLength(containerHeight);
    assert track / track == 1.0;
  }

  /**
   * Round trip: when there is something to scroll and a track to drag on, the offset a drag seeks
   * to, once reported back as the scroll offset, derives exactly the dragged handle position, so
   * handing authority back to the scroll offset at the end of a drag causes no jump.
   */
  lemma SeekRoundTrip(manual: real, containerHeight: real, contentHeight: real)
    requires contentHeight - containerHeight > 0.0
    requires TrackLength(containerHeight) > 0.0
    requires 0.0 <= manual <= TrackLength(containerHeight)
    ensures DerivedHandleTranslateY(SeekOffset(manual, containerHeight, contentHeight), containerHeight, contentHeight) == manual
  {
    var track, range := TrackLength(containerHeight), contentHeight - containerHeight;
    var f := manual / track;
    RatioBounds(manual, track);
    var seek := SeekOffset(manual, containerHeight, contentHeight);
    assert seek == f * range;
    assert ScrollableRange(containerHeight, contentHeight) == range;
    Cancel(f, range);
    assert seek / range == f;
    assert ScrollProgress(seek, containerHeight, contentHeight) == f;
    assert DerivedHandleTranslateY(seek, containerHeight, contentHeight) == f * track;
    Cancel(manual, track);
  }

  /**
   * The other round trip: for an offset within the scrollable range, the handle position it
   * derives seeks back to that same offset, so a drag that does not move the finger seeks to where
   * the list already is.
   */
  lemma ScrollRoundTrip(scrollY: real, containerHeight: real, contentHeight: real)
    requires contentHeight - containerHeight > 0.0
    requires TrackLength(containerHeight) > 0.0
    requires 0.0 <= scrollY <= contentHeight - containerHeight
    ensures SeekOffset(DerivedHandleTranslateY(scrollY, containerHeight, contentHeight), containerHeight, contentHeight) == scrollY
  {
    var track, range := TrackLength(containerHeight), contentHeight - containerHeight;
    var p := scrollY / range;
    RatioBounds(scrollY, range);
    Cancel(scrollY, range);
    Cancel(p, track);
    assert ScrollableRange(containerHeight, contentHeight) == range;
    assert ScrollProgress(scrollY, containerHeight, contentHeight) == p;
    assert DerivedHandleTranslateY(scrollY, containerHeight, contentHeight) == p * track;
  }

  /** Dividing by a non-zero w undoes multiplying by it, and the other way round. */
  lemma Cancel(a: real, w: real)
    requires w != 0.0
    ensures a * w / w == a
    ensures a / w * w == a
  {
  }

  /** Round trip for a whole drag step: whatever the pointer's translation, the seek derives the clamped handle. */
  lemma DragRoundTrip(startTranslateY: real, translationY: real, containerHeight: real, contentHeight: real)
    requires contentHeight - containerHeight > 0.0
    requires TrackLength(containerHeight) > 0.0
    ensures var manual := Clamp(startTranslateY + translationY, 0.0, TrackLength(containerHeight));
      DerivedHandleTranslateY(SeekOffset(manual, containerHeight, contentHeight), containerHeight, contentHeight) == manual
  {
    SeekRoundTrip(Clamp(startTranslateY + translationY, 0.0, TrackLength(containerHeight)), containerHeight, contentHeight);
  }

  // ---------------------------------------------------------------------------------------------
  // The controller

  /** What `onStart` stores in the gesture context for the rest of the drag. */
  datatype PanContext = PanContext(startScrollY: real, startTranslateY: real)

  class ScrollHandleController {
    var scrollY: real
    var containerHeight: real
    var contentHeight: real
    var isDraggingHandle: bool
    var manualHandleTranslateY: real
    /** The gesture handler's context object; empty until the first `onStart`, then overwritten by each one. */
    var ctx: Option<PanContext>
    /** Every `scrollToOffset` request issued to the list, in order; all of them have `animated: false`. */
    var seeks: seq<real>

    /** A drag in progress always has the context its `onStart` recorded. */
    ghost predicate Valid()
      reads this
    {
      isDraggingHandle ==> ctx.Some?
    }

    function HandleTranslateY(): (h: real)
      reads this
      ensures TrackLength(containerHeight) >= 0.0 ==> 0.0 <= h <= TrackLength(containerHeight)
    {
      DerivedHandleTranslateY(scrollY, containerHeight, contentHeight)
    }

    /** The handle's drawn translateY: the manual position while dragging, the derived one otherwise. */
    function DisplayedTranslateY(): (y: real)
      reads this
      ensures isDraggingHandle ==> y == manualHandleTranslateY
      ensures !isDraggingHandle ==> y == HandleTranslateY()
    {
      if isDraggingHandle then manualHandleTranslateY else HandleTranslateY()
    }

    constructor ()
      ensures Valid()
      ensures scrollY == 0.0 && containerHeight == 1.0 && contentHeight == 1.0
      ensures !isDraggingHandle && manualHandleTranslateY == 0.0
      ensures ctx == None && seeks == []
    {
      scrollY := 0.0;
      containerHeight := 1.0;
      contentHeight := 1.0;
      isDraggingHandle := false;
      manualHandleTranslateY := 0.0;
      ctx := None;
      seeks := [];
    }

    /** Scroll telemetry: the reported offset is written whether or not the handle is being dragged. */
    method OnScroll(contentOffsetY: real)
      requires Valid()
      modifies this
      ensures Valid()
      ensures scrollY == contentOffsetY
      ensures containerHeight == old(containerHeight) && contentHeight == old(contentHeight)
      ensures isDraggingHandle == old(isDraggingHandle) && manualHandleTranslateY == old(manualHandleTranslateY)
      ensures ctx == old(ctx) && seeks == old(seeks)
      ensures isDraggingHandle ==> DisplayedTranslateY() == old(DisplayedTranslateY())
    {
      scrollY := contentOffsetY;
    }

    /** The list's `onLayout`: the container height is the measured layout height. */
    method OnLayout(height: real)
      requires Valid()
      modifies this
      ensures Valid()
      ensures containerHeight == height
      ensures scrollY == old(scrollY) && contentHeight == old(contentHeight)
      ensures isDraggingHandle == old(isDraggingHandle) && manualHandleTranslateY == old(manualHandleTranslateY)
      ensures ctx == old(ctx) && seeks == old(seeks)
    {
      containerHeight := height;
    }

    /** The list's `onContentSizeChange`: the content height is the reported height. */
    method OnContentSizeChange(height: real)
      requires Valid()
      modifies this
      ensures Valid()
      ensures contentHeight == height
      ensures scrollY == old(scrollY) && containerHeight == old(containerHeight)
      ensures isDraggingHandle == old(isDraggingHandle) && manualHandleTranslateY == old(manualHandleTranslateY)
      ensures ctx == old(ctx) && seeks == old(seeks)
    {
      contentHeight := height;
    }

    /** `setOffset`: asks the list to jump, without animation, to the given offset. */
    method SetOffset(offset: real)
      modifies this`seeks
      ensures seeks == old(seeks) + [offset]
    {
      seeks := seeks + [offset];
    }

    /**
     * Pan start: snapshot the offset and the derived handle position into the context, copy the
     * derived position into the manual one and take authority. A second start simply overwrites
     * the context. Starting a drag does not move the handle on screen.
     */
    method OnStart()
      requires Valid()
      modifies this
      ensures Valid()
      ensures ctx == Some(PanContext(old(scrollY), old(HandleTranslateY())))
      ensures manualHandleTranslateY == old(HandleTranslateY()) && isDraggingHandle
      ensures scrollY == old(scrollY) && containerHeight == old(containerHeight) && contentHeight == old(contentHeight)
      ensures seeks == old(seeks)
      ensures !old(isDraggingHandle) ==> DisplayedTranslateY() == old(DisplayedTranslateY())
    {
      ctx := Some(PanContext(scrollY, HandleTranslateY()));
      manualHandleTranslateY := HandleTranslateY();
      isDraggingHandle := true;
    }

    /**
     * Pan move: the manual position is the start position plus the pointer's translation, clamped
     * to the track; the offset it stands for is sought immediately. The seek is issued whatever the
     * scrollable range, and the offset itself is left for scroll telemetry to report.
     */
    method OnActive(translationY: real)
      requires Valid() && isDraggingHandle
      requires TrackLength(containerHeight) != 0.0
      modifies this
      ensures Valid()
      ensures containerHeight == old(containerHeight) && contentHeight == old(contentHeight)
      ensures manualHandleTranslateY == Clamp(old(ctx).value.startTranslateY + translationY, 0.0, TrackLength(containerHeight))
      ensures TrackLength(containerHeight) > 0.0 ==> 0.0 <= manualHandleTranslateY <= TrackLength(containerHeight)
      ensures seeks == old(seeks) + [SeekOffset(manualHandleTranslateY, containerHeight, contentHeight)]
      ensures scrollY == old(scrollY) && isDraggingHandle == old(isDraggingHandle) && ctx == old(ctx)
    {
      manualHandleTranslateY := Clamp(ctx.value.startTranslateY + translationY, 0.0, TrackLength(containerHeight));
      SetOffset(SeekOffset(manualHandleTranslateY, containerHeight, contentHeight));
    }

    /**
     * Pan end, after an active drag: authority returns to the scroll offset; nothing else changes.
     * A cancelled or failed gesture does not reach this handler.
     */
    method OnEnd()
      requires Valid()
      modifies this
      ensures Valid()
      ensures !isDraggingHandle
      ensures DisplayedTranslateY() == HandleTranslateY()
      ensures scrollY == old(scrollY) && containerHeight == old(containerHeight) && contentHeight == old(contentHeight)
      ensures manualHandleTranslateY == old(manualHandleTranslateY) && ctx == old(ctx) && seeks == old(seeks)
    {
      isDraggingHandle := false;
    }
  }

  // ---------------------------------------------------------------------------------------------
  // Gesture sessions

  /**
   * A drag that activates without the finger moving: it seeks to the offset the handle stands for,
   * which is where the list already is when the offset is within the scrollable range, and the
   * handle is drawn where it was throughout.
   */
  method DragWithoutMoving(c: ScrollHandleController)
    requires c.Valid() && !c.isDraggingHandle
    requires c.contentHeight - c.containerHeight > 0.0 && TrackLength(c.containerHeight) > 0.0
    requires 0.0 <= c.scrollY <= c.contentHeight - c.containerHeight
    modifies c
    ensures c.Valid() && !c.isDraggingHandle
    ensures c.scrollY == old(c.scrollY) && c.seeks == old(c.seeks) + [old(c.scrollY)]
    ensures c.DisplayedTranslateY() == old(c.DisplayedTranslateY())
  {
    c.OnStart();
    c.OnActive(0.0);
    ScrollRoundTrip(c.scrollY, c.containerHeight, c.contentHeight);
    c.OnEnd();
  }

  /**
   * A press that begins a pan but never becomes active (a tap) or is cancelled gets no `onEnd`:
   * the handle stays under manual authority, and later scroll telemetry no longer moves it until
   * a drag ends.
   */
  method PressWithoutEnd(c: ScrollHandleController, laterScrollY: real)
    requires c.Valid() && !c.isDraggingHandle
    modifies c
    ensures c.Valid() && c.isDraggingHandle
    ensures c.scrollY == laterScrollY && c.seeks == old(c.seeks)
    ensures c.DisplayedTranslateY() == old(c.DisplayedTranslateY())
  {
    c.OnStart();
    c.OnScroll(laterScrollY);
  }

  /**
   * A drag that moves and is then reported back by scroll telemetry: after the drag ends, the
   * handle is drawn exactly where the finger left it.
   */
  method DragAndSettle(c: ScrollHandleController, translationY: real)
    requires c.Valid() && !c.isDraggingHandle
    requires c.contentHeight - c.containerHeight > 0.0 && TrackLength(c.containerHeight) > 0.0
    modifies c
    ensures c.Valid() && !c.isDraggingHandle
    ensures |c.seeks| == |old(c.seeks)| + 1 && c.scrollY == c.seeks[|c.seeks| - 1]
    ensures c.DisplayedTranslateY() == c.manualHandleTranslateY
    ensures c.manualHandleTranslateY == Clamp(old(c.HandleTranslateY()) + translationY, 0.0, TrackLength(c.containerHeight))
  {
    c.OnStart();
    c.OnActive(translationY);
    c.OnScroll(c.seeks[|c.seeks| - 1]);
    c.OnEnd();
    SeekRoundTrip(c.manualHandleTranslateY, c.containerHeight, c.contentHeight);
  }

  /** Container 800, content 2000: dragging the handle from the top down its whole track seeks to 1200. */
  method DragTopToBottomScenario() returns (seek: real)
    ensures seek == 1200.0
  {
    var c := new ScrollHandleController();
    c.OnLayout(800.0);
    c.OnContentSizeChange(2000.0);
    assert ScrollProgress(0.0, 800.0, 2000.0) == 0.0;
    c.OnStart();
    assert c.ctx.value.startTranslateY == 0.0;
    c.OnActive(720.0);
    assert c.manualHandleTranslateY == TrackLength(800.0);
    SeekAtTrackEnd(800.0, 2000.0);
    seek := c.seeks[|c.seeks| - 1];
  }
}
