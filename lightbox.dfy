/** The full-screen image viewer of src/app/features/Modal/Modal.tsx:
    prev/next navigation with a slide animation, close with an animation,
    keyboard control, pinch zoom, pan while zoomed, swipe to navigate or
    to close, and double-click or double-tap zoom.

    The viewer's transitions are first given as functions on a value of
    its whole state (`ViewerState`); the class `Viewer` then holds the
    same state in fields, as the component's state and refs do, and its
    handlers update them step by step and are proved against those
    functions. Timers become explicit "timer fired" events, clock readings
    and measurements of the page become parameters, and `onClose` is
    counted. */
module Lightbox {
  import opened Numeric
  import opened Media

  datatype Point = Point(x: real, y: real)

  const Origin := Point(0.0, 0.0)

  /** `'left' | 'right' | null` */
  datatype SlideDirection = NoSlide | SlideLeft | SlideRight

  /** What `getBoundingClientRect` reports for the element a tap lands on. */
  datatype Rect = Rect(left: real, top: real, width: real, height: real)

  /** The image's `offsetWidth`/`offsetHeight` and the content element's
      width and height. */
  datatype Layout = Layout(imageWidth: real, imageHeight: real, containerWidth: real, containerHeight: real)

  datatype Key = Escape | ArrowLeft | ArrowRight | OtherKey

  /** What the end of a one-finger swipe at scale 1 asks for. */
  datatype Gesture = GoPrev | GoNext | Close | Stay

  const SwipeThreshold: real := 50.0
  const CloseThreshold: real := 100.0
  const ZoomSensitivity: real := 0.01
  const ImageDragThreshold: real := 20.0
  const MinScale: real := 1.0
  const MaxScale: real := 5.0
  /** Two touch ends closer than this many milliseconds are a double tap. */
  const DoubleTapWindow := 300

  /** Pinch zoom: the scale grows by 0.01 per pixel the fingers move
      apart, clamped to [1, 5]. */
  function PinchScale(scale: real, distance: real, startDistance: real): (r: real)
    ensures MinScale <= r <= MaxScale
    ensures distance >= startDistance ==> r >= Min(scale, MaxScale)
    ensures distance <= startDistance ==> r <= Max(scale, MinScale)
  {
    Clamp(MinScale, MaxScale, scale + (distance - startDistance) * ZoomSensitivity)
  }

  /** How far the scaled image may be moved from the centre along one
      axis: half of what it overhangs the container, or 0 when it fits. */
  function MaxOffset(imageSize: real, scale: real, containerSize: real): (r: real)
    ensures r >= 0.0
    ensures imageSize * scale <= containerSize ==> r == 0.0
    ensures imageSize * scale > containerSize ==> 2.0 * r == imageSize * scale - containerSize
  {
    Max(0.0, (imageSize * scale - containerSize) / 2.0)
  }

  predicate WithinBounds(p: Point, scale: real, l: Layout) {
    Abs(p.x) <= MaxOffset(l.imageWidth, scale, l.containerWidth) &&
    Abs(p.y) <= MaxOffset(l.imageHeight, scale, l.containerHeight)
  }

  /** `constrainImagePosition`: each coordinate clamped to [-max, max];
      unchanged when the image or the container is not mounted. */
  function ConstrainImagePosition(p: Point, scale: real, layout: Option<Layout>): (r: Point)
    ensures layout.None? ==> r == p
    ensures layout.Some? ==> WithinBounds(r, scale, layout.value)
    ensures layout.Some? && WithinBounds(p, scale, layout.value) ==> r == p
  {
    match layout
    case None => p
    case Some(l) =>
      var maxX := MaxOffset(l.imageWidth, scale, l.containerWidth);
      var maxY := MaxOffset(l.imageHeight, scale, l.containerHeight);
      Point(Clamp(-maxX, maxX, p.x), Clamp(-maxY, maxY, p.y))
  }

  /** A second constraint changes nothing. */
  lemma ConstrainIdempotent(p: Point, scale: real, layout: Option<Layout>)
    ensures ConstrainImagePosition(ConstrainImagePosition(p, scale, layout), scale, layout) ==
      ConstrainImagePosition(p, scale, layout)
  {
  }

  /** An image that fits its container cannot be moved at all. */
  lemma FittingImageIsCentred(p: Point, scale: real, l: Layout)
    requires l.imageWidth * scale <= l.containerWidth && l.imageHeight * scale <= l.containerHeight
    ensures ConstrainImagePosition(p, scale, Some(l)) == Origin
  {
  }

  /** The outcome of a double click or double tap. */
  datatype Zoom = Zoom(scale: real, offset: Point)

  /** `handleDoubleClick` / `handleDoubleTap`: at scale 1, zoom to 2 with
      an offset of half the vector from the tap to the rect's centre; at
      any other scale, back to 1 and centred. */
  function ZoomToggle(scale: real, clientX: real, clientY: real, rect: Rect): (r: Zoom)
    ensures scale == 1.0 ==> r.scale == 2.0
    ensures scale == 1.0 ==> 2.0 * r.offset.x == rect.left + rect.width / 2.0 - clientX
    ensures scale == 1.0 ==> 2.0 * r.offset.y == rect.top + rect.height / 2.0 - clientY
    ensures scale != 1.0 ==> r == Zoom(1.0, Origin)
  {
    if scale == 1.0 then
      var x := clientX - rect.left;
      var y := clientY - rect.top;
      Zoom(2.0, Point((rect.width / 2.0 - x) * 0.5, (rect.height / 2.0 - y) * 0.5))
    else Zoom(1.0, Origin)
  }

  /** A tap at the exact centre zooms in without moving the image, and a
      second toggle always returns to scale 1, centred. */
  lemma ZoomToggleRoundTrip(clientX: real, clientY: real, rect: Rect, x2: real, y2: real, rect2: Rect)
    ensures clientX == rect.left + rect.width / 2.0 && clientY == rect.top + rect.height / 2.0 ==>
      ZoomToggle(1.0, clientX, clientY, rect) == Zoom(2.0, Origin)
    ensures ZoomToggle(ZoomToggle(1.0, clientX, clientY, rect).scale, x2, y2, rect2) == Zoom(1.0, Origin)
  {
  }

  /** `getOverlayOpacity`: the overlay fades while dragged vertically,
      never below one half. */
  function OverlayOpacity(dragOffset: real): (r: real)
    ensures 0.5 <= r <= 1.0
    ensures r == 1.0 <==> dragOffset == 0.0
  {
    1.0 - Min(Abs(dragOffset) / 300.0, 0.5)
  }

  /** A longer drag never makes the overlay more opaque. */
  lemma OverlayOpacityMonotone(d1: real, d2: real)
    requires Abs(d1) <= Abs(d2)
    ensures OverlayOpacity(d2) <= OverlayOpacity(d1)
  {
  }

  /** The decision `handleTouchEnd` takes at scale 1 for a finger that
      moved by (dx, dy). */
  function SwipeDecision(dx: real, dy: real, canGoPrev: bool, canGoNext: bool): (r: Gesture)
    ensures r == GoPrev <==> Abs(dx) > Abs(dy) && dx > SwipeThreshold && canGoPrev
    ensures r == GoNext <==> Abs(dx) > Abs(dy) && dx < -SwipeThreshold && canGoNext
    ensures r == Close <==> Abs(dx) <= Abs(dy) && Abs(dy) > CloseThreshold
  {
    var isHorizontal := Abs(dx) > Abs(dy);
    if isHorizontal then
      if dx > SwipeThreshold && canGoPrev then GoPrev
      else if dx < -SwipeThreshold && canGoNext then GoNext
      else Stay
    else if Abs(dy) > CloseThreshold then Close
    else Stay
  }

  function Mirror(g: Gesture): Gesture {
    match g
    case GoPrev => GoNext
    case GoNext => GoPrev
    case _ => g
  }

  /** Swiping the other way asks for the other neighbour; swiping up or
      down closes alike; a short movement does nothing. */
  lemma SwipeDecisionSymmetry(dx: real, dy: real, canGoPrev: bool, canGoNext: bool)
    ensures SwipeDecision(-dx, dy, canGoNext, canGoPrev) == Mirror(SwipeDecision(dx, dy, canGoPrev, canGoNext))
    ensures SwipeDecision(dx, -dy, canGoPrev, canGoNext) == SwipeDecision(dx, dy, canGoPrev, canGoNext)
    ensures Abs(dx) <= SwipeThreshold && Abs(dy) <= CloseThreshold ==>
      SwipeDecision(dx, dy, canGoPrev, canGoNext) == Stay
  {
    var g := SwipeDecision(dx, dy, canGoPrev, canGoNext);
    var m := SwipeDecision(-dx, dy, canGoNext, canGoPrev);
    assert Abs(-dx) == Abs(dx);
    if g == GoPrev {
      assert m == GoNext;
    } else if g == GoNext {
      assert m == GoPrev;
    } else if g == Close {
      assert m == Close;
    } else {
      assert m != GoPrev && m != GoNext && m != Close;
    }
  }

  /** The gesture refs: `touchStartPos`, `touchStartDistance`,
      `touchStartTime`, `touchStartImagePos` and the four flags. */
  datatype Touch = Touch(
    startPos: Point, startDistance: real, startTime: int, startImagePos: Point,
    isDragging: bool, isZooming: bool, isHorizontalSwipe: bool, isImageDragging: bool)

  /** The viewer's state and refs, the timers it has scheduled and the
      number of times it has called `onClose`. */
  datatype ViewerState = ViewerState(
    currentIndex: int,
    isClosing: bool,
    scale: real,
    position: Point,
    dragOffset: real,
    imagePosition: Point,
    slideDirection: SlideDirection,
    isAnimating: bool,
    lastTapTime: int,
    touch: Touch,
    slideTimerPending: bool,
    closeTimersPending: nat,
    onCloseCalls: nat)

  /** What every reachable state satisfies: the scale lies in [1, 5], and
      a slide animation runs exactly while its timer is pending, with a
      direction set. */
  predicate Inv(v: ViewerState) {
    MinScale <= v.scale <= MaxScale &&
    v.isAnimating == v.slideTimerPending &&
    (v.slideDirection == NoSlide <==> !v.isAnimating)
  }

  predicate IndexInRange(v: ViewerState, itemCount: int) {
    0 <= v.currentIndex < itemCount
  }

  /** The state of the first render. */
  function Initial(initialIndex: int): (v: ViewerState)
    ensures Inv(v) && v.currentIndex == initialIndex
  {
    ViewerState(initialIndex, false, 1.0, Origin, 0.0, Origin, NoSlide, false, 0,
      Touch(Origin, 0.0, 0, Origin, false, false, false, false), false, 0, 0)
  }

  /** `canGoPrev` */
  predicate CanGoPrev(v: ViewerState) {
    v.currentIndex > 0
  }

  /** `canGoNext` */
  predicate CanGoNext(v: ViewerState, itemCount: int) {
    v.currentIndex < itemCount - 1
  }

  /** `handlePrev`'s guard: zoomed out, not at the first item, no slide
      running. */
  predicate PrevAllowed(v: ViewerState) {
    v.scale == 1.0 && CanGoPrev(v) && !v.isAnimating
  }

  predicate NextAllowed(v: ViewerState, itemCount: int) {
    v.scale == 1.0 && CanGoNext(v, itemCount) && !v.isAnimating
  }

  /** The effect of a successful step by `delta` sliding in `direction`. */
  function Slide(v: ViewerState, delta: int, direction: SlideDirection): ViewerState {
    v.(isAnimating := true, slideDirection := direction, currentIndex := v.currentIndex + delta,
       slideTimerPending := true, scale := 1.0, position := Origin, imagePosition := Origin)
  }

  /** `handlePrev` */
  function Prev(v: ViewerState): ViewerState {
    if PrevAllowed(v) then Slide(v, -1, SlideRight) else v
  }

  /** `handleNext` */
  function Next(v: ViewerState, itemCount: int): ViewerState {
    if NextAllowed(v, itemCount) then Slide(v, 1, SlideLeft) else v
  }

  /** The slide timer: the animation ends. */
  function SlideTimerFired(v: ViewerState): ViewerState
    requires v.slideTimerPending
  {
    v.(slideDirection := NoSlide, isAnimating := false, slideTimerPending := false)
  }

  /** `handleClose`: start the close animation and schedule its timer.
      There is no guard against a second close. */
  function CloseViewer(v: ViewerState): ViewerState {
    v.(isClosing := true, closeTimersPending := v.closeTimersPending + 1)
  }

  /** The close timer: call `onClose` and reset the view. */
  function CloseTimerFired(v: ViewerState): ViewerState
    requires v.closeTimersPending > 0
  {
    v.(closeTimersPending := v.closeTimersPending - 1, onCloseCalls := v.onCloseCalls + 1,
       isClosing := false, scale := 1.0, position := Origin, imagePosition := Origin)
  }

  /** `handleOverlayClick`: only a click on the overlay itself closes. */
  function OverlayClick(v: ViewerState, targetIsOverlay: bool): ViewerState {
    if targetIsOverlay then CloseViewer(v) else v
  }

  /** The keydown listener, registered only while the viewer is open. */
  function KeyDown(v: ViewerState, itemCount: int, isOpen: bool, key: Key): ViewerState {
    if !isOpen then v
    else match key
      case Escape => CloseViewer(v)
      case ArrowLeft => if CanGoPrev(v) then Prev(v) else v
      case ArrowRight => if CanGoNext(v, itemCount) then Next(v, itemCount) else v
      case OtherKey => v
  }

  function ApplyZoom(v: ViewerState, z: Zoom): ViewerState {
    v.(scale := z.scale, imagePosition := z.offset)
  }

  /** `handleDoubleClick` and `handleDoubleTap` */
  function ZoomToggled(v: ViewerState, clientX: real, clientY: real, rect: Rect): ViewerState {
    ApplyZoom(v, ZoomToggle(v.scale, clientX, clientY, rect))
  }

  /** `handleTouchStart`: two fingers start a pinch, one finger a drag
      (an image pan when zoomed in). */
  function TouchStart(v: ViewerState, touchCount: nat, first: Point, distance: real, now: int): ViewerState {
    if touchCount == 2 then
      v.(touch := v.touch.(isHorizontalSwipe := false, isZooming := true, isDragging := false,
                           isImageDragging := false, startDistance := distance))
    else
      v.(touch := v.touch.(isDragging := true, isImageDragging := v.scale > 1.0,
                           isHorizontalSwipe := false, startPos := first,
                           startImagePos := v.imagePosition, startTime := now))
  }

  /** `handleTouchMove` */
  function TouchMove(v: ViewerState, touchCount: nat, first: Point, distance: real, layout: Option<Layout>): ViewerState {
    if touchCount == 2 && v.touch.isZooming then Pinched(v, distance, layout)
    else if v.touch.isDragging && touchCount == 1 then
      if v.touch.isImageDragging && v.scale > 1.0 then ImagePanned(v, first, layout)
      else Dragged(v, first)
    else v
  }

  /** Two fingers moving while zooming: the pinch scale, the image kept
      within bounds at that scale, and the new distance as reference. */
  function Pinched(v: ViewerState, distance: real, layout: Option<Layout>): ViewerState {
    var newScale := PinchScale(v.scale, distance, v.touch.startDistance);
    v.(imagePosition := ConstrainImagePosition(v.imagePosition, newScale, layout),
       scale := newScale, touch := v.touch.(startDistance := distance))
  }

  /** One finger moving a zoomed-in image: the image follows the finger
      from where it was at touch start, within bounds. */
  function ImagePanned(v: ViewerState, first: Point, layout: Option<Layout>): ViewerState {
    var dx := first.x - v.touch.startPos.x;
    var dy := first.y - v.touch.startPos.y;
    var newPos := Point(v.touch.startImagePos.x + dx, v.touch.startImagePos.y + dy);
    v.(imagePosition := ConstrainImagePosition(newPos, v.scale, layout))
  }

  /** One finger moving otherwise: past 20 px sideways the drag becomes
      horizontal for good; at scale 1 the content follows the finger
      sideways, or the vertical offset does. */
  function Dragged(v: ViewerState, first: Point): ViewerState {
    var dx := first.x - v.touch.startPos.x;
    var dy := first.y - v.touch.startPos.y;
    var horizontal := v.touch.isHorizontalSwipe || Abs(dx) > ImageDragThreshold;
    var v1 := v.(touch := v.touch.(isHorizontalSwipe := horizontal));
    if v.scale == 1.0 then
      if horizontal then v1.(position := Point(dx, 0.0)) else v1.(dragOffset := dy)
    else v1
  }

  /** What the end of a drag does at scale 1 for a movement of (dx, dy):
      the swipe's navigation or close; nothing when zoomed in. */
  function SwipeOutcome(v: ViewerState, itemCount: int, dx: real, dy: real): ViewerState {
    if v.scale == 1.0 then
      match SwipeDecision(dx, dy, CanGoPrev(v), CanGoNext(v, itemCount))
      case GoPrev => Prev(v)
      case GoNext => Next(v, itemCount)
      case Close => CloseViewer(v)
      case Stay => v
    else v
  }

  /** The drag part of `handleTouchEnd`: clear the drag flags, act on the
      swipe, and return the content to rest. */
  function EndDrag(v: ViewerState, itemCount: int, last: Point): ViewerState {
    var dx := last.x - v.touch.startPos.x;
    var dy := last.y - v.touch.startPos.y;
    AtRest(SwipeOutcome(DragFlagsCleared(v), itemCount, dx, dy))
  }

  function DragFlagsCleared(v: ViewerState): ViewerState {
    v.(touch := v.touch.(isDragging := false, isHorizontalSwipe := false, isImageDragging := false))
  }

  function AtRest(v: ViewerState): ViewerState {
    v.(position := Origin, dragOffset := 0.0)
  }

  /** `handleTouchEnd`: the end of a pinch only clears its flag; any other
      touch end finishes the drag, then is checked as the second tap of a
      double tap (against the scale of the same render), and is recorded
      as the last tap. */
  function TouchEnd(v: ViewerState, itemCount: int, last: Point, rect: Rect, now: int): ViewerState {
    if v.touch.isZooming then v.(touch := v.touch.(isZooming := false))
    else
      var v1 := if v.touch.isDragging then EndDrag(v, itemCount, last) else v;
      var tapLength := now - v.lastTapTime;
      var v2 := if 0 < tapLength < DoubleTapWindow then ApplyZoom(v1, ZoomToggle(v.scale, last.x, last.y, rect)) else v1;
      v2.(lastTapTime := now)
  }

  /** Navigation changes the index only when it is allowed, and then by
      exactly one; otherwise the state does not change at all. */
  lemma NavigationOnlyWhenAllowed(v: ViewerState, itemCount: int)
    ensures Prev(v) != v <==> PrevAllowed(v)
    ensures PrevAllowed(v) ==> Prev(v).currentIndex == v.currentIndex - 1
    ensures Next(v, itemCount) != v <==> NextAllowed(v, itemCount)
    ensures NextAllowed(v, itemCount) ==> Next(v, itemCount).currentIndex == v.currentIndex + 1
    ensures v.scale != 1.0 ==> Prev(v) == v && Next(v, itemCount) == v
  {
    if PrevAllowed(v) {
      assert Prev(v).currentIndex != v.currentIndex;
    }
    if NextAllowed(v, itemCount) {
      assert Next(v, itemCount).currentIndex != v.currentIndex;
    }
  }

  /** A successful step starts the animation in its direction ('right'
      for prev, 'left' for next), moves by one, resets the zoom and both
      offsets; its timer stops the animation. */
  lemma SuccessfulStepResetsView(v: ViewerState, itemCount: int)
    ensures PrevAllowed(v) ==>
      var w := Prev(v);
      w.slideDirection == SlideRight && w.currentIndex == v.currentIndex - 1 &&
      w.isAnimating && w.slideTimerPending &&
      w.scale == 1.0 && w.position == Origin && w.imagePosition == Origin &&
      SlideTimerFired(w).slideDirection == NoSlide && !SlideTimerFired(w).isAnimating
    ensures NextAllowed(v, itemCount) ==>
      var w := Next(v, itemCount);
      w.slideDirection == SlideLeft && w.currentIndex == v.currentIndex + 1 &&
      w.isAnimating && w.slideTimerPending &&
      w.scale == 1.0 && w.position == Origin && w.imagePosition == Origin &&
      SlideTimerFired(w).slideDirection == NoSlide && !SlideTimerFired(w).isAnimating
  {
  }

  /** Whatever the scale and however soon after the last tap, the end of a
      drag clears the three drag flags and returns the content to rest. */
  lemma DragEndReturnsToRest(v: ViewerState, itemCount: int, last: Point, rect: Rect, now: int)
    requires !v.touch.isZooming && v.touch.isDragging
    ensures var w := TouchEnd(v, itemCount, last, rect, now);
      w.position == Origin && w.dragOffset == 0.0 && w.lastTapTime == now &&
      !w.touch.isDragging && !w.touch.isHorizontalSwipe && !w.touch.isImageDragging
  {
  }

  /** Every touch end that is not the end of a pinch is checked as a
      double tap, a swipe included: at scale 1, within 300 ms of the last
      tap, the view ends at scale 2 even when the swipe navigated, whose
      own reset to scale 1 is overwritten. */
  lemma DoubleTapAfterSwipeZooms(v: ViewerState, itemCount: int, last: Point, rect: Rect, now: int)
    requires !v.touch.isZooming && v.scale == 1.0
    requires 0 < now - v.lastTapTime < DoubleTapWindow
    ensures TouchEnd(v, itemCount, last, rect, now).scale == 2.0
    ensures v.touch.isDragging ==>
      TouchEnd(v, itemCount, last, rect, now).currentIndex == EndDrag(v, itemCount, last).currentIndex
  {
  }

  /** At scale 1, the end of a drag that is not a double tap does what
      the swipe asks (as far as navigation is allowed) and returns the
      content to rest. */
  lemma {:induction false} TouchEndAtScaleOne(v: ViewerState, itemCount: int, last: Point, rect: Rect, now: int)
    requires !v.touch.isZooming && v.touch.isDragging && v.scale == 1.0
    requires !(0 < now - v.lastTapTime < DoubleTapWindow)
    ensures var w := TouchEnd(v, itemCount, last, rect, now);
      var g := SwipeDecision(last.x - v.touch.startPos.x, last.y - v.touch.startPos.y,
                             CanGoPrev(v), CanGoNext(v, itemCount));
      w.position == Origin && w.dragOffset == 0.0 && w.lastTapTime == now &&
      !w.touch.isDragging && !w.touch.isHorizontalSwipe && !w.touch.isImageDragging &&
      w.currentIndex == v.currentIndex + (if g == GoPrev && !v.isAnimating then -1
                                          else if g == GoNext && !v.isAnimating then 1 else 0) &&
      w.closeTimersPending == v.closeTimersPending + (if g == Close then 1 else 0) &&
      (g == Close ==> w.isClosing) &&
      (g == Stay ==> w.scale == v.scale && w.imagePosition == v.imagePosition && w.isClosing == v.isClosing)
  {
    var g := SwipeDecision(last.x - v.touch.startPos.x, last.y - v.touch.startPos.y,
                           CanGoPrev(v), CanGoNext(v, itemCount));
    var w := TouchEnd(v, itemCount, last, rect, now);
    assert w == EndDrag(v, itemCount, last).(lastTapTime := now);
  }

  /** The end of a pinch only clears the zoom flag: no navigation, no
      close, no tap recorded. */
  lemma TouchEndAfterPinch(v: ViewerState, itemCount: int, last: Point, rect: Rect, now: int)
    requires v.touch.isZooming
    ensures TouchEnd(v, itemCount, last, rect, now) == v.(touch := v.touch.(isZooming := false))
  {
  }

  /** A second close before the first timer fires schedules a second
      timer, so `onClose` is called twice. */
  lemma {:induction false} DoubleCloseCallsOnCloseTwice(v: ViewerState)
    requires v.closeTimersPending == 0
    ensures var w := CloseViewer(CloseViewer(v));
      w.closeTimersPending == 2 &&
      CloseTimerFired(CloseTimerFired(w)).onCloseCalls == v.onCloseCalls + 2
  {
    var w := CloseViewer(CloseViewer(v));
    assert w.closeTimersPending == 2;
    assert CloseTimerFired(w).closeTimersPending == 1;
  }

  /** Everything that can happen to an open viewer. */
  datatype Event =
    | PrevPressed
    | NextPressed
    | SlideTimer
    | ClosePressed
    | CloseTimer
    | OverlayClicked(targetIsOverlay: bool)
    | KeyPressed(key: Key)
    | DoubleClicked(clientX: real, clientY: real, rect: Rect)
    | TouchStarted(touchCount: nat, first: Point, distance: real, now: int)
    | TouchMoved(touchCount: nat, first: Point, distance: real, layout: Option<Layout>)
    | TouchEnded(last: Point, rect: Rect, now: int)

  /** One event; a timer event with no timer pending cannot occur and
      changes nothing. */
  function Step(v: ViewerState, itemCount: int, e: Event): ViewerState {
    match e
    case PrevPressed => Prev(v)
    case NextPressed => Next(v, itemCount)
    case SlideTimer => if v.slideTimerPending then SlideTimerFired(v) else v
    case ClosePressed => CloseViewer(v)
    case CloseTimer => if v.closeTimersPending > 0 then CloseTimerFired(v) else v
    case OverlayClicked(onOverlay) => OverlayClick(v, onOverlay)
    case KeyPressed(key) => KeyDown(v, itemCount, true, key)
    case DoubleClicked(x, y, rect) => ZoomToggled(v, x, y, rect)
    case TouchStarted(n, p, d, now) => TouchStart(v, n, p, d, now)
    case TouchMoved(n, p, d, layout) => TouchMove(v, n, p, d, layout)
    case TouchEnded(p, rect, now) => TouchEnd(v, itemCount, p, rect, now)
  }

  function Run(v: ViewerState, itemCount: int, events: seq<Event>): ViewerState
    decreases |events|
  {
    if events == [] then v else Run(Step(v, itemCount, events[0]), itemCount, events[1..])
  }

  lemma StepPreserves(v: ViewerState, itemCount: int, e: Event)
    requires Inv(v)
    ensures Inv(Step(v, itemCount, e))
    ensures IndexInRange(v, itemCount) ==> IndexInRange(Step(v, itemCount, e), itemCount)
  {
  }

  /** Opened on an item, the viewer stays on an item and keeps its
      invariant under any sequence of events: the scale never leaves
      [1, 5] and the slide animation and its timer stay in step. */
  lemma {:induction false} RunPreserves(v: ViewerState, itemCount: int, events: seq<Event>)
    requires Inv(v)
    ensures Inv(Run(v, itemCount, events))
    ensures IndexInRange(v, itemCount) ==> IndexInRange(Run(v, itemCount, events), itemCount)
    decreases |events|
  {
    if events != [] {
      StepPreserves(v, itemCount, events[0]);
      RunPreserves(Step(v, itemCount, events[0]), itemCount, events[1..]);
    }
  }

  /** While zoomed in, no event sequence made only of navigation presses
      and arrow keys moves the viewer. */
  lemma {:induction false} ZoomedInBlocksNavigation(v: ViewerState, itemCount: int, events: seq<Event>)
    requires v.scale != 1.0
    requires forall k :: 0 <= k < |events| ==>
      events[k] in [PrevPressed, NextPressed, KeyPressed(ArrowLeft), KeyPressed(ArrowRight)]
    ensures Run(v, itemCount, events) == v
    decreases |events|
  {
    if events != [] {
      assert events[0] in [PrevPressed, NextPressed, KeyPressed(ArrowLeft), KeyPressed(ArrowRight)];
      assert Step(v, itemCount, events[0]) == v;
      ZoomedInBlocksNavigation(v, itemCount, events[1..]);
    }
  }

  /** The viewer and its state, as held by the component. */
  class Viewer {
    const items: seq<Item>
    var isOpen: bool

    var currentIndex: int
    var isClosing: bool
    var scale: real
    var position: Point
    var dragOffset: real
    var imagePosition: Point
    var slideDirection: SlideDirection
    var isAnimating: bool
    var lastTapTime: int

    var touchStartPos: Point
    var touchStartDistance: real
    var touchStartTime: int
    var touchStartImagePos: Point
    var isDragging: bool
    var isZooming: bool
    var isHorizontalSwipe: bool
    var isImageDragging: bool

    var slideTimerPending: bool
    var closeTimersPending: nat
    var onCloseCalls: nat

    ghost function Model(): ViewerState
      reads this
    {
      ViewerState(currentIndex, isClosing, scale, position, dragOffset, imagePosition,
        slideDirection, isAnimating, lastTapTime,
        Touch(touchStartPos, touchStartDistance, touchStartTime, touchStartImagePos,
              isDragging, isZooming, isHorizontalSwipe, isImageDragging),
        slideTimerPending, closeTimersPending, onCloseCalls)
    }

    ghost predicate Valid()
      reads this
    {
      Inv(Model())
    }

    /** The viewer shows one of its items. */
    ghost predicate OnItem()
      reads this
    {
      0 <= currentIndex < |items|
    }

    constructor (items: seq<Item>, initialIndex: int, isOpen: bool)
      ensures Valid() && Model() == Initial(initialIndex)
      ensures this.items == items && this.isOpen == isOpen
    {
      this.items := items;
      this.isOpen := isOpen;
      currentIndex := initialIndex;
      isClosing := false;
      scale := 1.0;
      position := Origin;
      dragOffset := 0.0;
      imagePosition := Origin;
      slideDirection := NoSlide;
      isAnimating := false;
      lastTapTime := 0;
      touchStartPos := Origin;
      touchStartDistance := 0.0;
      touchStartTime := 0;
      touchStartImagePos := Origin;
      isDragging := false;
      isZooming := false;
      isHorizontalSwipe := false;
      isImageDragging := false;
      slideTimerPending := false;
      closeTimersPending := 0;
      onCloseCalls := 0;
    }

    /** The host opens or closes the viewer. */
    method SetOpen(open: bool)
      requires Valid()
      modifies this
      ensures Valid() && Model() == old(Model()) && isOpen == open
    {
      isOpen := open;
    }

    /** The effect that follows a new `initialIndex`. */
    method InitialIndexChanged(initialIndex: int)
      requires Valid()
      modifies this
      ensures Valid() && Model() == old(Model()).(currentIndex := initialIndex)
      ensures isOpen == old(isOpen)
    {
      currentIndex := initialIndex;
    }

    method HandlePrev()
      requires Valid()
      modifies this
      ensures Valid() && Model() == Prev(old(Model())) && isOpen == old(isOpen)
      ensures old(OnItem()) ==> OnItem()
    {
      if scale == 1.0 && currentIndex > 0 && !isAnimating {
        isAnimating := true;
        slideDirection := SlideRight;
        currentIndex := currentIndex - 1;
        slideTimerPending := true;
        scale := 1.0;
        position := Origin;
        imagePosition := Origin;
      }
    }

    method HandleNext()
      requires Valid()
      modifies this
      ensures Valid() && Model() == Next(old(Model()), |items|) && isOpen == old(isOpen)
      ensures old(OnItem()) ==> OnItem()
    {
      if scale == 1.0 && currentIndex < |items| - 1 && !isAnimating {
        isAnimating := true;
        slideDirection := SlideLeft;
        currentIndex := currentIndex + 1;
        slideTimerPending := true;
        scale := 1.0;
        position := Origin;
        imagePosition := Origin;
      }
    }

    /** The 300 ms timer of a slide. */
    method SlideTimerFires()
      requires Valid() && slideTimerPending
      modifies this
      ensures Valid() && Model() == SlideTimerFired(old(Model())) && isOpen == old(isOpen)
    {
      slideDirection := NoSlide;
      isAnimating := false;
      slideTimerPending := false;
    }

    method HandleClose()
      requires Valid()
      modifies this
      ensures Valid() && Model() == CloseViewer(old(Model())) && isOpen == old(isOpen)
    {
      isClosing := true;
      closeTimersPending := closeTimersPending + 1;
    }

    /** The 300 ms timer of a close. */
    method CloseTimerFires()
      requires Valid() && closeTimersPending > 0
      modifies this
      ensures Valid() && Model() == CloseTimerFired(old(Model())) && isOpen == old(isOpen)
    {
      closeTimersPending := closeTimersPending - 1;
      onCloseCalls := onCloseCalls + 1;
      isClosing := false;
      scale := 1.0;
      position := Origin;
      imagePosition := Origin;
    }

    method HandleOverlayClick(targetIsOverlay: bool)
      requires Valid()
      modifies this
      ensures Valid() && Model() == OverlayClick(old(Model()), targetIsOverlay) && isOpen == old(isOpen)
    {
      if targetIsOverlay {
        HandleClose();
      }
    }

    method HandleKeyDown(key: Key)
      requires Valid()
      modifies this
      ensures Valid() && Model() == KeyDown(old(Model()), |items|, old(isOpen), key) && isOpen == old(isOpen)
      ensures old(OnItem()) ==> OnItem()
    {
      if isOpen {
        if key == Escape {
          HandleClose();
        }
        if key == ArrowLeft && currentIndex > 0 {
          HandlePrev();
        }
        if key == ArrowRight && currentIndex < |items| - 1 {
          HandleNext();
        }
      }
    }

    /** `handleDoubleClick` and `handleDoubleTap`, which share one body. */
    method HandleDoubleClick(clientX: real, clientY: real, rect: Rect)
      requires Valid()
      modifies this
      ensures Valid() && Model() == ZoomToggled(old(Model()), clientX, clientY, rect) && isOpen == old(isOpen)
    {
      if scale == 1.0 {
        var x := clientX - rect.left;
        var y := clientY - rect.top;
        scale := 2.0;
        imagePosition := Point((rect.width / 2.0 - x) * 0.5, (rect.height / 2.0 - y) * 0.5);
      } else {
        scale := 1.0;
        imagePosition := Origin;
      }
    }

    method HandleTouchStart(touchCount: nat, first: Point, distance: real, now: int)
      requires Valid()
      modifies this
      ensures Valid() && Model() == TouchStart(old(Model()), touchCount, first, distance, now)
      ensures isOpen == old(isOpen)
    {
      if touchCount == 2 {
        isHorizontalSwipe := false;
        isZooming := true;
        isDragging := false;
        isImageDragging := false;
        touchStartDistance := distance;
        return;
      }
      isDragging := true;
      isImageDragging := scale > 1.0;
      isHorizontalSwipe := false;
      touchStartPos := first;
      touchStartImagePos := imagePosition;
      touchStartTime := now;
    }

    method HandleTouchMove(touchCount: nat, first: Point, distance: real, layout: Option<Layout>)
      requires Valid()
      modifies this
      ensures Valid() && Model() == TouchMove(old(Model()), touchCount, first, distance, layout)
      ensures isOpen == old(isOpen)
    {
      if touchCount == 2 && isZooming {
        PinchMove(distance, layout);
        return;
      }
      if isDragging && touchCount == 1 {
        if isImageDragging && scale > 1.0 {
          PanMove(first, layout);
          return;
        }
        DragMove(first);
      }
    }

    method PinchMove(distance: real, layout: Option<Layout>)
      requires Valid()
      modifies this
      ensures Valid() && Model() == Pinched(old(Model()), distance, layout) && isOpen == old(isOpen)
    {
      var newScale := PinchScale(scale, distance, touchStartDistance);
      imagePosition := ConstrainImagePosition(imagePosition, newScale, layout);
      scale := newScale;
      touchStartDistance := distance;
    }

    method PanMove(first: Point, layout: Option<Layout>)
      requires Valid()
      modifies this
      ensures Valid() && Model() == ImagePanned(old(Model()), first, layout) && isOpen == old(isOpen)
    {
      var deltaX := first.x - touchStartPos.x;
      var deltaY := first.y - touchStartPos.y;
      var newPos := Point(touchStartImagePos.x + deltaX, touchStartImagePos.y + deltaY);
      imagePosition := ConstrainImagePosition(newPos, scale, layout);
    }

    method DragMove(first: Point)
      requires Valid()
      modifies this
      ensures Valid() && Model() == Dragged(old(Model()), first) && isOpen == old(isOpen)
    {
      var deltaX := first.x - touchStartPos.x;
      var deltaY := first.y - touchStartPos.y;
      if !isHorizontalSwipe && Abs(deltaX) > ImageDragThreshold {
        isHorizontalSwipe := true;
      }
      if scale == 1.0 {
        if isHorizontalSwipe {
          position := Point(deltaX, 0.0);
        } else {
          dragOffset := deltaY;
        }
      }
    }

    method HandleTouchEnd(last: Point, rect: Rect, now: int)
      requires Valid()
      modifies this
      ensures Valid() && Model() == TouchEnd(old(Model()), |items|, last, rect, now)
      ensures isOpen == old(isOpen)
      ensures old(OnItem()) ==> OnItem()
    {
      if isZooming {
        isZooming := false;
        return;
      }
      // The render's values, which every call below still sees.
      var renderScale := scale;
      var renderLastTap := lastTapTime;
      if isDragging {
        EndTouchDrag(last);
      }
      var tapLength := now - renderLastTap;
      if 0 < tapLength < DoubleTapWindow {
        var z := ZoomToggle(renderScale, last.x, last.y, rect);
        scale := z.scale;
        imagePosition := z.offset;
      }
      lastTapTime := now;
    }

    /** The `isDragging` branch of `handleTouchEnd`. */
    method EndTouchDrag(last: Point)
      requires Valid()
      modifies this
      ensures Valid() && Model() == EndDrag(old(Model()), |items|, last) && isOpen == old(isOpen)
      ensures old(OnItem()) ==> OnItem()
    {
      var deltaX := last.x - touchStartPos.x;
      var deltaY := last.y - touchStartPos.y;
      ClearDragFlags();
      FollowSwipe(deltaX, deltaY);
      ReturnToRest();
    }

    method ClearDragFlags()
      requires Valid()
      modifies this
      ensures Valid() && Model() == DragFlagsCleared(old(Model())) && isOpen == old(isOpen)
      ensures currentIndex == old(currentIndex)
    {
      isDragging := false;
      isHorizontalSwipe := false;
      isImageDragging := false;
    }

    method ReturnToRest()
      requires Valid()
      modifies this
      ensures Valid() && Model() == AtRest(old(Model())) && isOpen == old(isOpen)
      ensures currentIndex == old(currentIndex)
    {
      position := Origin;
      dragOffset := 0.0;
    }

    /** The navigation or close a finished drag asks for. */
    method FollowSwipe(deltaX: real, deltaY: real)
      requires Valid()
      modifies this
      ensures Valid() && Model() == SwipeOutcome(old(Model()), |items|, deltaX, deltaY) && isOpen == old(isOpen)
      ensures old(OnItem()) ==> OnItem()
    {
      if scale == 1.0 {
        var isHorizontal := Abs(deltaX) > Abs(deltaY);
        if isHorizontal {
          if deltaX > SwipeThreshold && currentIndex > 0 {
            HandlePrev();
          } else if deltaX < -SwipeThreshold && currentIndex < |items| - 1 {
            HandleNext();
          }
        } else if Abs(deltaY) > CloseThreshold {
          HandleClose();
        }
      }
    }
  }

  /** Three items, opened on the middle one: prev reaches the first item
      and stops there; next twice reaches the last and stops there. */
  method ThreeItemScenario(items: seq<Item>)
    requires |items| == 3
  {
    var viewer := new Viewer(items, 1, true);
    viewer.HandlePrev();
    assert viewer.currentIndex == 0;
    viewer.SlideTimerFires();
    viewer.HandlePrev();
    assert viewer.currentIndex == 0;
    viewer.HandleNext();
    viewer.SlideTimerFires();
    viewer.HandleNext();
    assert viewer.currentIndex == 2;
    viewer.SlideTimerFires();
    viewer.HandleNext();
    assert viewer.currentIndex == 2;
  }
}
