/**
 * The gesture-to-offset state machine of the `SideMenu` component, written as
 * values: the configuration (`Props`), the layout-derived geometry, the session
 * fields, and one transition function per event handler.  The class in
 * side_menu.dfy is proved to perform exactly these transitions.
 *
 * Pixel quantities are reals.  Outgoing calls (the animation request and the
 * `onChange`/`onMove`/`onAnimationComplete` callbacks) are recorded, in order,
 * in the session's `effects` log.
 */
module Drawer {

  datatype Option<T> = None | Some(value: T)

  /** The screen edge the menu is anchored to. */
  datatype MenuPosition = Left | Right

  /**
   * `disableGestures` is either a fixed flag or a callback; the callback's
   * answer at the moment of a query is passed to the query as an input.
   */
  datatype GestureSwitch = Flag(disabled: bool) | Callback

  /** The window dimensions sampled once when the module loads. */
  datatype Screen = Screen(width: real, height: real)

  /** The configuration the component is rendered with (its props). */
  datatype Props = Props(
    edgeHitWidth: real,
    toleranceX: real,
    toleranceY: real,
    menuPosition: MenuPosition,
    openMenuOffset: real,
    hiddenMenuOffset: real,
    disableGestures: GestureSwitch,
    hasAnimationCompleteHandler: bool,
    isOpen: Option<bool>,            // None: the prop is undefined
    bounceBackOnOverdraw: bool,
    autoClosing: bool)

  /** The component's `state`: layout size and the offsets derived from it. */
  datatype Geometry = Geometry(
    width: real,
    height: real,
    openOffsetMenuPercentage: real,
    openMenuOffset: real,
    hiddenMenuOffsetPercentage: real,
    hiddenMenuOffset: real)

  /** One outgoing call, in the order the component makes it. */
  datatype Effect =
    | Animate(target: real)                 // animationFunction(value, target).start(...)
    | OnMove(offset: real)
    | OnChange(isOpen: bool)
    | OnAnimationComplete(isOpen: bool)

  /**
   * Everything the component mutates: the three instance fields, the animated
   * value (`live`), the `state`, the current props and the log of calls made.
   */
  datatype Session = Session(
    prevLeft: real,
    isOpen: bool,
    isAnimating: bool,
    live: real,
    state: Geometry,
    props: Props,
    effects: seq<Effect>)

  /** The part of a pan-responder gesture state the arbiter reads. */
  datatype Gesture = Gesture(dx: real, dy: real, moveX: real)

  /** The events the component reacts to. */
  datatype Event =
    | GestureMove(dx: real)                 // onPanResponderMove
    | GestureEnd(dx: real)                  // onPanResponderRelease / onPanResponderTerminate
    | AnimationSettled                      // the animation's start callback fires
    | AnimationFrame(value: real)           // the animation engine writes the value
    | NewProps(next: Props)                 // UNSAFE_componentWillReceiveProps
    | Layout(width: real, height: real)     // onLayout
    | OverlayTap                            // onPress of the overlay rendered over an open menu

  function Abs(x: real): (r: real)
    ensures r >= 0.0 && (r == x || r == -x)
  {
    if x < 0.0 then -x else x
  }

  /** `Math.round`: the nearest integer, halves rounded up. */
  function Round(x: real): (r: int)
    ensures r as real - 0.5 <= x < r as real + 0.5
  {
    (x + 0.5).Floor
  }

  /** `menuPositionMultiplier`: +1 for a left menu, -1 for a right one. */
  function Multiplier(pos: MenuPosition): (m: real)
    ensures m * m == 1.0
    ensures m > 0.0 <==> pos == Left
  {
    match pos
    case Right => -1.0
    case Left => 1.0
  }

  /** `gesturesAreEnabled`. */
  function GesturesAreEnabled(switch: GestureSwitch, callbackSaysDisabled: bool): (enabled: bool)
    ensures enabled <==> switch == Flag(false) || (switch == Callback && !callbackSaysDisabled)
  {
    match switch
    case Callback => !callbackSaysDisabled
    case Flag(disabled) => !disabled
  }

  /** A predominantly horizontal movement: past `toleranceX`, under `toleranceY`. */
  function TouchMoved(p: Props, g: Gesture): (moved: bool)
    ensures moved ==> Abs(g.dx) > p.toleranceX - 0.5 && Abs(g.dy) < p.toleranceY + 0.5
    ensures Abs(g.dx) >= p.toleranceX + 0.5 && Abs(g.dy) < p.toleranceY - 0.5 ==> moved
  {
    Round(Abs(g.dx)) as real > p.toleranceX && Round(Abs(g.dy)) as real < p.toleranceY
  }

  /** The edge band; it is measured against the screen width, not the layout width. */
  function WithinEdgeHitWidth(p: Props, screen: Screen, moveX: real): (within: bool)
    ensures within <==>
      (if p.menuPosition == Right then screen.width - moveX else moveX) < p.edgeHitWidth
  {
    if p.menuPosition == Right then moveX > screen.width - p.edgeHitWidth
    else moveX < p.edgeHitWidth
  }

  /** `handleMoveShouldSetPanResponder`: does the component claim this move? */
  function ShouldClaim(s: Session, screen: Screen, g: Gesture, callbackSaysDisabled: bool): (claimed: bool)
    ensures claimed ==> GesturesAreEnabled(s.props.disableGestures, callbackSaysDisabled)
    ensures claimed ==> TouchMoved(s.props, g)
  {
    if GesturesAreEnabled(s.props.disableGestures, callbackSaysDisabled) then
      var touchMoved := TouchMoved(s.props, g);
      if s.isOpen then touchMoved
      else
        var withinEdgeHitWidth := WithinEdgeHitWidth(s.props, screen, g.moveX);
        var swipingToOpen := Multiplier(s.props.menuPosition) * g.dx > 0.0;
        withinEdgeHitWidth && touchMoved && swipingToOpen
    else
      false
  }

  /** The offset a drag sample asks for, before it is written to the animated value. */
  function TranslatedOffset(p: Props, g: Geometry, prevLeft: real, dx: real): (newLeft: real)
    ensures p.bounceBackOnOverdraw ==> newLeft == prevLeft + dx
    ensures Abs(prevLeft + dx) <= g.openMenuOffset ==> newLeft == prevLeft + dx
    ensures !p.bounceBackOnOverdraw && g.openMenuOffset >= 0.0 ==> Abs(newLeft) <= g.openMenuOffset
    ensures !p.bounceBackOnOverdraw && Abs(prevLeft + dx) > g.openMenuOffset ==>
      newLeft == Multiplier(p.menuPosition) * g.openMenuOffset
  {
    var newLeft := prevLeft + dx;
    if !p.bounceBackOnOverdraw && Abs(newLeft) > g.openMenuOffset then
      Multiplier(p.menuPosition) * g.openMenuOffset
    else
      newLeft
  }

  /** `handlePanResponderMove`: track the drag 1:1 unless the value is on the wrong side. */
  function DragMove(s: Session, dx: real): (t: Session)
    ensures t.prevLeft == s.prevLeft && t.isOpen == s.isOpen && t.isAnimating == s.isAnimating
    ensures t.state == s.state && t.props == s.props
    ensures s.live * Multiplier(s.props.menuPosition) < 0.0 ==> t == s
    ensures s.live * Multiplier(s.props.menuPosition) >= 0.0 ==>
      t.live == TranslatedOffset(s.props, s.state, s.prevLeft, dx) && t.effects == s.effects + [OnMove(t.live)]
  {
    if s.live * Multiplier(s.props.menuPosition) >= 0.0 then
      var newLeft := TranslatedOffset(s.props, s.state, s.prevLeft, dx);
      s.(effects := s.effects + [OnMove(newLeft)], live := newLeft)
    else
      s
  }

  /** The fixed hysteresis barrier: a quarter of the screen width. */
  function BarrierForward(screen: Screen): (barrier: real)
    ensures 4.0 * barrier == screen.width
  {
    screen.width / 4.0
  }

  /** `shouldOpenMenu`. */
  function ShouldOpenMenu(screen: Screen, offsetLeft: real): (open: bool)
    ensures open <==> 4.0 * offsetLeft > screen.width
  {
    offsetLeft > BarrierForward(screen)
  }

  /** `moveLeft`: start the settle animation and rebase the drag baseline on its target. */
  function MoveLeft(s: Session, offset: real): (t: Session)
    ensures t.isAnimating
    ensures t.prevLeft == Multiplier(s.props.menuPosition) * offset
    ensures t.effects == s.effects + [Animate(t.prevLeft)]
    ensures t.isOpen == s.isOpen && t.live == s.live && t.state == s.state && t.props == s.props
  {
    var newOffset := Multiplier(s.props.menuPosition) * offset;
    s.(isAnimating := true, effects := s.effects + [Animate(newOffset)], prevLeft := newOffset)
  }

  /** `openMenu`: the single path by which the logical open/closed state changes. */
  function OpenMenu(s: Session, isOpen: bool): (t: Session)
    ensures t.isOpen == isOpen && t.isAnimating
    ensures t.prevLeft == Multiplier(s.props.menuPosition) *
      (if isOpen then s.state.openMenuOffset else s.state.hiddenMenuOffset)
    ensures t.effects == s.effects + [Animate(t.prevLeft), OnChange(isOpen)]
    ensures t.live == s.live && t.state == s.state && t.props == s.props
  {
    var moved := MoveLeft(s, if isOpen then s.state.openMenuOffset else s.state.hiddenMenuOffset);
    moved.(isOpen := isOpen, effects := moved.effects + [OnChange(isOpen)])
  }

  /** `handlePanResponderEnd`: resolve the gesture by the quarter-screen barrier. */
  function DragEnd(s: Session, screen: Screen, dx: real): (t: Session)
    ensures t.isOpen <==> Multiplier(s.props.menuPosition) * (s.live + dx) > screen.width / 4.0
    ensures t.isAnimating
    ensures t.prevLeft == Multiplier(s.props.menuPosition) *
      (if t.isOpen then s.state.openMenuOffset else s.state.hiddenMenuOffset)
    ensures t.effects == s.effects + [Animate(t.prevLeft), OnChange(t.isOpen)]
    ensures t.live == s.live && t.state == s.state && t.props == s.props
  {
    var offsetLeft := Multiplier(s.props.menuPosition) * (s.live + dx);
    OpenMenu(s, ShouldOpenMenu(screen, offsetLeft))
  }

  /** `handleAnimationComplete`: no check that the completing animation is the latest one. */
  function AnimationComplete(s: Session): (t: Session)
    ensures !t.isAnimating
    ensures t.effects == s.effects +
      (if s.props.hasAnimationCompleteHandler then [OnAnimationComplete(s.isOpen)] else [])
    ensures t.(isAnimating := s.isAnimating, effects := s.effects) == s
  {
    var settled := s.(isAnimating := false);
    if s.props.hasAnimationCompleteHandler then
      settled.(effects := settled.effects + [OnAnimationComplete(s.isOpen)])
    else
      settled
  }

  /** The gate an external `isOpen` prop passes before it moves the menu. */
  function ExternalRequestHonored(s: Session, next: Props): (honored: bool)
    ensures honored ==> next.isOpen.Some? && next.isOpen.value != s.isOpen && !s.isAnimating
    ensures honored && s.isOpen ==> next.autoClosing
    ensures next.isOpen.Some? && next.isOpen.value != s.isOpen && !s.isAnimating && !s.isOpen ==> honored
  {
    next.isOpen.Some? && s.isOpen != next.isOpen.value && !s.isAnimating &&
    (next.autoClosing || !s.isOpen)
  }

  /**
   * `UNSAFE_componentWillReceiveProps` followed by the props replacement: the
   * request is acted on with the current props, then `next` becomes current.
   */
  function ReceiveProps(s: Session, next: Props): (t: Session)
    ensures t.props == next && t.state == s.state && t.live == s.live
    ensures ExternalRequestHonored(s, next) ==>
      t.isOpen == next.isOpen.value && t.isAnimating &&
      t.prevLeft == Multiplier(s.props.menuPosition) *
        (if next.isOpen.value then s.state.openMenuOffset else s.state.hiddenMenuOffset) &&
      t.effects == s.effects + [Animate(t.prevLeft), OnChange(next.isOpen.value)]
    ensures !ExternalRequestHonored(s, next) ==> t == s.(props := next)
  {
    var acted := if ExternalRequestHonored(s, next) then OpenMenu(s, next.isOpen.value) else s;
    acted.(props := next)
  }

  /** Both offsets agree with the percentages for the stored width. */
  ghost predicate GeometryConsistent(g: Geometry)
  {
    g.openMenuOffset == g.width * g.openOffsetMenuPercentage &&
    g.hiddenMenuOffset == g.width * g.hiddenMenuOffsetPercentage
  }

  /** `onLayoutChange`: recompute both offsets from the one new width. */
  function LayoutChange(s: Session, width: real, height: real): (t: Session)
    ensures t.state.width == width && t.state.height == height
    ensures GeometryConsistent(t.state)
    ensures t.state.openOffsetMenuPercentage == s.state.openOffsetMenuPercentage
    ensures t.state.hiddenMenuOffsetPercentage == s.state.hiddenMenuOffsetPercentage
    ensures t.(state := s.state) == s
  {
    var openMenuOffset := width * s.state.openOffsetMenuPercentage;
    var hiddenMenuOffset := width * s.state.hiddenMenuOffsetPercentage;
    s.(state := s.state.(width := width, height := height,
                         openMenuOffset := openMenuOffset, hiddenMenuOffset := hiddenMenuOffset))
  }

  /** The constructor: offsets become percentages of the screen width. */
  function InitialSession(screen: Screen, props: Props, initialValue: real): (s: Session)
    requires screen.width != 0.0
    ensures s.prevLeft == 0.0 && !s.isAnimating && s.isOpen == (props.isOpen == Some(true))
    ensures s.state.width == screen.width && s.state.height == screen.height
    ensures s.state.openMenuOffset == props.openMenuOffset
    ensures s.state.hiddenMenuOffset == props.hiddenMenuOffset
    ensures GeometryConsistent(s.state)
    ensures s.live == initialValue && s.props == props && s.effects == []
  {
    var openOffsetMenuPercentage := props.openMenuOffset / screen.width;
    var hiddenMenuOffsetPercentage := props.hiddenMenuOffset / screen.width;
    Session(0.0, props.isOpen == Some(true), false, initialValue,
      Geometry(screen.width, screen.height,
               openOffsetMenuPercentage, screen.width * openOffsetMenuPercentage,
               hiddenMenuOffsetPercentage, screen.width * hiddenMenuOffsetPercentage),
      props, [])
  }

  /** The value reported to `onSliding` for an animated value; there is no zero guard. */
  function SlideProgress(g: Geometry, value: real): (progress: real)
    requires g.openMenuOffset != g.hiddenMenuOffset
    ensures progress >= 0.0
    ensures progress * Abs(g.openMenuOffset - g.hiddenMenuOffset) == Abs(value - g.hiddenMenuOffset)
  {
    Abs((value - g.hiddenMenuOffset) / (g.openMenuOffset - g.hiddenMenuOffset))
  }

  /** The target of the most recent animation request, if any. */
  function LastAnimationTarget(effects: seq<Effect>): (t: Option<real>)
    ensures t.Some? ==> Animate(t.value) in effects
    ensures t.None? ==> forall i :: 0 <= i < |effects| ==> !effects[i].Animate?
  {
    if effects == [] then None
    else if effects[|effects| - 1].Animate? then Some(effects[|effects| - 1].target)
    else LastAnimationTarget(effects[..|effects| - 1])
  }

  /** The state most recently reported to `onChange`, if any. */
  function LastReported(effects: seq<Effect>): (r: Option<bool>)
    ensures r.Some? ==> OnChange(r.value) in effects
    ensures r.None? ==> forall i :: 0 <= i < |effects| ==> !effects[i].OnChange?
  {
    if effects == [] then None
    else if effects[|effects| - 1].OnChange? then Some(effects[|effects| - 1].isOpen)
    else LastReported(effects[..|effects| - 1])
  }

  /**
   * What every reachable session satisfies: the geometry is consistent, the
   * drag baseline is the target of the latest animation (0 before any), an
   * animation is in flight only after one was requested, and `onChange` last
   * reported the current `isOpen`.
   */
  ghost predicate Consistent(s: Session)
  {
    GeometryConsistent(s.state) &&
    s.prevLeft == (match LastAnimationTarget(s.effects) case None => 0.0 case Some(t) => t) &&
    (s.isAnimating ==> LastAnimationTarget(s.effects).Some?) &&
    (LastReported(s.effects).Some? ==> LastReported(s.effects).value == s.isOpen)
  }

  /** The handler each event reaches. */
  function Step(s: Session, screen: Screen, e: Event): Session
  {
    match e
    case GestureMove(dx) => DragMove(s, dx)
    case GestureEnd(dx) => DragEnd(s, screen, dx)
    case AnimationSettled => AnimationComplete(s)
    case AnimationFrame(value) => s.(live := value)
    case NewProps(next) => ReceiveProps(s, next)
    case Layout(width, height) => LayoutChange(s, width, height)
    case OverlayTap => if s.isOpen then OpenMenu(s, false) else s
  }

  /** The session after a sequence of events, handled one at a time. */
  function Run(s: Session, screen: Screen, events: seq<Event>): Session
    decreases |events|
  {
    if events == [] then s else Run(Step(s, screen, events[0]), screen, events[1..])
  }
}
