/**
 * The `SideMenu` component as an object: its instance fields, its `state`,
 * the animated value it drives and the log of calls it makes are fields that
 * the handlers update in place.  Each handler is proved to perform the
 * transition of the same name in module Drawer and to keep the invariant
 * `Drawer.Consistent`.
 */
module SideMenuComponent {
  import opened Drawer
  import DrawerProperties

  class SideMenu {
    const deviceScreen: Screen
    var props: Props
    var prevLeft: real
    var isOpen: bool
    var isAnimating: bool
    var state: Geometry
    var leftAnimatedValue: real
    var effects: seq<Effect>

    /** The session these fields hold. */
    function Model(): Session
      reads this
    {
      Session(prevLeft, isOpen, isAnimating, leftAnimatedValue, state, props, effects)
    }

    ghost predicate Valid()
      reads this
    {
      Consistent(Model())
    }

    /** Offsets become percentages of the screen width; the session starts at rest. */
    constructor (deviceScreen: Screen, props: Props, initialValue: real)
      requires deviceScreen.width != 0.0
      ensures Valid() && this.deviceScreen == deviceScreen
      ensures Model() == InitialSession(deviceScreen, props, initialValue)
    {
      this.deviceScreen := deviceScreen;
      this.props := props;
      prevLeft := 0.0;
      isOpen := props.isOpen == Some(true);
      isAnimating := false;
      var openOffsetMenuPercentage := props.openMenuOffset / deviceScreen.width;
      var hiddenMenuOffsetPercentage := props.hiddenMenuOffset / deviceScreen.width;
      state := Geometry(deviceScreen.width, deviceScreen.height,
                        openOffsetMenuPercentage, deviceScreen.width * openOffsetMenuPercentage,
                        hiddenMenuOffsetPercentage, deviceScreen.width * hiddenMenuOffsetPercentage);
      leftAnimatedValue := initialValue;
      effects := [];
      new;
      DrawerProperties.InitialConsistent(deviceScreen, props, initialValue);
    }

    /** `handleMoveShouldSetPanResponder`: reads the fields, changes nothing. */
    method HandleMoveShouldSetPanResponder(g: Gesture, callbackSaysDisabled: bool) returns (claimed: bool)
      ensures claimed == ShouldClaim(Model(), deviceScreen, g, callbackSaysDisabled)
    {
      if !GesturesAreEnabled(props.disableGestures, callbackSaysDisabled) {
        return false;
      }
      var x := Round(Abs(g.dx));
      var y := Round(Abs(g.dy));
      var touchMoved := x as real > props.toleranceX && y as real < props.toleranceY;
      if isOpen {
        return touchMoved;
      }
      var withinEdgeHitWidth :=
        if props.menuPosition == Right then g.moveX > deviceScreen.width - props.edgeHitWidth
        else g.moveX < props.edgeHitWidth;
      var swipingToOpen := Multiplier(props.menuPosition) * g.dx > 0.0;
      claimed := withinEdgeHitWidth && touchMoved && swipingToOpen;
    }

    /** `moveLeft`. */
    method MoveLeft(offset: real)
      requires Valid()
      modifies this
      ensures Valid()
      ensures Model() == Drawer.MoveLeft(old(Model()), offset)
    {
      ghost var after := Drawer.MoveLeft(Model(), offset);
      DrawerProperties.MoveLeftConsistent(Model(), offset);
      var newOffset := Multiplier(props.menuPosition) * offset;
      isAnimating := true;
      effects := effects + [Animate(newOffset)];
      prevLeft := newOffset;
      assert Model() == after;
    }

    /** `openMenu`. */
    method OpenMenu(isOpen: bool)
      requires Valid()
      modifies this
      ensures Valid()
      ensures Model() == Drawer.OpenMenu(old(Model()), isOpen)
    {
      DrawerProperties.OpenMenuConsistent(Model(), isOpen);
      MoveLeft(if isOpen then state.openMenuOffset else state.hiddenMenuOffset);
      this.isOpen := isOpen;
      effects := effects + [OnChange(isOpen)];
    }

    /** `handleAnimationComplete`: the start callback of every animation. */
    method HandleAnimationComplete()
      requires Valid()
      modifies this
      ensures Valid()
      ensures Model() == AnimationComplete(old(Model()))
    {
      DrawerProperties.AnimationCompleteConsistent(Model());
      isAnimating := false;
      if props.hasAnimationCompleteHandler {
        effects := effects + [OnAnimationComplete(isOpen)];
      }
    }

    /** The animation engine writes an intermediate or final value. */
    method SetAnimatedValue(value: real)
      requires Valid()
      modifies this
      ensures Valid()
      ensures Model() == old(Model()).(live := value)
    {
      DrawerProperties.StepConsistent(Model(), deviceScreen, AnimationFrame(value));
      leftAnimatedValue := value;
    }

    /** `handlePanResponderMove`. */
    method HandlePanResponderMove(dx: real)
      requires Valid()
      modifies this
      ensures Valid()
      ensures Model() == DragMove(old(Model()), dx)
    {
      ghost var after := DragMove(Model(), dx);
      DrawerProperties.DragMoveConsistent(Model(), dx);
      if leftAnimatedValue * Multiplier(props.menuPosition) >= 0.0 {
        var newLeft := prevLeft + dx;
        if !props.bounceBackOnOverdraw && Abs(newLeft) > state.openMenuOffset {
          newLeft := Multiplier(props.menuPosition) * state.openMenuOffset;
        }
        assert newLeft == after.live;
        effects := effects + [OnMove(newLeft)];
        leftAnimatedValue := newLeft;
      }
      assert Model() == after;
    }

    /** `handlePanResponderEnd`: release and termination alike. */
    method HandlePanResponderEnd(dx: real)
      requires Valid()
      modifies this
      ensures Valid()
      ensures Model() == DragEnd(old(Model()), deviceScreen, dx)
    {
      var offsetLeft := Multiplier(props.menuPosition) * (leftAnimatedValue + dx);
      OpenMenu(ShouldOpenMenu(deviceScreen, offsetLeft));
    }

    /** `UNSAFE_componentWillReceiveProps`, then the new props take effect. */
    method ComponentWillReceiveProps(next: Props)
      requires Valid()
      modifies this
      ensures Valid()
      ensures Model() == ReceiveProps(old(Model()), next)
    {
      DrawerProperties.ReceivePropsConsistent(Model(), next);
      if next.isOpen.Some? && isOpen != next.isOpen.value && !isAnimating &&
         (next.autoClosing || !isOpen)
      {
        OpenMenu(next.isOpen.value);
      }
      props := next;
    }

    /** The overlay's `onPress`; the overlay is rendered only while the menu is open. */
    method HandleOverlayPress()
      requires Valid()
      modifies this
      ensures Valid()
      ensures Model() == Step(old(Model()), deviceScreen, OverlayTap)
    {
      if isOpen {
        OpenMenu(false);
      }
    }

    /** `onLayoutChange`. */
    method OnLayoutChange(width: real, height: real)
      requires Valid()
      modifies this
      ensures Valid()
      ensures Model() == LayoutChange(old(Model()), width, height)
    {
      DrawerProperties.StepConsistent(Model(), deviceScreen, Layout(width, height));
      var openMenuOffset := width * state.openOffsetMenuPercentage;
      var hiddenMenuOffset := width * state.hiddenMenuOffsetPercentage;
      state := state.(width := width, height := height,
                      openMenuOffset := openMenuOffset, hiddenMenuOffset := hiddenMenuOffset);
    }
  }
}
