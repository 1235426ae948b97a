/**
 * Properties of the drawer state machine: what the gesture arbiter claims,
 * how drags are translated and resolved, how external requests are gated,
 * and the invariant every sequence of events preserves.
 */
module DrawerProperties {
  import opened Drawer

  // ---------------------------------------------------------------------------
  // Gesture arbiter

  /** With gestures disabled, by flag or by callback, no move is ever claimed. */
  lemma DisabledNeverClaims(s: Session, screen: Screen, g: Gesture, callbackSaysDisabled: bool)
    requires s.props.disableGestures == Flag(true) ||
             (s.props.disableGestures == Callback && callbackSaysDisabled)
    ensures !ShouldClaim(s, screen, g, callbackSaysDisabled)
  {
  }

  /**
   * While open, a move is claimed exactly when it is predominantly horizontal;
   * where it happens on the screen plays no part.
   */
  lemma ClaimWhileOpen(s: Session, screen: Screen, g: Gesture, callbackSaysDisabled: bool, otherX: real)
    requires s.isOpen && GesturesAreEnabled(s.props.disableGestures, callbackSaysDisabled)
    ensures ShouldClaim(s, screen, g, callbackSaysDisabled) <==>
      Round(Abs(g.dx)) as real > s.props.toleranceX && Round(Abs(g.dy)) as real < s.props.toleranceY
    ensures ShouldClaim(s, screen, g.(moveX := otherX), callbackSaysDisabled) ==
            ShouldClaim(s, screen, g, callbackSaysDisabled)
  {
  }

  /**
   * While closed, a move is claimed exactly when it is predominantly
   * horizontal, starts inside the edge band of the menu's edge (measured on
   * the screen width) and points away from that edge.
   */
  lemma ClaimWhileClosed(s: Session, screen: Screen, g: Gesture, callbackSaysDisabled: bool)
    requires !s.isOpen && GesturesAreEnabled(s.props.disableGestures, callbackSaysDisabled)
    ensures ShouldClaim(s, screen, g, callbackSaysDisabled) <==>
      TouchMoved(s.props, g) &&
      (if s.props.menuPosition == Left then g.moveX < s.props.edgeHitWidth && g.dx > 0.0
       else g.moveX > screen.width - s.props.edgeHitWidth && g.dx < 0.0)
  {
  }

  /**
   * With integral tolerances, `Math.round` makes a movement horizontal exactly
   * when |dx| reaches toleranceX + 1/2 and |dy| stays under toleranceY - 1/2.
   */
  lemma TouchMovedThresholds(p: Props, g: Gesture, tx: int, ty: int)
    requires p.toleranceX == tx as real && p.toleranceY == ty as real
    ensures TouchMoved(p, g) <==> Abs(g.dx) >= tx as real + 0.5 && Abs(g.dy) < ty as real - 0.5
  {
    var x, y := Round(Abs(g.dx)), Round(Abs(g.dy));
    assert x > tx <==> x >= tx + 1;
    assert y < ty <==> y <= ty - 1;
  }

  /** A right menu claims the mirror image of what a left menu claims. */
  lemma ClaimMirror(s: Session, screen: Screen, g: Gesture, callbackSaysDisabled: bool)
    requires s.props.menuPosition == Right
    ensures ShouldClaim(s, screen, g, callbackSaysDisabled) ==
      ShouldClaim(s.(props := s.props.(menuPosition := Left)), screen,
                  Gesture(-g.dx, g.dy, screen.width - g.moveX), callbackSaysDisabled)
  {
  }

  /** The edge band is not checked on an open menu: a swipe anywhere can close it. */
  lemma EdgeGatingExample(s: Session, screen: Screen)
    requires s.props.menuPosition == Left && s.props.edgeHitWidth == 60.0
    requires s.props.toleranceX == 10.0 && s.props.toleranceY == 10.0
    requires s.props.disableGestures == Flag(false)
    ensures !s.isOpen ==> !ShouldClaim(s, screen, Gesture(20.0, 0.0, 100.0), false)
    ensures !s.isOpen ==> ShouldClaim(s, screen, Gesture(20.0, 0.0, 30.0), false)
    ensures s.isOpen ==> ShouldClaim(s, screen, Gesture(15.0, 0.0, 100.0), false)
  {
  }

  // ---------------------------------------------------------------------------
  // Offset translator

  /** A right menu translates the mirror image of what a left menu translates. */
  lemma TranslateMirror(p: Props, g: Geometry, prevLeft: real, dx: real)
    requires p.menuPosition == Right
    ensures TranslatedOffset(p, g, -prevLeft, -dx) ==
            -TranslatedOffset(p.(menuPosition := Left), g, prevLeft, dx)
  {
  }

  /**
   * The overdraw clamp tests |newLeft|, so a single sample far past the
   * closed position on the wrong side lands on the fully open offset.
   */
  lemma OverdrawClampIgnoresSide(p: Props, g: Geometry)
    requires p.menuPosition == Left && !p.bounceBackOnOverdraw && g.openMenuOffset == 200.0
    ensures TranslatedOffset(p, g, 200.0, -450.0) == 200.0
  {
  }

  /** With overdraw clamping, a drag step leaves the value within the open offset. */
  lemma DragMoveBounded(s: Session, dx: real)
    requires !s.props.bounceBackOnOverdraw && s.state.openMenuOffset >= 0.0
    requires s.live * Multiplier(s.props.menuPosition) >= 0.0
    ensures Abs(DragMove(s, dx).live) <= s.state.openMenuOffset
  {
  }

  /**
   * A drag step is measured from the baseline, not from the previous sample:
   * after any history of moves, the last sample alone decides the value.
   */
  lemma {:induction false} DragMovesForgetHistory(s: Session, screen: Screen, dxs: seq<real>, dx: real)
    requires s.live * Multiplier(s.props.menuPosition) >= 0.0
    requires forall i :: 0 <= i < |dxs| ==> Multiplier(s.props.menuPosition) * (s.prevLeft + dxs[i]) >= 0.0
    requires s.props.bounceBackOnOverdraw
    ensures Run(s, screen, Moves(dxs) + [GestureMove(dx)]).live == s.prevLeft + dx
    ensures Run(s, screen, Moves(dxs) + [GestureMove(dx)]).prevLeft == s.prevLeft
    decreases |dxs|
  {
    var m := Multiplier(s.props.menuPosition);
    if dxs == [] {
      assert Moves(dxs) + [GestureMove(dx)] == [GestureMove(dx)];
      assert Run(s, screen, [GestureMove(dx)]) == Run(DragMove(s, dx), screen, []);
    } else {
      var t := DragMove(s, dxs[0]);
      assert t.live == s.prevLeft + dxs[0];
      assert t.live * m == m * (s.prevLeft + dxs[0]);
      assert (Moves(dxs) + [GestureMove(dx)])[1..] == Moves(dxs[1..]) + [GestureMove(dx)];
      DragMovesForgetHistory(t, screen, dxs[1..], dx);
    }
  }

  /** The events of a sequence of drag samples. */
  function Moves(dxs: seq<real>): (events: seq<Event>)
    ensures |events| == |dxs|
    ensures forall i :: 0 <= i < |dxs| ==> events[i] == GestureMove(dxs[i])
  {
    if dxs == [] then [] else [GestureMove(dxs[0])] + Moves(dxs[1..])
  }

  // ---------------------------------------------------------------------------
  // Resolution policy

  /** The barrier is strict: ending exactly on it closes, just past it opens. */
  lemma BarrierIsStrict(screen: Screen)
    ensures !ShouldOpenMenu(screen, screen.width / 4.0)
    ensures ShouldOpenMenu(screen, screen.width / 4.0 + 1.0)
  {
  }

  /** A drag that ends open would also end open had it gone further toward opening. */
  lemma DragEndMonotone(s: Session, screen: Screen, dx: real, further: real)
    requires Multiplier(s.props.menuPosition) * further >= Multiplier(s.props.menuPosition) * dx
    requires DragEnd(s, screen, dx).isOpen
    ensures DragEnd(s, screen, further).isOpen
  {
  }

  /** A right menu resolves the mirror image of what a left menu resolves. */
  lemma DragEndMirror(s: Session, screen: Screen, dx: real)
    requires s.props.menuPosition == Right
    ensures DragEnd(s, screen, dx).isOpen ==
            DragEnd(s.(props := s.props.(menuPosition := Left), live := -s.live), screen, -dx).isOpen
  {
  }

  /**
   * Gesture end adds dx to the live value, which already holds prevLeft + dx
   * after an unclamped move: the drag distance is counted twice.
   */
  lemma DragEndCountsDeltaTwice(s: Session, screen: Screen, dx: real)
    requires s.live * Multiplier(s.props.menuPosition) >= 0.0
    requires s.props.bounceBackOnOverdraw || Abs(s.prevLeft + dx) <= s.state.openMenuOffset
    ensures DragEnd(DragMove(s, dx), screen, dx).isOpen <==>
            Multiplier(s.props.menuPosition) * (s.prevLeft + 2.0 * dx) > screen.width / 4.0
  {
  }

  /** The barrier does not depend on the configured open offset. */
  lemma BarrierIgnoresOpenOffset(s: Session, screen: Screen, dx: real, w: real)
    ensures DragEnd(s.(state := s.state.(openMenuOffset := w)), screen, dx).isOpen ==
            DragEnd(s, screen, dx).isOpen
  {
  }

  // ---------------------------------------------------------------------------
  // External requests

  /** Without autoClosing, an external request never acts while the menu is open. */
  lemma NoAutoClosingIgnoresRequestsWhileOpen(s: Session, next: Props)
    requires s.isOpen && !next.autoClosing
    ensures ReceiveProps(s, next) == s.(props := next)
  {
  }

  /** While an animation is in flight, external requests are ignored. */
  lemma AnimatingIgnoresRequests(s: Session, next: Props)
    requires s.isAnimating
    ensures ReceiveProps(s, next) == s.(props := next)
  {
  }

  /**
   * An external request to close an open, settled menu is honoured when
   * autoClosing is set, and only then.
   */
  lemma CloseRequestHonoured(s: Session, next: Props)
    requires s.isOpen && !s.isAnimating && next.isOpen == Some(false) && next.autoClosing
    ensures !ReceiveProps(s, next).isOpen
    ensures ReceiveProps(s, next).prevLeft == Multiplier(s.props.menuPosition) * s.state.hiddenMenuOffset
  {
  }

  /** A sequence of prop updates. */
  function PropUpdates(ps: seq<Props>): (events: seq<Event>)
    ensures |events| == |ps|
    ensures forall i :: 0 <= i < |ps| ==> events[i] == NewProps(ps[i])
  {
    if ps == [] then [] else [NewProps(ps[0])] + PropUpdates(ps[1..])
  }

  /**
   * However many external requests arrive while the menu is open, none
   * without autoClosing starts an animation or reports a change.
   */
  lemma {:induction false} RequestsIgnoredWhileOpen(s: Session, screen: Screen, ps: seq<Props>)
    requires s.isOpen
    requires forall i :: 0 <= i < |ps| ==> !ps[i].autoClosing
    ensures Run(s, screen, PropUpdates(ps)).isOpen
    ensures Run(s, screen, PropUpdates(ps)).effects == s.effects
    ensures Run(s, screen, PropUpdates(ps)).prevLeft == s.prevLeft
    ensures Run(s, screen, PropUpdates(ps)).isAnimating == s.isAnimating
    ensures Run(s, screen, PropUpdates(ps)).live == s.live
    ensures Run(s, screen, PropUpdates(ps)).state == s.state
    decreases |ps|
  {
    if ps != [] {
      NoAutoClosingIgnoresRequestsWhileOpen(s, ps[0]);
      assert PropUpdates(ps)[1..] == PropUpdates(ps[1..]);
      RequestsIgnoredWhileOpen(ReceiveProps(s, ps[0]), screen, ps[1..]);
    }
  }

  // ---------------------------------------------------------------------------
  // Geometry and progress

  /** Only the last layout counts: offsets never mix two width samples. */
  lemma LayoutLastWins(s: Session, w1: real, h1: real, w2: real, h2: real)
    ensures LayoutChange(LayoutChange(s, w1, h1), w2, h2) == LayoutChange(s, w2, h2)
  {
  }

  /** A layout change scales both offsets in proportion to the width. */
  lemma LayoutScalesOffsets(s: Session, width: real, height: real)
    requires GeometryConsistent(s.state)
    ensures LayoutChange(s, width, height).state.openMenuOffset * s.state.width ==
            width * s.state.openMenuOffset
    ensures LayoutChange(s, width, height).state.hiddenMenuOffset * s.state.width ==
            width * s.state.hiddenMenuOffset
  {
  }

  /**
   * Between the hidden and the open offset the progress grows linearly from 0
   * to 1.
   */
  lemma ProgressLinear(g: Geometry, value: real)
    requires g.hiddenMenuOffset < g.openMenuOffset
    requires g.hiddenMenuOffset <= value <= g.openMenuOffset
    ensures SlideProgress(g, value) == (value - g.hiddenMenuOffset) / (g.openMenuOffset - g.hiddenMenuOffset)
    ensures 0.0 <= SlideProgress(g, value) <= 1.0
  {
    QuotientInUnit(value - g.hiddenMenuOffset, g.openMenuOffset - g.hiddenMenuOffset);
  }

  /** The progress is 0 at the hidden offset and 1 at the open offset. */
  lemma ProgressEnds(g: Geometry)
    requires g.openMenuOffset != g.hiddenMenuOffset
    ensures SlideProgress(g, g.hiddenMenuOffset) == 0.0
    ensures SlideProgress(g, g.openMenuOffset) == 1.0
  {
    QuotientOfSelf(g.openMenuOffset - g.hiddenMenuOffset);
  }

  /** With a zero hidden offset the progress ignores the sign of the value. */
  lemma ProgressSymmetric(g: Geometry, value: real)
    requires g.hiddenMenuOffset == 0.0 && g.openMenuOffset != 0.0
    ensures SlideProgress(g, -value) == SlideProgress(g, value)
  {
    QuotientOfNegation(value, g.openMenuOffset);
  }

  /**
   * The progress formula does not use the multiplier: for a right menu with a
   * non-zero hidden offset the hidden position (-hidden) does not report 0.
   */
  lemma RightHiddenProgressNotZero(g: Geometry)
    requires g.openMenuOffset != g.hiddenMenuOffset && g.hiddenMenuOffset != 0.0
    ensures SlideProgress(g, -g.hiddenMenuOffset) != 0.0
  {
    QuotientNonZero(-g.hiddenMenuOffset - g.hiddenMenuOffset, g.openMenuOffset - g.hiddenMenuOffset);
  }

  // Quotient facts, each proved on its own so that no larger context slows it.

  lemma QuotientOfSelf(d: real)
    requires d != 0.0
    ensures d / d == 1.0
  {
  }

  lemma QuotientInUnit(n: real, d: real)
    requires 0.0 <= n <= d && d > 0.0
    ensures 0.0 <= n / d <= 1.0
  {
  }

  lemma QuotientOfNegation(n: real, d: real)
    requires d != 0.0
    ensures -n / d == -(n / d)
  {
  }

  lemma QuotientNonZero(n: real, d: real)
    requires d != 0.0 && n != 0.0
    ensures n / d != 0.0
  {
  }

  // ---------------------------------------------------------------------------
  // The session invariant

  /** How appending one call changes the two "latest" views of the log. */
  lemma LatestAfterAppend(effects: seq<Effect>, e: Effect)
    ensures LastAnimationTarget(effects + [e]) ==
            (if e.Animate? then Some(e.target) else LastAnimationTarget(effects))
    ensures LastReported(effects + [e]) ==
            (if e.OnChange? then Some(e.isOpen) else LastReported(effects))
  {
  }

  /** The constructor establishes the invariant. */
  lemma InitialConsistent(screen: Screen, props: Props, initialValue: real)
    requires screen.width != 0.0
    ensures Consistent(InitialSession(screen, props, initialValue))
  {
  }

  /** `moveLeft` keeps the invariant. */
  lemma MoveLeftConsistent(s: Session, offset: real)
    requires Consistent(s)
    ensures Consistent(MoveLeft(s, offset))
  {
    LatestAfterAppend(s.effects, Animate(MoveLeft(s, offset).prevLeft));
  }

  /** `openMenu` keeps the invariant. */
  lemma OpenMenuConsistent(s: Session, isOpen: bool)
    requires Consistent(s)
    ensures Consistent(OpenMenu(s, isOpen))
  {
    var offset := if isOpen then s.state.openMenuOffset else s.state.hiddenMenuOffset;
    var moved := MoveLeft(s, offset);
    MoveLeftConsistent(s, offset);
    LatestAfterAppend(moved.effects, OnChange(isOpen));
  }

  /** `handlePanResponderMove` keeps the invariant. */
  lemma DragMoveConsistent(s: Session, dx: real)
    requires Consistent(s)
    ensures Consistent(DragMove(s, dx))
  {
    if s.live * Multiplier(s.props.menuPosition) >= 0.0 {
      LatestAfterAppend(s.effects, OnMove(DragMove(s, dx).live));
    }
  }

  /** `handleAnimationComplete` keeps the invariant. */
  lemma AnimationCompleteConsistent(s: Session)
    requires Consistent(s)
    ensures Consistent(AnimationComplete(s))
  {
    if s.props.hasAnimationCompleteHandler {
      LatestAfterAppend(s.effects, OnAnimationComplete(s.isOpen));
    }
  }

  /** `UNSAFE_componentWillReceiveProps` keeps the invariant. */
  lemma ReceivePropsConsistent(s: Session, next: Props)
    requires Consistent(s)
    ensures Consistent(ReceiveProps(s, next))
  {
    if ExternalRequestHonored(s, next) {
      OpenMenuConsistent(s, next.isOpen.value);
    }
  }

  /** Every handler keeps the invariant. */
  lemma StepConsistent(s: Session, screen: Screen, e: Event)
    requires Consistent(s)
    ensures Consistent(Step(s, screen, e))
  {
    match e
    case GestureMove(dx) => DragMoveConsistent(s, dx);
    case GestureEnd(dx) =>
      OpenMenuConsistent(s, ShouldOpenMenu(screen, Multiplier(s.props.menuPosition) * (s.live + dx)));
    case AnimationSettled => AnimationCompleteConsistent(s);
    case AnimationFrame(value) =>
    case NewProps(next) => ReceivePropsConsistent(s, next);
    case Layout(width, height) =>
    case OverlayTap => if s.isOpen { OpenMenuConsistent(s, false); }
  }

  /**
   * Every sequence of events keeps the invariant: the geometry stays
   * consistent, the drag baseline is always the latest animation target, and
   * `onChange` last reported the current state.
   */
  lemma {:induction false} RunConsistent(s: Session, screen: Screen, events: seq<Event>)
    requires Consistent(s)
    ensures Consistent(Run(s, screen, events))
    decreases |events|
  {
    if events != [] {
      StepConsistent(s, screen, events[0]);
      RunConsistent(Step(s, screen, events[0]), screen, events[1..]);
    }
  }

  /** Only the animation's completion clears `isAnimating`. */
  lemma {:induction false} OnlySettleClearsAnimating(s: Session, screen: Screen, events: seq<Event>)
    requires s.isAnimating
    requires forall i :: 0 <= i < |events| ==> events[i] != AnimationSettled
    ensures Run(s, screen, events).isAnimating
    decreases |events|
  {
    if events != [] {
      OnlySettleClearsAnimating(Step(s, screen, events[0]), screen, events[1..]);
    }
  }

  /**
   * A tap on the overlay closes an open menu toward the signed hidden
   * offset; with the menu closed there is no overlay and nothing happens.
   */
  lemma OverlayTapCloses(s: Session, screen: Screen)
    ensures !Step(s, screen, OverlayTap).isOpen
    ensures s.isOpen ==>
      Step(s, screen, OverlayTap).prevLeft == Multiplier(s.props.menuPosition) * s.state.hiddenMenuOffset &&
      Step(s, screen, OverlayTap).isAnimating &&
      Step(s, screen, OverlayTap).effects == s.effects + [Animate(Step(s, screen, OverlayTap).prevLeft), OnChange(false)]
    ensures !s.isOpen ==> Step(s, screen, OverlayTap) == s
  {
  }

  /** The log only grows: every handler appends to it and never rewrites it. */
  lemma {:induction false} RunExtendsLog(s: Session, screen: Screen, events: seq<Event>)
    ensures s.effects <= Run(s, screen, events).effects
    decreases |events|
  {
    if events != [] {
      var t := Step(s, screen, events[0]);
      assert s.effects <= t.effects;
      RunExtendsLog(t, screen, events[1..]);
    }
  }

  /**
   * From a closed menu on a 300-wide screen with a 200 open offset, a drag
   * from x = 10 by 80 is claimed and, on release, opens the menu toward 200.
   */
  lemma OpenScenario(s: Session)
    requires s.props.menuPosition == Left && s.props.edgeHitWidth == 60.0
    requires s.props.toleranceX == 10.0 && s.props.toleranceY == 10.0
    requires s.props.disableGestures == Flag(false) && s.props.bounceBackOnOverdraw
    requires !s.isOpen && s.prevLeft == 0.0 && s.live == 0.0 && s.effects == []
    requires s.state.openMenuOffset == 200.0 && s.state.hiddenMenuOffset == 0.0
    ensures ShouldClaim(s, Screen(300.0, 600.0), Gesture(80.0, 2.0, 10.0), false)
    ensures Run(s, Screen(300.0, 600.0), [GestureMove(80.0), GestureEnd(80.0)]).isOpen
    ensures Run(s, Screen(300.0, 600.0), [GestureMove(80.0), GestureEnd(80.0)]).effects ==
            [OnMove(80.0), Animate(200.0), OnChange(true)]
  {
  }
}
