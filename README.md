# Side menu gesture state machine in Dafny

This project models the core of `SideMenu`, a React Native component for a swipeable side drawer. The core is the state machine that turns touch gestures into the offset of the content view. It has five parts:

- **Gesture arbiter.** `handleMoveShouldSetPanResponder` decides whether a move is claimed. It uses the tolerances, an edge band and the drag direction. The edge band is checked only while the menu is closed.
- **Offset translator.** `handlePanResponderMove` writes `prevLeft + dx` to the animated value. It does nothing while the value is on the wrong side of the menu's edge. When `bounceBackOnOverdraw` is false, it clamps to `±openMenuOffset`.
- **Resolution policy.** `handlePanResponderEnd` opens the menu when `mult * (value + dx)` passes a fixed barrier. The barrier is a quarter of the screen width.
- **Open/close path.** `openMenu` and `moveLeft` set `isOpen`, `isAnimating` and `prevLeft`, request a settle animation and report `onChange`. `handleAnimationComplete` clears `isAnimating`.
- **External requests and geometry.** `UNSAFE_componentWillReceiveProps` gates open/close requests from the `isOpen` prop. `onLayoutChange` recomputes both offsets from one width sample.

The model has three modules:

- `Drawer` (drawer.dfy) holds the data model. `Props` is the configuration, `Geometry` is the component's `state`, and `Session` holds everything the component mutates. The module has one transition function per handler. It also has the arbiter, the barrier and the `onSliding` progress formula as pure functions.
- `DrawerProperties` (drawer_properties.dfy) proves the properties. It covers the arbiter's exact claim conditions, mirror symmetry between left and right menus, the overdraw bound, the strict barrier and the external-request gate. It also proves, by induction over any sequence of events, that the session invariant `Consistent` holds.
- `SideMenuComponent` (side_menu.dfy) is the component as a class. Its fields are `prevLeft`, `isOpen`, `isAnimating`, `state`, the props, the animated value and a log of outgoing calls. Each handler is an imperative method. It is proved to perform the transition of the same name in `Drawer` and to keep `Valid()`.

Conventions:

- Pixel quantities are reals. `Math.round` is modelled exactly, as the floor of `x + 1/2`.
- The module-level `deviceScreen` is a constant of the object, given to its constructor. It is separate from the layout width in `state`. The edge band and the barrier use `deviceScreen.width`, as the source does.
- The effects log records the component's outgoing calls in order. These are the animation request (`Animate(target)`) and the `onMove`, `onChange` and `onAnimationComplete` callbacks.
- The animation engine appears in two ways. It can write the animated value (`SetAnimatedValue`). It can also fire the start callback (`HandleAnimationComplete`) at any time, whether or not that animation is the latest one.
- The answer of a `disableGestures` callback is an input to the arbiter query.

Some behaviour of the code is easy to misread. The model follows the code in each case:

- The `onSliding` formula has no guard against `openMenuOffset == hiddenMenuOffset`, so `SlideProgress` requires the two offsets to differ.
- A completion callback from a superseded animation is not ignored. It clears `isAnimating` like any other.
- With `autoClosing` false, every external request is ignored while the menu is open, close requests included (`NoAutoClosingIgnoresRequestsWhileOpen`).
- At gesture end the code adds `dx` to the live value, which already holds `prevLeft + dx`. So a drag of 80 from closed resolves with 160 against the barrier, not 80 (`DragEndCountsDeltaTwice`, `OpenScenario`).

## Model

| member | source | states |
|---|---|---|
| `Drawer.Round` | index.js:270-271 | `Math.round`: the result is the integer within half a unit of the input, with halves rounded up |
| `Drawer.Multiplier` | index.js:228-230 | the multiplier is +1 or -1; it is positive exactly for a left menu |
| `Drawer.GesturesAreEnabled` | index.js:300-308 | gestures are enabled iff the flag is false, or the callback answers false |
| `Drawer.Abs` | index.js:250 | the result is non-negative and is either the argument or its negation |
| `Drawer.TouchMoved` | index.js:270-273 | a horizontal movement has abs(dx) > toleranceX - 1/2 and abs(dy) < toleranceY + 1/2; abs(dx) >= toleranceX + 1/2 with abs(dy) < toleranceY - 1/2 always is one (exact thresholds for integral tolerances in `TouchMovedThresholds`) |
| `Drawer.WithinEdgeHitWidth` | index.js:279-282 | the touch is within the band iff its distance from the menu's screen edge (moveX for a left menu, screen width - moveX for a right one) is less than edgeHitWidth |
| `Drawer.ShouldClaim` | index.js:268-289 | a claimed move always has gestures enabled and is predominantly horizontal |
| `DrawerProperties.DisabledNeverClaims` | index.js:300-308 | with `disableGestures` true, or a callback answering true, no move is ever claimed |
| `DrawerProperties.ClaimWhileOpen` | index.js:270-277 | while open, a move is claimed iff rounded abs(dx) > toleranceX and rounded abs(dy) < toleranceY; the answer is the same for every moveX |
| `DrawerProperties.ClaimWhileClosed` | index.js:279-285 | while closed, a move is claimed iff it is horizontal, starts in the edge band (`moveX < edgeHitWidth` on the left, `moveX > deviceWidth - edgeHitWidth` on the right) and points away from the edge |
| `DrawerProperties.TouchMovedThresholds` | index.js:270-273 | with integral tolerances, a movement is horizontal iff abs(dx) >= toleranceX + 1/2 and abs(dy) < toleranceY - 1/2 |
| `DrawerProperties.ClaimMirror` | index.js:279-285 | a right menu claims a move iff a left menu claims its mirror image (dx negated, moveX reflected in the screen width) |
| `DrawerProperties.EdgeGatingExample` | index.js:275-285 | with edge band 60: closed, a drag of 20 at x = 100 is refused and at x = 30 is claimed; open, a drag of 15 at x = 100 is claimed |
| `Drawer.TranslatedOffset` | index.js:246-253 | with bounce-back, or with abs(prevLeft + dx) <= openMenuOffset, the new offset is exactly `prevLeft + dx`; without bounce-back and past that range it is `mult * openMenuOffset`; without bounce-back and a non-negative open offset its magnitude is at most `openMenuOffset` |
| `Drawer.DragMove` | index.js:240-258 | when `live * mult < 0` nothing changes; otherwise the value becomes the translated offset and `onMove` reports it; `prevLeft`, `isOpen`, `isAnimating`, geometry and props never change |
| `DrawerProperties.TranslateMirror` | index.js:246-253 | a right menu translates the mirror image of what a left menu translates |
| `DrawerProperties.OverdrawClampIgnoresSide` | index.js:248-253 | the clamp tests abs(newLeft): a left menu at 200, dragged by -450 without bounce-back, lands on +200 (fully open) |
| `DrawerProperties.DragMoveBounded` | index.js:248-256 | without bounce-back and with a non-negative open offset, a move that acts (value * mult >= 0) leaves abs(value) <= openMenuOffset; a move that does not act leaves the value as it was (`Drawer.DragMove`) |
| `DrawerProperties.DragMovesForgetHistory` | index.js:246 | with bounce-back, from a value on the menu's side and after moves whose samples stay on that side, any last sample dx leaves the value at `prevLeft + dx`, whatever samples came before, and `prevLeft` is unchanged |
| `Drawer.BarrierForward` | index.js:62 | the barrier is a quarter of the screen width |
| `Drawer.ShouldOpenMenu` | index.js:64-66 | opens iff the offset is strictly greater than a quarter of the screen width |
| `DrawerProperties.BarrierIsStrict` | index.js:62-66 | an offset exactly at a quarter of the screen width does not open; one unit past it does |
| `Drawer.DragEnd` | index.js:260-266 | the menu ends open iff `mult * (live + dx) > deviceWidth / 4`; an animation toward the matching signed offset is requested and `onChange` reports the result; the animated value, geometry and props are unchanged |
| `DrawerProperties.DragEndMonotone` | index.js:260-266 | a drag that ends open also ends open had it gone further in the opening direction |
| `DrawerProperties.DragEndMirror` | index.js:261-263 | a right menu resolves a gesture as a left menu resolves its mirror image |
| `DrawerProperties.DragEndCountsDeltaTwice` | index.js:261-263 | after a move by dx that acts (value * mult >= 0) and is not clamped (bounce-back on, or abs(prevLeft + dx) <= openMenuOffset), ending with the same dx opens iff `mult * (prevLeft + 2 dx) > deviceWidth / 4` |
| `DrawerProperties.BarrierIgnoresOpenOffset` | index.js:62 | the end decision does not depend on the configured open offset |
| `Drawer.MoveLeft` | index.js:217-226 | sets `isAnimating`, sets `prevLeft` to the signed target, logs the animation toward that target and changes nothing else |
| `Drawer.OpenMenu` | index.js:291-298 | afterwards `isOpen == b`, `isAnimating`, `prevLeft == mult * (b ? openMenuOffset : hiddenMenuOffset)`, the animation targets `prevLeft`, then `onChange(b)` is reported |
| `Drawer.AnimationComplete` | index.js:232-238 | clears `isAnimating` and reports the current `isOpen` when a handler is present; nothing else changes |
| `Drawer.ExternalRequestHonored` | index.js:166-170 | an honoured request is defined, differs from `isOpen` and arrives while no animation is in flight; on an open menu it needs autoClosing; on a closed, settled menu every defined differing request is honoured |
| `Drawer.ReceiveProps` | index.js:165-174 | a request acts iff it is defined, differs from `isOpen`, no animation is in flight, and autoClosing is set or the menu is closed; then `isOpen` takes the requested value, `prevLeft` and the animation target become the OLD props' multiplier times the open or hidden offset, and `onChange` reports it; otherwise only the props change |
| `DrawerProperties.NoAutoClosingIgnoresRequestsWhileOpen` | index.js:170 | without autoClosing, no request changes an open menu, not even a close request |
| `DrawerProperties.AnimatingIgnoresRequests` | index.js:169 | while an animation is in flight, every request is ignored |
| `DrawerProperties.CloseRequestHonoured` | index.js:166-172 | with autoClosing, a close request to an open, settled menu closes it toward the hidden offset |
| `DrawerProperties.RequestsIgnoredWhileOpen` | index.js:165-174 | any number of requests without autoClosing on an open menu start no animation, report nothing and change no session field except the props: `isOpen`, the log, `prevLeft`, `isAnimating`, the animated value and the geometry are all as before |
| `Drawer.LayoutChange` | index.js:176-181 | the new width and height are stored, both offsets agree with the unchanged percentages for that one width, and nothing else changes |
| `DrawerProperties.LayoutLastWins` | index.js:176-181 | two layout changes in a row equal the last one alone |
| `DrawerProperties.LayoutScalesOffsets` | index.js:178-179 | a layout change scales both offsets in proportion to the width |
| `Drawer.InitialSession` | index.js:113-142 | starts with `prevLeft == 0`, not animating, `isOpen` iff the prop is true, empty log, layout equal to the screen, and offsets equal to the props' offsets |
| `DrawerProperties.InitialConsistent` | index.js:116-142 | the initial session satisfies the invariant |
| `Drawer.SlideProgress` | index.js:145-150 | the progress is non-negative and equals abs(value - hidden) / abs(open - hidden) (defined only when the offsets differ) |
| `DrawerProperties.ProgressLinear` | index.js:145-150 | between the hidden and the open offset, the progress is `(value - hidden) / (open - hidden)`, within [0, 1] |
| `DrawerProperties.ProgressEnds` | index.js:145-150 | the progress is 0 at the hidden offset and 1 at the open offset |
| `DrawerProperties.ProgressSymmetric` | index.js:145-150 | with a zero hidden offset, values v and -v give the same progress, so left and right menus agree |
| `DrawerProperties.RightHiddenProgressNotZero` | index.js:145-150 | with a non-zero hidden offset, the progress at `-hidden` (a right menu's hidden position) is not 0 |
| `Drawer.LastAnimationTarget` | index.js:221-225 | the latest animation target in the log is one the log contains; there is none iff no animation was ever requested |
| `Drawer.LastReported` | index.js:294-297 | the latest `onChange` value in the log is one the log contains; there is none iff nothing was reported |
| `DrawerProperties.MoveLeftConsistent` | index.js:217-226 | `moveLeft` keeps the invariant |
| `DrawerProperties.OpenMenuConsistent` | index.js:291-298 | `openMenu` keeps the invariant |
| `DrawerProperties.DragMoveConsistent` | index.js:240-258 | a drag move keeps the invariant |
| `DrawerProperties.AnimationCompleteConsistent` | index.js:232-238 | animation completion keeps the invariant |
| `DrawerProperties.ReceivePropsConsistent` | index.js:165-174 | an external request keeps the invariant |
| `DrawerProperties.StepConsistent` | index.js:128-133 | every handler keeps the invariant |
| `DrawerProperties.RunConsistent` | index.js:128-133 | after any sequence of events: geometry consistent with the percentages, `prevLeft` equal to the latest animation target (0 before any), animating only after a request, and the last `onChange` equal to `isOpen` |
| `DrawerProperties.OnlySettleClearsAnimating` | index.js:220-233 | once animating, the component stays animating through any events other than the animation's completion |
| `DrawerProperties.OverlayTapCloses` | index.js:190-198 | a tap on the overlay of an open menu closes it: `isOpen` false, an animation toward the signed hidden offset, and `onChange(false)` logged; with the menu closed there is no overlay and the session is unchanged |
| `DrawerProperties.RunExtendsLog` | index.js:128-133 | the log of outgoing calls only grows |
| `DrawerProperties.OpenScenario` | index.js:240-298 | screen 300, open offset 200, closed: a drag from x = 10 by 80 is claimed; releasing with 80 opens, logging `onMove(80)`, an animation to 200 and `onChange(true)` |
| `SideMenuComponent.SideMenu.constructor` | index.js:113-142 | builds the initial session and establishes `Valid()` |
| `SideMenuComponent.SideMenu.HandleMoveShouldSetPanResponder` | index.js:268-289 | changes nothing and answers exactly as `Drawer.ShouldClaim` on the current fields |
| `SideMenuComponent.SideMenu.MoveLeft` | index.js:217-226 | updates the fields as `Drawer.MoveLeft` and keeps `Valid()` |
| `SideMenuComponent.SideMenu.OpenMenu` | index.js:291-298 | updates the fields as `Drawer.OpenMenu` and keeps `Valid()` |
| `SideMenuComponent.SideMenu.HandleAnimationComplete` | index.js:232-238 | updates the fields as `Drawer.AnimationComplete` and keeps `Valid()` |
| `SideMenuComponent.SideMenu.SetAnimatedValue` | index.js:221-223 | the engine's write changes only the animated value and keeps `Valid()` |
| `SideMenuComponent.SideMenu.HandlePanResponderMove` | index.js:240-258 | updates the fields as `Drawer.DragMove` and keeps `Valid()` |
| `SideMenuComponent.SideMenu.HandlePanResponderEnd` | index.js:260-266 | updates the fields as `Drawer.DragEnd` and keeps `Valid()` |
| `SideMenuComponent.SideMenu.ComponentWillReceiveProps` | index.js:165-174 | updates the fields as `Drawer.ReceiveProps` (gate first, then the new props) and keeps `Valid()` |
| `SideMenuComponent.SideMenu.HandleOverlayPress` | index.js:190-198 | updates the fields as `Drawer.Step` on an `OverlayTap` and keeps `Valid()` |
| `SideMenuComponent.SideMenu.OnLayoutChange` | index.js:176-181 | updates the fields as `Drawer.LayoutChange` and keeps `Valid()` |

## Left out

- Rendering is not modelled: `getContentView`, `render`, its boundary style and the styles (index.js:187-215, 310-326). Of the overlay only its tap handler is kept, as the `OverlayTap` event, rendered and so tappable only while the menu is open.
- The `PanResponder.create` wiring and `onStartShouldSetResponderCapture` are platform touch plumbing. The model does not track whether a gesture was claimed before its moves arrive. Every move event is handled.
- The spring animation engine is not modelled. It appears only as a logged target, a write of the animated value and a completion call that may come at any time. Speed and timing are absent. In the engine, starting a new animation stops the running one, and so does `setValue` in a drag move (index.js:256); each stop fires the stopped animation's completion callback, which clears `isAnimating`. The model does not tie completions to those moments: it lets `HandleAnimationComplete` arrive whenever the engine calls it, so `OnlySettleClearsAnimating` says that no handler other than the completion clears the flag, not that completions are rare. One consequence is event order in `OpenMenu`: in the engine, the superseded spring's completion fires inside `moveLeft`'s `start` (index.js:220-223), after `isAnimating` is set and before `isOpen` takes its new value (index.js:294), so that `onAnimationComplete` reports the OLD `isOpen` and `isAnimating` ends false. The model can only produce `OpenMenu` followed by a separate `AnimationSettled`, which reports the new `isOpen` after `onChange`; `Drawer.OpenMenu`'s `isAnimating` result is the model's event order, not the engine's.
- The animated-value listener subscription is not modelled. The progress formula is a pure function, and the `onSliding` calls are not logged.
- `Dimensions.get` is not modelled. The screen size is a constructor argument.
- JavaScript floating point is not modelled. Reals have no NaN, infinities or rounding error.
- `forceUpdate`, PropTypes and the two `defaultProps` blocks are framework scaffolding. The default values are not modelled.
- JavaScript truthiness of non-boolean `isOpen` or `disableGestures` props is not modelled. The model takes `isOpen` as an optional boolean and `disableGestures` as a boolean or a callback.
- `Drawer.InitialSession`: requires a non-zero screen width. With width 0 the source divides by zero, and its percentages become NaN or infinite, which reals cannot represent. `SideMenuComponent.SideMenu.constructor` has the same requirement.
