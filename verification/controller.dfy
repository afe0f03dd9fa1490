/** The game-state controller of main.cpp: the key map and camera flags, the
    keyboard, special-key, mouse and reshape handlers, restartGame, and the
    timer tick that applies the movement rules and then integrates the
    player. */
module Controller {
  import opened Wrappers
  import opened Vectors
  import opened CMath
  import opened Config
  import opened Motion

  /** One pressed/released flag per key slot. */
  type KeyMap = s: seq<bool> | |s| == KEYS_COUNT witness [false, false, false, false, false, false, false]

  const NoKeys: KeyMap := [false, false, false, false, false, false, false]

  /** The global game state. */
  datatype GameState = GameState(
    wireframeMode: bool,
    freeCameraMode: bool,
    cameraElevationAngle: real,
    elapsedTime: real,
    keyMap: KeyMap,
    windowWidth: int,
    windowHeight: int)

  /** The game state before anything has written it: globals start zeroed. */
  const BlankState: GameState := GameState(false, false, 0.0, 0.0, NoKeys, 0, 0)

  /** The objects the controller touches, together with the game state. */
  datatype World = World(player: Player, terrain: Object, state: GameState)

  /** What a keyboard event leaves behind: the next world, or the end of the
      process (the escape key exits). */
  datatype Reaction = Continue(world: World) | Exit

  /** Clock scale of restartGame, applied to the platform's millisecond count. */
  const CLOCK_SCALE: real := 0.01
  /** Degrees of elevation per pixel of vertical mouse offset. */
  const ELEVATION_STEP: real := 0.01
  /** The angle the player faces after a restart, in degrees. */
  const START_VIEW_ANGLE: real := 90.0
  const TERRAIN_POSITION: Vec3 := Vec3(0.0, 0.0, -0.5)

  /** Special-key codes of the windowing toolkit (freeglut's values). */
  const GLUT_KEY_LEFT: int := 100
  const GLUT_KEY_UP: int := 101
  const GLUT_KEY_RIGHT: int := 102
  const GLUT_KEY_DOWN: int := 103
  const GLUT_KEY_SHIFT_L: int := 112

  const ESCAPE: char := 27 as char

  /** The properties every reachable world keeps. */
  predicate Invariant(w: World) {
    && SpeedInBand(w.player.body.speed)
    && -CAMERA_ELEVATION_MAX < w.state.cameraElevationAngle < CAMERA_ELEVATION_MAX
    && -360.0 < w.player.viewAngle < 360.0
    && w.player.body.direction.z == 0.0
    && w.player.body.startTime == w.state.elapsedTime
    && w.player.body.currentTime == w.player.body.startTime
    && w.player.body.size == PLAYER_SIZE
    && !w.player.body.destroyed
  }

  /** restartGame: put the player back at the origin facing 90 degrees at
      rest, stamp the clock, place the terrain, leave free-camera mode, level
      the camera and release every key. The vertical speed, the wireframe
      flag and the window size survive a restart. */
  function RestartGame(w: World, clockMs: int, trig: Trig): (r: World)
    ensures r.player.body.position == Zero3
    ensures r.player.viewAngle == 90.0 && r.player.body.direction == Heading(trig, 90.0)
    ensures r.player.body.speed == 0.0 && !r.player.body.destroyed && r.player.body.size == PLAYER_SIZE
    ensures r.state.elapsedTime == CLOCK_SCALE * clockMs as real
    ensures r.player.body.startTime == r.state.elapsedTime && r.player.body.currentTime == r.player.body.startTime
    ensures r.player.body.verticalSpeed == w.player.body.verticalSpeed
    ensures r.player.body.enableSpot == w.player.body.enableSpot
    ensures r.player.body.isInitialized == w.player.body.isInitialized
    ensures r.terrain == w.terrain.(position := Vec3(0.0, 0.0, -0.5), size := TERRAIN_SIZE)
    ensures forall i: nat | i < KEYS_COUNT :: !r.state.keyMap[i]
    ensures !r.state.freeCameraMode && r.state.cameraElevationAngle == 0.0
    ensures r.state.wireframeMode == w.state.wireframeMode
    ensures r.state.windowWidth == w.state.windowWidth && r.state.windowHeight == w.state.windowHeight
    ensures Invariant(r)
  {
    var now := CLOCK_SCALE * clockMs as real;
    var body := w.player.body.(
      position := Zero3,
      direction := Heading(trig, START_VIEW_ANGLE),
      speed := 0.0,
      size := PLAYER_SIZE,
      destroyed := false,
      startTime := now,
      currentTime := now);
    World(
      Player(body, START_VIEW_ANGLE),
      w.terrain.(position := TERRAIN_POSITION, size := TERRAIN_SIZE),
      w.state.(elapsedTime := now, freeCameraMode := false, cameraElevationAngle := 0.0, keyMap := NoKeys))
  }

  /** initApplication: both object pointers start null, so the restart that
      follows creates a fresh, zeroed player and terrain over the zeroed
      game state. */
  function InitialWorld(clockMs: int, trig: Trig): (r: World)
    ensures r.player.body.verticalSpeed == 0.0
    ensures !r.state.wireframeMode && !r.state.freeCameraMode
    ensures Invariant(r)
  {
    RestartGame(World(Player(BlankObject, 0.0), BlankObject, BlankState), clockMs, trig)
  }

  function WithKeyMap(w: World, keys: KeyMap): World {
    w.(state := w.state.(keyMap := keys))
  }

  /** keyboardCb: escape exits, 'r' restarts (reading the clock), 'w' flips
      the wireframe flag, 'c' flips free-camera mode, and space marks its key
      pressed. Every other key is ignored. */
  function KeyboardCb(w: World, key: char, clockMs: int, trig: Trig): (r: Reaction)
    ensures r.Exit? <==> key == ESCAPE
    ensures key == 'r' ==> r == Continue(RestartGame(w, clockMs, trig))
    ensures key == 'w' ==> r == Continue(w.(state := w.state.(wireframeMode := !w.state.wireframeMode)))
    ensures key == 'c' ==> r == Continue(w.(state := w.state.(freeCameraMode := !w.state.freeCameraMode)))
    ensures key == ' ' ==> r == Continue(WithKeyMap(w, w.state.keyMap[KEY_SPACE := true]))
    ensures key !in {ESCAPE, 'r', 'w', 'c', ' '} ==> r == Continue(w)
  {
    if key == ESCAPE then Exit
    else if key == 'r' then Continue(RestartGame(w, clockMs, trig))
    else if key == 'w' then
      Continue(w.(state := w.state.(wireframeMode := if w.state.wireframeMode then false else true)))
    else if key == 'c' then Continue(w.(state := w.state.(freeCameraMode := !w.state.freeCameraMode)))
    else if key == ' ' then Continue(WithKeyMap(w, w.state.keyMap[KEY_SPACE := true]))
    else Continue(w)
  }

  /** Each toggle key undoes itself when pressed twice. */
  lemma ToggleTwiceRestores(w: World, key: char, clockMs: int, trig: Trig)
    requires key == 'w' || key == 'c'
    ensures KeyboardCb(KeyboardCb(w, key, clockMs, trig).world, key, clockMs, trig) == Continue(w)
  {
  }

  /** keyboardUpCb: releasing space clears its key; every other key is
      ignored. The program never registers this handler, so no event ever
      reaches it (see Step). */
  function KeyboardUpCb(w: World, key: char): (r: World)
    ensures key == ' ' ==> r == WithKeyMap(w, w.state.keyMap[KEY_SPACE := false])
    ensures key != ' ' ==> r == w
  {
    if key == ' ' then WithKeyMap(w, w.state.keyMap[KEY_SPACE := false]) else w
  }

  /** Pressing and releasing space through the two keyboard handlers gives
      back the world, when space was not already held. */
  lemma SpaceThenReleaseRestores(w: World, clockMs: int, trig: Trig)
    requires !w.state.keyMap[KEY_SPACE]
    ensures KeyboardUpCb(KeyboardCb(w, ' ', clockMs, trig).world, ' ') == w
  {
    assert w.state.keyMap[KEY_SPACE := true][KEY_SPACE := false] == w.state.keyMap;
  }

  /** The key-map slot a special key drives, if any. */
  function SpecialKeySlot(code: int): (slot: Option<nat>)
    ensures slot.Some? ==> slot.value < KEYS_COUNT && slot.value != KEY_SPACE && slot.value != KEY_B
    ensures slot.Some? <==> code in {GLUT_KEY_LEFT, GLUT_KEY_UP, GLUT_KEY_RIGHT, GLUT_KEY_DOWN, GLUT_KEY_SHIFT_L}
    ensures code == GLUT_KEY_LEFT ==> slot == Some(KEY_LEFT_ARROW)
    ensures code == GLUT_KEY_RIGHT ==> slot == Some(KEY_RIGHT_ARROW)
    ensures code == GLUT_KEY_UP ==> slot == Some(KEY_UP_ARROW)
    ensures code == GLUT_KEY_DOWN ==> slot == Some(KEY_DOWN_ARROW)
    ensures code == GLUT_KEY_SHIFT_L ==> slot == Some(KEY_SHIFT_L)
  {
    if code == GLUT_KEY_RIGHT then Some(KEY_RIGHT_ARROW)
    else if code == GLUT_KEY_LEFT then Some(KEY_LEFT_ARROW)
    else if code == GLUT_KEY_UP then Some(KEY_UP_ARROW)
    else if code == GLUT_KEY_DOWN then Some(KEY_DOWN_ARROW)
    else if code == GLUT_KEY_SHIFT_L then Some(KEY_SHIFT_L)
    else None
  }

  /** Distinct special keys drive distinct slots. */
  lemma SpecialKeySlotInjective(a: int, b: int)
    requires SpecialKeySlot(a).Some? && SpecialKeySlot(a) == SpecialKeySlot(b)
    ensures a == b
  {
  }

  /** Set the slot of a special key, leaving the world untouched for unmapped keys. */
  function SetSpecialKey(w: World, code: int, pressed: bool): (r: World)
    ensures forall i: nat | i < KEYS_COUNT ::
      r.state.keyMap[i] == if SpecialKeySlot(code) == Some(i) then pressed else w.state.keyMap[i]
    ensures r == WithKeyMap(w, r.state.keyMap)
    ensures SpecialKeySlot(code).None? ==> r == w
  {
    match SpecialKeySlot(code)
    case Some(slot) => WithKeyMap(w, w.state.keyMap[slot := pressed])
    case None => w
  }

  /** specialPressedKeyboardCb: mark the key's slot pressed. */
  function SpecialPressedKeyboardCb(w: World, code: int): (r: World)
    ensures forall i: nat | i < KEYS_COUNT ::
      r.state.keyMap[i] == (SpecialKeySlot(code) == Some(i) || w.state.keyMap[i])
    ensures r == WithKeyMap(w, r.state.keyMap)
  {
    SetSpecialKey(w, code, true)
  }

  /** specialReleasedKeyboardUpCb: mark the key's slot released. */
  function SpecialReleasedKeyboardUpCb(w: World, code: int): (r: World)
    ensures forall i: nat | i < KEYS_COUNT ::
      r.state.keyMap[i] == (SpecialKeySlot(code) != Some(i) && w.state.keyMap[i])
    ensures r == WithKeyMap(w, r.state.keyMap)
  {
    SetSpecialKey(w, code, false)
  }

  /** Pressing and then releasing a mapped special key leaves its slot
      released, whatever it was before. */
  lemma PressThenReleaseClears(w: World, code: int)
    requires SpecialKeySlot(code).Some?
    ensures SpecialReleasedKeyboardUpCb(SpecialPressedKeyboardCb(w, code), code).state.keyMap[SpecialKeySlot(code).value] == false
  {
  }

  /** mouseMotionCb: tilt the camera by a hundredth of a degree per pixel the
      pointer sits below the window's middle row, but only while the tilted
      angle stays strictly inside the elevation limit. */
  function MouseMotionCb(w: World, mouseX: int, mouseY: int): (r: World)
    ensures var a := w.state.cameraElevationAngle + ELEVATION_STEP * (mouseY - Half(w.state.windowHeight)) as real;
      r.state.cameraElevationAngle == if Abs(a) < CAMERA_ELEVATION_MAX then a else w.state.cameraElevationAngle
    ensures -CAMERA_ELEVATION_MAX < w.state.cameraElevationAngle < CAMERA_ELEVATION_MAX ==>
      -CAMERA_ELEVATION_MAX < r.state.cameraElevationAngle < CAMERA_ELEVATION_MAX
    ensures r == w.(state := w.state.(cameraElevationAngle := r.state.cameraElevationAngle))
  {
    var delta := ELEVATION_STEP * (mouseY - Half(w.state.windowHeight)) as real;
    if Abs(w.state.cameraElevationAngle + delta) < CAMERA_ELEVATION_MAX then
      w.(state := w.state.(cameraElevationAngle := w.state.cameraElevationAngle + delta))
    else w
  }

  /** A pointer resting on the window's middle row leaves the camera still. */
  lemma CenteredPointerKeepsElevation(w: World, mouseX: int)
    ensures MouseMotionCb(w, mouseX, Half(w.state.windowHeight)) == w
  {
  }

  /** reshapeCb: remember the new window size. */
  function ReshapeCb(w: World, width: int, height: int): (r: World)
    ensures r.state.windowWidth == width && r.state.windowHeight == height
    ensures r == w.(state := w.state.(windowWidth := width, windowHeight := height))
  {
    w.(state := w.state.(windowWidth := width, windowHeight := height))
  }

  /** The speed after one tick's held keys: the up arrow's guarded
      acceleration first, then the down arrow's guarded deceleration on the
      accelerated value. */
  function TickSpeed(s: real, keys: KeyMap): real {
    var s1 := if keys[KEY_UP_ARROW] && s < PLAYER_SPEED_MAX then s + PLAYER_SPEED_INCREMENT else s;
    if keys[KEY_DOWN_ARROW] && s1 > PLAYER_SPEED_MIN then s1 - PLAYER_SPEED_INCREMENT else s1
  }

  /** The net turn of one tick's held keys, in degrees, before reduction. */
  function TickTurn(keys: KeyMap): real {
    (if keys[KEY_LEFT_ARROW] then PLAYER_VIEW_ANGLE_DELTA else 0.0)
      - (if keys[KEY_RIGHT_ARROW] then PLAYER_VIEW_ANGLE_DELTA else 0.0)
  }

  /** The view angle after one tick's held keys: the right arrow's fmod
      reduction first, then the left arrow's on its result. */
  function TickAngle(a: real, keys: KeyMap): real {
    var a1 := if keys[KEY_RIGHT_ARROW] then FMod360(a - PLAYER_VIEW_ANGLE_DELTA) else a;
    if keys[KEY_LEFT_ARROW] then FMod360(a1 + PLAYER_VIEW_ANGLE_DELTA) else a1
  }

  /** The net change of vertical speed of one tick's held keys. */
  function TickLift(keys: KeyMap): real {
    (if keys[KEY_SPACE] then PLAYER_UP_SPEED_INCREMENT else 0.0)
      - (if keys[KEY_SHIFT_L] then PLAYER_UP_SPEED_INCREMENT else 0.0)
  }

  /** The arrow keys' speed rules of one tick: forward, then backward. */
  function Throttle(p: Player, keys: KeyMap): (r: Player)
    ensures r.body.speed == TickSpeed(p.body.speed, keys)
    ensures r == p.(body := p.body.(speed := r.body.speed))
  {
    var p1 := if keys[KEY_UP_ARROW] then MovePlayerForward(p, PLAYER_SPEED_INCREMENT) else p;
    if keys[KEY_DOWN_ARROW] then MovePlayerBackward(p1, PLAYER_SPEED_INCREMENT) else p1
  }

  /** The arrow keys' turning rules of one tick: right, then left. The view
      angle ends a whole number of turns away from the net turn. */
  function Steer(p: Player, keys: KeyMap, trig: Trig): (r: Player)
    ensures r.viewAngle == TickAngle(p.viewAngle, keys)
    ensures IsIntegral((p.viewAngle + TickTurn(keys) - r.viewAngle) / 360.0)
    ensures keys[KEY_LEFT_ARROW] || keys[KEY_RIGHT_ARROW] ==>
      -360.0 < r.viewAngle < 360.0 && r.body.direction == Heading(trig, r.viewAngle)
    ensures !keys[KEY_LEFT_ARROW] && !keys[KEY_RIGHT_ARROW] ==> r == p
    ensures r.body == p.body.(direction := r.body.direction)
  {
    var p3 := if keys[KEY_RIGHT_ARROW] then MovePlayerRight(p, PLAYER_VIEW_ANGLE_DELTA, trig) else p;
    var r := if keys[KEY_LEFT_ARROW] then MovePlayerLeft(p3, PLAYER_VIEW_ANGLE_DELTA, trig) else p3;
    if keys[KEY_RIGHT_ARROW] && keys[KEY_LEFT_ARROW] then
      RightThenLeftKeepsHeading(p, PLAYER_VIEW_ANGLE_DELTA, trig);
      assert p.viewAngle + TickTurn(keys) == p.viewAngle;
      r
    else if !keys[KEY_RIGHT_ARROW] && !keys[KEY_LEFT_ARROW] then
      assert (p.viewAngle + TickTurn(keys) - r.viewAngle) / 360.0 == 0.0;
      r
    else r
  }

  /** The space and left-shift rules of one tick: up, then down. */
  function Lift(p: Player, keys: KeyMap): (r: Player)
    ensures r.body.verticalSpeed == p.body.verticalSpeed + TickLift(keys)
    ensures r == p.(body := p.body.(verticalSpeed := r.body.verticalSpeed))
  {
    var p5 := if keys[KEY_SPACE] then MovePlayerUp(p, PLAYER_UP_SPEED_INCREMENT) else p;
    if keys[KEY_SHIFT_L] then MovePlayerDown(p5, PLAYER_UP_SPEED_INCREMENT) else p5
  }

  /** A second resize supersedes the first. */
  lemma ReshapeKeepsLatest(w: World, width1: int, height1: int, width2: int, height2: int)
    ensures ReshapeCb(ReshapeCb(w, width1, height1), width2, height2) == ReshapeCb(w, width2, height2)
  {
  }

  /** The movement rules of one tick, in the timer's fixed order: forward,
      backward, right, left, up, down, each applied when its key is held.
      The order matters for the speed: the down arrow sees the speed the up
      arrow left behind. */
  function ApplyHeldKeys(p: Player, keys: KeyMap, trig: Trig): (r: Player)
    ensures r.body.speed == TickSpeed(p.body.speed, keys)
    ensures r.viewAngle == TickAngle(p.viewAngle, keys)
    ensures IsIntegral((p.viewAngle + TickTurn(keys) - r.viewAngle) / 360.0)
    ensures keys[KEY_LEFT_ARROW] || keys[KEY_RIGHT_ARROW] ==>
      -360.0 < r.viewAngle < 360.0 && r.body.direction == Heading(trig, r.viewAngle)
    ensures !keys[KEY_LEFT_ARROW] && !keys[KEY_RIGHT_ARROW] ==>
      r.viewAngle == p.viewAngle && r.body.direction == p.body.direction
    ensures r.body.verticalSpeed == p.body.verticalSpeed + TickLift(keys)
    ensures r.body == p.body.(speed := r.body.speed, direction := r.body.direction, verticalSpeed := r.body.verticalSpeed)
  {
    Lift(Steer(Throttle(p, keys), keys, trig), keys)
  }

  /** Holding both speed arrows at top speed: forward is refused at the
      guard, then backward slows the player, so the order of the rules shows
      in the result. */
  lemma BothSpeedKeysAtTopSpeed(keys: KeyMap)
    requires keys[KEY_UP_ARROW] && keys[KEY_DOWN_ARROW]
    ensures TickSpeed(PLAYER_SPEED_MAX, keys) == PLAYER_SPEED_MAX - PLAYER_SPEED_INCREMENT
  {
  }

  /** timerCb: apply the held keys' movement rules, then integrate the player
      with the clock value stored by the last restart (the only writer of
      elapsedTime), so the player's current time never moves past its start
      time. */
  function TimerCb(w: World, trig: Trig): (r: World)
    ensures r.state == w.state && r.terrain == w.terrain
    ensures r.player.body.currentTime == w.state.elapsedTime
    ensures r.player.body.startTime == w.player.body.startTime
    ensures r.player.body.verticalSpeed == w.player.body.verticalSpeed
      + (if w.state.keyMap[KEY_SPACE] then PLAYER_UP_SPEED_INCREMENT else 0.0)
      - (if w.state.keyMap[KEY_SHIFT_L] then PLAYER_UP_SPEED_INCREMENT else 0.0)
    ensures r.player.body.speed == TickSpeed(w.player.body.speed, w.state.keyMap)
    ensures !w.state.keyMap[KEY_UP_ARROW] && !w.state.keyMap[KEY_DOWN_ARROW] ==>
      r.player.body.speed == w.player.body.speed
    ensures r.player.viewAngle == TickAngle(w.player.viewAngle, w.state.keyMap)
    ensures r.player.body == w.player.body.(position := r.player.body.position,
      direction := r.player.body.direction, speed := r.player.body.speed,
      verticalSpeed := r.player.body.verticalSpeed, currentTime := w.state.elapsedTime)
    // the player moves with the speed, direction and vertical speed the keys left behind
    ensures var q, b := w.player.body, r.player.body;
      && b.position.x == q.position.x + b.direction.x * b.speed * POSITION_STEP
      && b.position.y == q.position.y + b.direction.y * b.speed * POSITION_STEP
      && var z := q.position.z + b.direction.z * b.speed * POSITION_STEP;
         b.position.z == if z < MAX_HEIGHT then z + b.verticalSpeed * POSITION_STEP else z
    ensures SpeedInBand(w.player.body.speed) ==> SpeedInBand(r.player.body.speed)
    ensures !w.state.keyMap[KEY_LEFT_ARROW] && !w.state.keyMap[KEY_RIGHT_ARROW] ==>
      r.player.viewAngle == w.player.viewAngle && r.player.body.direction == w.player.body.direction
    ensures w.state.keyMap[KEY_LEFT_ARROW] || w.state.keyMap[KEY_RIGHT_ARROW] ==>
      -360.0 < r.player.viewAngle < 360.0 && r.player.body.direction == Heading(trig, r.player.viewAngle)
      && r.player.body.direction.z == 0.0
    ensures r.player.body.size == w.player.body.size && r.player.body.destroyed == w.player.body.destroyed
  {
    var keyed := ApplyHeldKeys(w.player, w.state.keyMap, trig);
    var moved := UpdateObjects(keyed, w.state.elapsedTime);
    assert moved.body == keyed.body.(position := moved.body.position, currentTime := w.state.elapsedTime);
    w.(player := moved)
  }

  /** The events the window system delivers to the registered handlers. The
      key-release handler is never registered, so there is no event for it. */
  datatype Event =
    | Key(key: char, clockMs: int)
    | SpecialDown(code: int)
    | SpecialUp(code: int)
    | MouseMove(x: int, y: int)
    | Reshape(width: int, height: int)
    | Tick

  /** The escape key, the one event that ends the program. */
  predicate IsExit(e: Event) {
    e.Key? && e.key == ESCAPE
  }

  /** Dispatch one event. Pointer motion reaches mouseMotionCb only in
      free-camera mode: the 'c' key registers the motion handler exactly when
      it turns free-camera mode on and unregisters it when it turns it off,
      and a restart unregisters it together with leaving that mode. */
  function Step(w: World, e: Event, trig: Trig): (r: Reaction)
    ensures r.Exit? <==> IsExit(e)
    ensures e.Key? ==> r == KeyboardCb(w, e.key, e.clockMs, trig)
    ensures e.SpecialDown? ==> r == Continue(SpecialPressedKeyboardCb(w, e.code))
    ensures e.SpecialUp? ==> r == Continue(SpecialReleasedKeyboardUpCb(w, e.code))
    ensures e.MouseMove? && w.state.freeCameraMode ==> r == Continue(MouseMotionCb(w, e.x, e.y))
    ensures e.MouseMove? && !w.state.freeCameraMode ==> r == Continue(w)
    ensures e.Reshape? ==> r == Continue(ReshapeCb(w, e.width, e.height))
    ensures e.Tick? ==> r == Continue(TimerCb(w, trig))
  {
    match e
    case Key(key, clockMs) => KeyboardCb(w, key, clockMs, trig)
    case SpecialDown(code) => Continue(SpecialPressedKeyboardCb(w, code))
    case SpecialUp(code) => Continue(SpecialReleasedKeyboardUpCb(w, code))
    case MouseMove(x, y) => Continue(if w.state.freeCameraMode then MouseMotionCb(w, x, y) else w)
    case Reshape(width, height) => Continue(ReshapeCb(w, width, height))
    case Tick => Continue(TimerCb(w, trig))
  }

  /** The world after a sequence of events, stopping at an exit. */
  function Run(w: World, events: seq<Event>, trig: Trig): (r: World)
    ensures |events| == 0 ==> r == w
    ensures |events| > 0 && IsExit(events[0]) ==> r == w
    ensures |events| == 1 && !IsExit(events[0]) ==> r == Step(w, events[0], trig).world
    decreases |events|
  {
    if |events| == 0 then w
    else match Step(w, events[0], trig)
      case Exit => w
      case Continue(next) => Run(next, events[1..], trig)
  }

  /** Events before the first escape run one after another: a prefix with no
      escape can be run first and the rest continued from its result. */
  lemma {:induction false} RunAppend(w: World, a: seq<Event>, b: seq<Event>, trig: Trig)
    requires forall i | 0 <= i < |a| :: !IsExit(a[i])
    ensures Run(w, a + b, trig) == Run(Run(w, a, trig), b, trig)
    decreases |a|
  {
    if |a| > 0 {
      assert (a + b)[0] == a[0];
      assert (a + b)[1..] == a[1..] + b;
      RunAppend(Step(w, a[0], trig).world, a[1..], b, trig);
    } else {
      assert a + b == b;
    }
  }

  /** Nothing after an escape key has any effect. */
  lemma {:induction false} RunStopsAtExit(w: World, events: seq<Event>, i: nat, trig: Trig)
    requires i < |events| && IsExit(events[i])
    ensures Run(w, events, trig) == Run(w, events[..i], trig)
    decreases i
  {
    if i > 0 {
      assert events[..i][0] == events[0];
      match Step(w, events[0], trig)
      case Exit =>
      case Continue(next) =>
        assert events[..i][1..] == events[1..][..i - 1];
        RunStopsAtExit(next, events[1..], i - 1, trig);
    }
  }

  lemma StepPreservesInvariant(w: World, e: Event, trig: Trig)
    requires Invariant(w)
    ensures Step(w, e, trig).Continue? ==> Invariant(Step(w, e, trig).world)
  {
  }

  lemma {:induction false} RunPreservesInvariant(w: World, events: seq<Event>, trig: Trig)
    requires Invariant(w)
    ensures Invariant(Run(w, events, trig))
    decreases |events|
  {
    if |events| > 0 {
      StepPreservesInvariant(w, events[0], trig);
      match Step(w, events[0], trig)
      case Exit =>
      case Continue(next) => RunPreservesInvariant(next, events[1..], trig);
    }
  }

  /** From start-up on, whatever the events: the speed stays strictly within
      one increment of its guards, the camera elevation strictly within its
      limit, the view angle strictly within one full turn, and the player's
      clock never advances past its start time. */
  lemma {:induction false} ReachableWorldsAreBounded(clockMs: int, events: seq<Event>, trig: Trig)
    ensures var w := Run(InitialWorld(clockMs, trig), events, trig);
      && PLAYER_SPEED_MIN - PLAYER_SPEED_INCREMENT < w.player.body.speed < PLAYER_SPEED_MAX + PLAYER_SPEED_INCREMENT
      && Abs(w.state.cameraElevationAngle) < CAMERA_ELEVATION_MAX
      && Abs(w.player.viewAngle) < 360.0
      && w.player.body.direction.z == 0.0
      && w.player.body.currentTime == w.player.body.startTime
  {
    RunPreservesInvariant(InitialWorld(clockMs, trig), events, trig);
  }

  /** Because no release handler for ordinary keys is registered, a pressed
      space key stays pressed through every event except a restart. */
  lemma {:induction false} SpaceKeyLatches(w: World, events: seq<Event>, trig: Trig)
    requires w.state.keyMap[KEY_SPACE]
    requires forall j | 0 <= j < |events| :: !(events[j].Key? && events[j].key == 'r')
    ensures Run(w, events, trig).state.keyMap[KEY_SPACE]
    decreases |events|
  {
    if |events| > 0 {
      match Step(w, events[0], trig)
      case Exit =>
      case Continue(next) =>
        assert next.state.keyMap[KEY_SPACE];
        SpaceKeyLatches(next, events[1..], trig);
    }
  }
}
