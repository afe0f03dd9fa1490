/** Scene objects and the player, with the movement rules of main.cpp: the
    speed and turn rules applied by the timer and the per-tick integration of
    the player's position. */
module Motion {
  import opened Vectors
  import opened CMath
  import opened Config

  /** The fields every scene object carries. */
  datatype Object = Object(
    position: Vec3,
    direction: Vec3,
    speed: real,
    verticalSpeed: real,
    size: real,
    enableSpot: Vec3,
    destroyed: bool,
    startTime: real,
    currentTime: real,
    isInitialized: bool)

  /** An object as a value-initialising `new` leaves it: every field zero or false. */
  const BlankObject: Object := Object(Zero3, Zero3, 0.0, 0.0, 0.0, Zero3, false, 0.0, 0.0, false)

  /** The player: an object plus its heading in degrees. */
  datatype Player = Player(body: Object, viewAngle: real)

  /** Cosine and sine of an angle given in degrees (the standard library's
      cos and sin after glm::radians). They are supplied by the caller and
      never interpreted here. */
  datatype Trig = Trig(cosDeg: real -> real, sinDeg: real -> real)

  /** The horizontal heading vector for a view angle. */
  function Heading(trig: Trig, angle: real): (d: Vec3)
    ensures d.z == 0.0
  {
    Vec3(trig.cosDeg(angle), trig.sinDeg(angle), 0.0)
  }

  /** Fraction of the speed by which one tick moves the player. */
  const POSITION_STEP: real := 0.01

  /** movePlayerForward: accelerate while below the top speed. */
  function MovePlayerForward(p: Player, deltaSpeed: real): (r: Player)
    ensures p.body.speed < PLAYER_SPEED_MAX ==> r.body.speed == p.body.speed + deltaSpeed
    ensures PLAYER_SPEED_MAX <= p.body.speed ==> r.body.speed == p.body.speed
    ensures r == p.(body := p.body.(speed := r.body.speed))
  {
    if p.body.speed < PLAYER_SPEED_MAX then p.(body := p.body.(speed := p.body.speed + deltaSpeed)) else p
  }

  /** movePlayerBackward: decelerate while above the bottom speed. */
  function MovePlayerBackward(p: Player, deltaSpeed: real): (r: Player)
    ensures PLAYER_SPEED_MIN < p.body.speed ==> r.body.speed == p.body.speed - deltaSpeed
    ensures p.body.speed <= PLAYER_SPEED_MIN ==> r.body.speed == p.body.speed
    ensures r == p.(body := p.body.(speed := r.body.speed))
  {
    if p.body.speed > PLAYER_SPEED_MIN then p.(body := p.body.(speed := p.body.speed - deltaSpeed)) else p
  }

  /** The speed band that the timer's fixed increments never leave: the
      guards stop acceleration at the top and bottom speeds, so one more
      increment can overshoot them but never reach a full increment beyond. */
  predicate SpeedInBand(speed: real) {
    PLAYER_SPEED_MIN - PLAYER_SPEED_INCREMENT < speed < PLAYER_SPEED_MAX + PLAYER_SPEED_INCREMENT
  }

  lemma ForwardKeepsSpeedInBand(p: Player)
    requires SpeedInBand(p.body.speed)
    ensures SpeedInBand(MovePlayerForward(p, PLAYER_SPEED_INCREMENT).body.speed)
  {
  }

  lemma BackwardKeepsSpeedInBand(p: Player)
    requires SpeedInBand(p.body.speed)
    ensures SpeedInBand(MovePlayerBackward(p, PLAYER_SPEED_INCREMENT).body.speed)
  {
  }

  /** Turn the player to a new view angle: the angle is reduced by fmod and the
      direction becomes the matching horizontal heading. */
  function Turn(p: Player, angle: real, trig: Trig): (r: Player)
    ensures -360.0 < r.viewAngle < 360.0
    ensures 0.0 <= angle ==> 0.0 <= r.viewAngle
    ensures angle <= 0.0 ==> r.viewAngle <= 0.0
    ensures IsIntegral((angle - r.viewAngle) / 360.0)
    ensures r.body.direction == Heading(trig, r.viewAngle) && r.body.direction.z == 0.0
    ensures r.body == p.body.(direction := r.body.direction)
  {
    var a := FMod360(angle);
    Player(p.body.(direction := Heading(trig, a)), a)
  }

  /** movePlayerLeft: turn counter-clockwise by deltaAngle degrees. */
  function MovePlayerLeft(p: Player, deltaAngle: real, trig: Trig): (r: Player)
    ensures r.viewAngle == FMod360(p.viewAngle + deltaAngle)
    ensures -360.0 < r.viewAngle < 360.0
    ensures IsIntegral((p.viewAngle + deltaAngle - r.viewAngle) / 360.0)
    ensures r.body.direction.z == 0.0
    ensures r.body == p.body.(direction := Heading(trig, r.viewAngle))
  {
    Turn(p, p.viewAngle + deltaAngle, trig)
  }

  /** movePlayerRight: turn clockwise by deltaAngle degrees. */
  function MovePlayerRight(p: Player, deltaAngle: real, trig: Trig): (r: Player)
    ensures r.viewAngle == FMod360(p.viewAngle - deltaAngle)
    ensures -360.0 < r.viewAngle < 360.0
    ensures IsIntegral((p.viewAngle - deltaAngle - r.viewAngle) / 360.0)
    ensures r.body.direction.z == 0.0
    ensures r.body == p.body.(direction := Heading(trig, r.viewAngle))
  {
    Turn(p, p.viewAngle - deltaAngle, trig)
  }

  /** A right turn followed by a left turn of the same size leaves the view
      angle a whole number of turns away from where it started, although the
      reduced value may differ (359 + 2 reduces to 1, and 1 - 2 stays -1). */
  lemma {:induction false} RightThenLeftKeepsHeading(p: Player, delta: real, trig: Trig)
    ensures IsIntegral((p.viewAngle - MovePlayerLeft(MovePlayerRight(p, delta, trig), delta, trig).viewAngle) / 360.0)
  {
    var a1 := MovePlayerRight(p, delta, trig).viewAngle;
    var a2 := MovePlayerLeft(MovePlayerRight(p, delta, trig), delta, trig).viewAngle;
    TurnsCompose(p.viewAngle, delta, a1, a2);
  }

  /** Two reductions by whole turns, of a - delta and then of a1 + delta,
      compose to a whole number of turns. */
  lemma TurnsCompose(a: real, delta: real, a1: real, a2: real)
    requires IsIntegral((a - delta - a1) / 360.0)
    requires IsIntegral((a1 + delta - a2) / 360.0)
    ensures IsIntegral((a - a2) / 360.0)
  {
    var u := (a - delta - a1) / 360.0;
    var v := (a1 + delta - a2) / 360.0;
    IntegralSum(u, v);
    assert (a - a2) / 360.0 == u + v;
  }

  /** movePlayerUp: raise the vertical speed. */
  function MovePlayerUp(p: Player, deltaSpeed: real): (r: Player)
    ensures r.body.verticalSpeed == p.body.verticalSpeed + deltaSpeed
    ensures r == p.(body := p.body.(verticalSpeed := r.body.verticalSpeed))
  {
    p.(body := p.body.(verticalSpeed := p.body.verticalSpeed + deltaSpeed))
  }

  /** movePlayerDown: lower the vertical speed. */
  function MovePlayerDown(p: Player, deltaSpeed: real): (r: Player)
    ensures r.body.verticalSpeed == p.body.verticalSpeed - deltaSpeed
    ensures r == p.(body := p.body.(verticalSpeed := r.body.verticalSpeed))
  {
    p.(body := p.body.(verticalSpeed := p.body.verticalSpeed - deltaSpeed))
  }

  /** Moving up and then down by the same amount restores the player. */
  lemma UpThenDownRestores(p: Player, deltaSpeed: real)
    ensures MovePlayerDown(MovePlayerUp(p, deltaSpeed), deltaSpeed) == p
  {
  }

  /** updateObjects: record the time, move the player along its direction by
      a hundredth of its speed, then apply a hundredth of the vertical speed
      to the height only while the height is below MAX_HEIGHT. Nothing is
      clamped: x and y are unbounded, and there is no lower height guard. */
  function UpdateObjects(p: Player, elapsedTime: real): (r: Player)
    ensures r.body.currentTime == elapsedTime
    ensures r.body.position.x == p.body.position.x + p.body.direction.x * p.body.speed * POSITION_STEP
    ensures r.body.position.y == p.body.position.y + p.body.direction.y * p.body.speed * POSITION_STEP
    ensures var z := p.body.position.z + p.body.direction.z * p.body.speed * POSITION_STEP;
      r.body.position.z == if z < MAX_HEIGHT then z + p.body.verticalSpeed * POSITION_STEP else z
    ensures r == p.(body := p.body.(position := r.body.position, currentTime := elapsedTime))
  {
    var moved := Add(p.body.position, Scale(Scale(p.body.direction, p.body.speed), POSITION_STEP));
    var position := if moved.z < MAX_HEIGHT then moved.(z := moved.z + p.body.verticalSpeed * POSITION_STEP) else moved;
    p.(body := p.body.(currentTime := elapsedTime, position := position))
  }

  /** For a horizontal heading the height guard is one-sided: below
      MAX_HEIGHT the vertical speed applies in full, whatever its sign (so the
      height can fall past MIN_HEIGHT or jump past MAX_HEIGHT), and at or above
      MAX_HEIGHT the height is frozen. */
  lemma HeightGuardIsOneSided(p: Player, elapsedTime: real)
    requires p.body.direction.z == 0.0
    ensures var z' := UpdateObjects(p, elapsedTime).body.position.z;
      && (p.body.position.z < MAX_HEIGHT ==> z' == p.body.position.z + p.body.verticalSpeed * POSITION_STEP)
      && (MAX_HEIGHT <= p.body.position.z ==> z' == p.body.position.z)
  {
  }

  /** Concretely: a player just below the guard with a steep climb ends above
      it, and one sinking fast ends below MIN_HEIGHT. */
  lemma HeightIsNotClamped()
    ensures var p := Player(BlankObject.(position := Vec3(0.0, 0.0, 0.1), verticalSpeed := 10.0), 90.0);
      UpdateObjects(p, 0.0).body.position.z > MAX_HEIGHT
    ensures var p := Player(BlankObject.(position := Vec3(0.0, 0.0, -0.1), verticalSpeed := -10.0), 90.0);
      UpdateObjects(p, 0.0).body.position.z < MIN_HEIGHT
  {
  }
}
