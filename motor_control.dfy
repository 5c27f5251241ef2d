/** The packaged pan/tilt controller (`trackstormsbot/controller.py`).

    Each motor axis remembers the last direction it was commanded in; a call
    to `MoveToMiddle` compares the detection middle with the frame middle
    through a tolerance band, picks a direction per axis and sends a `pwm`
    command only to an axis whose direction changes. The decision is given
    first as pure functions (`Band`, `AxisUpdate`, `MoveTransition`,
    `StopTransition`); the classes then do the same step by step on their
    fields and are proved to agree with those functions. */
module MotorControl {
  import opened Common
  import opened Hardware

  /** The string held in `_x_movement` / `_y_movement`:
      'stop', 'left', 'right' (horizontal), 'up', 'down' (vertical). */
  datatype Movement = Stopped | Left | Right | Up | Down

  /** Where a detection coordinate lies against the tolerance band around
      the frame middle: below it (smaller coordinate), inside it, or above it. */
  datatype Side = BelowBand | InBand | AboveBand

  /** The keyword arguments of `move_to_middle` other than the two middles. */
  datatype Tuning = Tuning(horTolerance: real, verTolerance: real, horSpeed: real, verSpeed: real)

  /** `hor_tolerance=0.2, ver_tolerance=0.2, hor_speed=12, ver_speed=3`. */
  const DefaultTuning := Tuning(0.2, 0.2, 12.0, 3.0)

  /** The band test of one axis, with `tolerance * centre` as the half-width
      of the band. The first test wins, so the band is well defined even for
      a negative half-width; for a non-negative one, both boundaries belong
      to the band. */
  function Band(centre: int, target: int, tolerance: real): (s: Side)
    ensures var tolAbs := centre as real * tolerance;
      (s == BelowBand <==> target as real < centre as real - tolAbs) &&
      (tolAbs >= 0.0 ==>
        (s == AboveBand <==> target as real > centre as real + tolAbs) &&
        (s == InBand <==> Abs(target as real - centre as real) <= tolAbs))
  {
    var tolAbs := centre as real * tolerance;
    if centre as real > target as real + tolAbs then BelowBand
    else if centre as real < target as real - tolAbs then AboveBand
    else InBand
  }

  /** A target left of the band turns the camera right, one right of it turns it left. */
  function HorizontalMovement(s: Side): (m: Movement)
    ensures m in {Stopped, Left, Right}
  {
    match s
    case BelowBand => Right
    case AboveBand => Left
    case InBand => Stopped
  }

  /** A target above the band (smaller y) tilts up, one below it tilts down. */
  function VerticalMovement(s: Side): (m: Movement)
    ensures m in {Stopped, Up, Down}
  {
    match s
    case BelowBand => Up
    case AboveBand => Down
    case InBand => Stopped
  }

  /** The duty cycle sent for a movement: `-speed / 100` for 'right' and
      'up', `speed / 100` for 'left' and 'down', 0 for 'stop'. */
  function Duty(m: Movement, speed: real): (d: real)
    ensures m == Stopped ==> d == 0.0
    ensures (m == Right || m == Up) ==> d * 100.0 == -speed
    ensures (m == Left || m == Down) ==> d * 100.0 == speed
  {
    match m
    case Right => -speed / 100.0
    case Up => -speed / 100.0
    case Left => speed / 100.0
    case Down => speed / 100.0
    case Stopped => 0.0
  }

  /** The emit-on-change rule of one axis: the axis always ends in the
      desired movement, and a command is sent only if that is a change. */
  function AxisUpdate(motor: Motor, current: Movement, desired: Movement, speed: real): (r: (Movement, seq<Command>))
    ensures r.0 == desired
    ensures r.1 == [] <==> current == desired
    ensures |r.1| <= 1
    ensures forall c :: c in r.1 ==> c == Pwm(motor, Duty(desired, speed))
    ensures r.1 == Emitted(motor, current, desired, speed)
  {
    if current == desired then (current, []) else (desired, [Pwm(motor, Duty(desired, speed))])
  }

  /** What the controller remembers between calls: `_x_movement`,
      `_y_movement` and `_target`. */
  datatype ControllerState = ControllerState(x: Movement, y: Movement, target: (int, int))

  /** The horizontal axis only ever holds horizontal movements, the vertical one vertical movements. */
  predicate WellFormed(s: ControllerState)
  {
    s.x in {Stopped, Left, Right} && s.y in {Stopped, Up, Down}
  }

  /** `MotorController()`: both axes stopped and the target `(0, 0)`. */
  const InitialState := ControllerState(Stopped, Stopped, (0, 0))

  /** The `pwm` command(s) that take an axis from `before` to `after`: none when they agree. */
  function Emitted(motor: Motor, before: Movement, after: Movement, speed: real): seq<Command>
  {
    if before == after then [] else [Pwm(motor, Duty(after, speed))]
  }

  /** One call of `move_to_middle`: a repeated target changes nothing; any
      other target sets each axis to its band's movement, records the
      target, and sends one `pwm` to each axis whose movement changed,
      horizontal first. */
  function MoveTransition(s: ControllerState, frameMiddle: (int, int), detectionMiddle: (int, int), t: Tuning)
    : (r: (ControllerState, seq<Command>))
    ensures s.target == detectionMiddle ==> r == (s, [])
    ensures s.target != detectionMiddle ==>
      r.0 == ControllerState(
        HorizontalMovement(Band(frameMiddle.0, detectionMiddle.0, t.horTolerance)),
        VerticalMovement(Band(frameMiddle.1, detectionMiddle.1, t.verTolerance)),
        detectionMiddle)
    ensures r.1 == Emitted(MotorX, s.x, r.0.x, t.horSpeed) + Emitted(MotorY, s.y, r.0.y, t.verSpeed)
    ensures WellFormed(s) ==> WellFormed(r.0)
  {
    if s.target == detectionMiddle then (s, [])
    else
      var (x, xs) := AxisUpdate(MotorX, s.x, HorizontalMovement(Band(frameMiddle.0, detectionMiddle.0, t.horTolerance)), t.horSpeed);
      var (y, ys) := AxisUpdate(MotorY, s.y, VerticalMovement(Band(frameMiddle.1, detectionMiddle.1, t.verTolerance)), t.verSpeed);
      (ControllerState(x, y, detectionMiddle), xs + ys)
  }

  /** One call of `stop`: both axes end stopped, `pwm(0)` goes only to an
      axis that was moving, and the target is kept. */
  function StopTransition(s: ControllerState): (r: (ControllerState, seq<Command>))
    ensures r.0 == ControllerState(Stopped, Stopped, s.target)
    ensures r.1 == Emitted(MotorX, s.x, Stopped, 0.0) + Emitted(MotorY, s.y, Stopped, 0.0)
    ensures forall c :: c in r.1 ==> c.Pwm? && c.duty == 0.0
  {
    var (x, xs) := AxisUpdate(MotorX, s.x, Stopped, 0.0);
    var (y, ys) := AxisUpdate(MotorY, s.y, Stopped, 0.0);
    (ControllerState(x, y, s.target), xs + ys)
  }

  /** A call sends at most one command to each motor, and only `pwm` commands. */
  lemma AtMostOneCommandPerMotor(s: ControllerState, frameMiddle: (int, int), detectionMiddle: (int, int), t: Tuning)
    ensures var cmds := MoveTransition(s, frameMiddle, detectionMiddle, t).1;
      |cmds| <= 2 &&
      (forall c :: c in cmds ==> c.Pwm?) &&
      (forall i, j :: 0 <= i < j < |cmds| ==> cmds[i].motor != cmds[j].motor)
  {
  }

  /** Calling `move_to_middle` twice with the same target sends nothing the second time. */
  lemma RepeatedTargetIsNoOp(s: ControllerState, frameMiddle: (int, int), detectionMiddle: (int, int), t: Tuning)
    ensures var s1 := MoveTransition(s, frameMiddle, detectionMiddle, t).0;
      MoveTransition(s1, frameMiddle, detectionMiddle, t) == (s1, [])
  {
  }

  /** A new target that falls in the same band on both axes as the previous
      one sends nothing; only the stored target moves. */
  lemma SameBandsSendNothing(s: ControllerState, frameMiddle: (int, int), d1: (int, int), d2: (int, int), t: Tuning)
    requires s.target != d1 && d1 != d2
    requires Band(frameMiddle.0, d1.0, t.horTolerance) == Band(frameMiddle.0, d2.0, t.horTolerance)
    requires Band(frameMiddle.1, d1.1, t.verTolerance) == Band(frameMiddle.1, d2.1, t.verTolerance)
    ensures var s1 := MoveTransition(s, frameMiddle, d1, t).0;
      MoveTransition(s1, frameMiddle, d2, t) == (s1.(target := d2), [])
  {
  }

  /** From the initial state, two targets left of the band send exactly one
      `pwm` between them: stop -> right -> right. */
  lemma StopRightRightSendsOnce()
    ensures var f := (320, 240);
      var (s1, c1) := MoveTransition(InitialState, f, (200, 240), DefaultTuning);
      var (s2, c2) := MoveTransition(s1, f, (190, 240), DefaultTuning);
      s1.x == Right && s2.x == Right && c1 == [Pwm(MotorX, -0.12)] && c2 == []
  {
  }

  /** The band for a 640x480 frame (middle (320, 240)) with the default
      tolerance is 64 pixels either side: x = 300 and both boundaries stop
      the horizontal motor, x = 200 turns it right, x = 450 turns it left. */
  lemma DefaultBandExamples()
    ensures HorizontalMovement(Band(320, 300, 0.2)) == Stopped
    ensures HorizontalMovement(Band(320, 256, 0.2)) == Stopped
    ensures HorizontalMovement(Band(320, 384, 0.2)) == Stopped
    ensures HorizontalMovement(Band(320, 255, 0.2)) == Right
    ensures HorizontalMovement(Band(320, 200, 0.2)) == Right
    ensures HorizontalMovement(Band(320, 385, 0.2)) == Left
    ensures HorizontalMovement(Band(320, 450, 0.2)) == Left
    ensures VerticalMovement(Band(240, 100, 0.2)) == Up
    ensures VerticalMovement(Band(240, 300, 0.2)) == Down
  {
  }

  /** A second `stop` sends nothing. */
  lemma StopIsIdempotent(s: ControllerState)
    ensures var s1 := StopTransition(s).0;
      StopTransition(s1) == (s1, [])
  {
  }

  /** `stop` keeps the target, so sending the previous target again after a
      `stop` is still a no-op: the motors stay stopped until the target moves. */
  lemma SameTargetAfterStopIsNoOp(s: ControllerState, frameMiddle: (int, int), detectionMiddle: (int, int), t: Tuning)
    ensures var s1 := StopTransition(MoveTransition(s, frameMiddle, detectionMiddle, t).0).0;
      s1.x == Stopped && s1.y == Stopped &&
      MoveTransition(s1, frameMiddle, detectionMiddle, t) == (s1, [])
  {
  }

  /** `MotorController`: the two motors, their movements, the last target,
      and the log of commands sent to the motors. */
  class MotorController {
    const motorPorts: (string, string)
    var xMovement: Movement
    var yMovement: Movement
    var target: (int, int)
    var log: seq<Command>

    function State(): ControllerState
      reads this
    {
      ControllerState(xMovement, yMovement, target)
    }

    ghost predicate Valid()
      reads this
    {
      WellFormed(State())
    }

    constructor (motorPorts: (string, string))
      ensures this.motorPorts == motorPorts
      ensures State() == InitialState && log == []
      ensures Valid()
    {
      this.motorPorts := motorPorts;
      xMovement := Stopped;
      yMovement := Stopped;
      target := (0, 0);
      log := [];
    }

    method MoveToMiddle(frameMiddle: (int, int), detectionMiddle: (int, int), tuning: Tuning)
      requires Valid()
      modifies this
      ensures Valid()
      ensures State() == MoveTransition(old(State()), frameMiddle, detectionMiddle, tuning).0
      ensures log == old(log) + MoveTransition(old(State()), frameMiddle, detectionMiddle, tuning).1
    {
      if target == detectionMiddle {
        return;
      }

      TrackHorizontally(frameMiddle, detectionMiddle, tuning);
      TrackVertically(frameMiddle, detectionMiddle, tuning);
      target := detectionMiddle;
    }

    /** The horizontal half of `move_to_middle`: `_x_movement` takes the
        band's movement and a `pwm` is sent only when it changes. */
    method TrackHorizontally(frameMiddle: (int, int), detectionMiddle: (int, int), tuning: Tuning)
      modifies this`xMovement, this`log
      ensures xMovement == HorizontalMovement(Band(frameMiddle.0, detectionMiddle.0, tuning.horTolerance))
      ensures log == old(log) + Emitted(MotorX, old(xMovement), xMovement, tuning.horSpeed)
    {
      var horTolAbs := frameMiddle.0 as real * tuning.horTolerance;
      if frameMiddle.0 as real > detectionMiddle.0 as real + horTolAbs {
        if xMovement != Right {
          xMovement := Right;
          log := log + [Pwm(MotorX, -tuning.horSpeed / 100.0)];
        }
      } else if frameMiddle.0 as real < detectionMiddle.0 as real - horTolAbs {
        if xMovement != Left {
          xMovement := Left;
          log := log + [Pwm(MotorX, tuning.horSpeed / 100.0)];
        }
      } else {
        if xMovement != Stopped {
          xMovement := Stopped;
          log := log + [Pwm(MotorX, 0.0)];
        }
      }
    }

    /** The vertical half of `move_to_middle`, on `_y_movement`. */
    method TrackVertically(frameMiddle: (int, int), detectionMiddle: (int, int), tuning: Tuning)
      modifies this`yMovement, this`log
      ensures yMovement == VerticalMovement(Band(frameMiddle.1, detectionMiddle.1, tuning.verTolerance))
      ensures log == old(log) + Emitted(MotorY, old(yMovement), yMovement, tuning.verSpeed)
    {
      var verTolAbs := frameMiddle.1 as real * tuning.verTolerance;
      if frameMiddle.1 as real > detectionMiddle.1 as real + verTolAbs {
        if yMovement != Up {
          yMovement := Up;
          log := log + [Pwm(MotorY, -tuning.verSpeed / 100.0)];
        }
      } else if frameMiddle.1 as real < detectionMiddle.1 as real - verTolAbs {
        if yMovement != Down {
          yMovement := Down;
          log := log + [Pwm(MotorY, tuning.verSpeed / 100.0)];
        }
      } else {
        if yMovement != Stopped {
          yMovement := Stopped;
          log := log + [Pwm(MotorY, 0.0)];
        }
      }
    }

    /** Sends both motors to an absolute position without waiting; the
        tracking state is untouched. */
    method ToPosition(x: int, y: int)
      modifies this`log
      ensures log == old(log) + [RunToPosition(MotorX, x), RunToPosition(MotorY, y)]
    {
      log := log + [RunToPosition(MotorX, x)];
      log := log + [RunToPosition(MotorY, y)];
    }

    method Stop()
      requires Valid()
      modifies this
      ensures Valid()
      ensures State() == StopTransition(old(State())).0
      ensures log == old(log) + StopTransition(old(State())).1
    {
      if xMovement != Stopped {
        xMovement := Stopped;
        log := log + [Pwm(MotorX, 0.0)];
      }
      if yMovement != Stopped {
        yMovement := Stopped;
        log := log + [Pwm(MotorY, 0.0)];
      }
    }
  }

  /** `DistanceSensorController.DEFAULT_EYE_STATE`. */
  const DefaultEyeState: EyeValues := (0, 0, 0, 0)

  /** The emit-on-change rule of `set_eyes`: the eyes always end at the new
      values, and `eyes` is called only if they differ from the stored ones. */
  function EyesUpdate(current: EyeValues, next: EyeValues): (r: (EyeValues, seq<Command>))
    ensures r.0 == next
    ensures r.1 == [] <==> next == current
    ensures forall c :: c in r.1 ==> c == Eyes(next)
    ensures |r.1| <= 1
  {
    if next != current then (next, [Eyes(next)]) else (current, [])
  }

  /** Switching the eyes off right after construction sends nothing, and so
      does setting the same values twice. */
  lemma EyesEmitOnlyOnChange(v: EyeValues)
    ensures EyesUpdate(DefaultEyeState, (0, 0, 0, 0)).1 == []
    ensures EyesUpdate(EyesUpdate(DefaultEyeState, v).0, v).1 == []
  {
  }

  /** `DistanceSensorController`: the last eye values sent and the log of
      commands sent to the sensor. */
  class DistanceSensorController {
    const port: string
    var eyeValues: EyeValues
    var log: seq<Command>

    /** The sensor starts with the default eye state and no command sent. */
    constructor (port: string)
      ensures this.port == port && eyeValues == DefaultEyeState && log == []
    {
      this.port := port;
      eyeValues := DefaultEyeState;
      log := [];
    }

    method SetEyes(rightUpper: int, leftUpper: int, rightLower: int, leftLower: int)
      modifies this
      ensures eyeValues == EyesUpdate(old(eyeValues), (rightUpper, leftUpper, rightLower, leftLower)).0
      ensures log == old(log) + EyesUpdate(old(eyeValues), (rightUpper, leftUpper, rightLower, leftLower)).1
    {
      var newEyeValues := (rightUpper, leftUpper, rightLower, leftLower);
      if newEyeValues != eyeValues {
        log := log + [Eyes(newEyeValues)];
        eyeValues := newEyeValues;
      }
    }
  }
}
