/** The rate-limited pan/tilt controller (`controller.py` at the top of the
    repository). It makes the same per-axis decisions as the packaged
    controller, whose pure functions it reuses, and adds a minimum interval
    of `1 / rate` seconds between accepted commands. The clock is the
    parameter `now`: both readings of the clock inside one call are taken as
    the same instant. */
module RateLimitedControl {
  import opened Hardware
  import MotorControl

  /** The memory of the controller: the packaged controller's axes and
      target, plus `_last_command`. */
  datatype RateState = RateState(axes: MotorControl.ControllerState, lastCommand: real)

  /** `MotorController(...)`: both axes stopped, target `(0, 0)`, `_last_command = 0`. */
  const InitialRateState := RateState(MotorControl.InitialState, 0.0)

  /** The rate guard: a positive rate rejects a call earlier than `1 / rate`
      after the last command; a rate of zero or less never rejects. */
  predicate TooSoon(rate: real, lastCommand: real, now: real)
  {
    rate > 0.0 && now < lastCommand + 1.0 / rate
  }

  /** Whether a call of `move_to_middle` gets past both guards. */
  predicate Accepted(s: RateState, rate: real, now: real, detectionMiddle: (int, int))
  {
    s.axes.target != detectionMiddle && !TooSoon(rate, s.lastCommand, now)
  }

  /** One call of `move_to_middle` at time `now`. The repeated-target guard
      comes first, so a repeated target is a no-op at any time; a call that
      is too soon changes nothing either, so the target it carried is not
      recorded; an accepted call does what the packaged controller does and
      stamps the time. */
  function RateMoveTransition(s: RateState, rate: real, now: real, frameMiddle: (int, int),
                              detectionMiddle: (int, int), t: MotorControl.Tuning): (r: (RateState, seq<Command>))
    ensures s.axes.target == detectionMiddle ==> r == (s, [])
    ensures s.axes.target != detectionMiddle && rate > 0.0 && now < s.lastCommand + 1.0 / rate ==> r == (s, [])
    ensures Accepted(s, rate, now, detectionMiddle) ==>
      r.0.lastCommand == now &&
      r.0.axes.target == detectionMiddle &&
      (r.0.axes, r.1) == MotorControl.MoveTransition(s.axes, frameMiddle, detectionMiddle, t)
  {
    if s.axes.target == detectionMiddle then (s, [])
    else if TooSoon(rate, s.lastCommand, now) then (s, [])
    else
      var (axes, cmds) := MotorControl.MoveTransition(s.axes, frameMiddle, detectionMiddle, t);
      (RateState(axes, now), cmds)
  }

  /** One call of `stop` at time `now`: the packaged controller's `stop`,
      and the time of the call becomes the last command time even when no
      motor had to be stopped. */
  function RateStopTransition(s: RateState, now: real): (r: (RateState, seq<Command>))
    ensures r.0.lastCommand == now
    ensures r.0.axes.x == MotorControl.Stopped && r.0.axes.y == MotorControl.Stopped
    ensures r.0.axes.target == s.axes.target
    ensures r.1 == MotorControl.StopTransition(s.axes).1
  {
    var (axes, cmds) := MotorControl.StopTransition(s.axes);
    (RateState(axes, now), cmds)
  }

  /** With the rate guard disabled (`rate <= 0`, the default `-1`), the
      controller moves and commands exactly as the packaged one. */
  lemma RateDisabledMatchesPackaged(s: RateState, rate: real, now: real, frameMiddle: (int, int),
                                    detectionMiddle: (int, int), t: MotorControl.Tuning)
    requires rate <= 0.0
    ensures var r := RateMoveTransition(s, rate, now, frameMiddle, detectionMiddle, t);
      (r.0.axes, r.1) == MotorControl.MoveTransition(s.axes, frameMiddle, detectionMiddle, t)
  {
  }

  /** A `move_to_middle` less than `1 / rate` after a `stop` is rejected,
      whether or not the `stop` sent anything. */
  lemma StopDelaysNextMove(s: RateState, rate: real, stopAt: real, now: real, frameMiddle: (int, int),
                           detectionMiddle: (int, int), t: MotorControl.Tuning)
    requires rate > 0.0 && stopAt <= now < stopAt + 1.0 / rate
    ensures var s1 := RateStopTransition(s, stopAt).0;
      RateMoveTransition(s1, rate, now, frameMiddle, detectionMiddle, t) == (s1, [])
  {
  }

  /** A rejected call leaves no trace, so the next allowed call with the
      same target acts on it exactly as if the rejected one never happened. */
  lemma RejectedCallCatchesUp(s: RateState, rate: real, early: real, later: real, frameMiddle: (int, int),
                              detectionMiddle: (int, int), t: MotorControl.Tuning)
    requires s.axes.target != detectionMiddle
    requires TooSoon(rate, s.lastCommand, early) && !TooSoon(rate, s.lastCommand, later)
    ensures var s1 := RateMoveTransition(s, rate, early, frameMiddle, detectionMiddle, t).0;
      RateMoveTransition(s1, rate, later, frameMiddle, detectionMiddle, t) ==
      RateMoveTransition(s, rate, later, frameMiddle, detectionMiddle, t)
    ensures RateMoveTransition(s, rate, later, frameMiddle, detectionMiddle, t).0.axes.target == detectionMiddle
  {
  }

  /** A call of the controller in a run: `move_to_middle` or `stop`, with the time it happens. */
  datatype Event =
    | MoveEvent(frameMiddle: (int, int), detectionMiddle: (int, int), tuning: MotorControl.Tuning, now: real)
    | StopEvent(now: real)

  /** The final state, all commands sent, and the times of the accepted
      `move_to_middle` calls, of running `events` in order from `s`. */
  function Run(s: RateState, rate: real, events: seq<Event>): (seq<Command>, RateState, seq<real>)
    decreases |events|
  {
    if events == [] then ([], s, [])
    else
      var e := events[0];
      var (s1, cmds, accepted) :=
        match e
        case MoveEvent(f, d, t, now) =>
          var r := RateMoveTransition(s, rate, now, f, d, t);
          (r.0, r.1, if Accepted(s, rate, now, d) then [now] else [])
        case StopEvent(now) =>
          var r := RateStopTransition(s, now);
          (r.0, r.1, []);
      var (rest, s2, restAccepted) := Run(s1, rate, events[1..]);
      (cmds + rest, s2, accepted + restAccepted)
  }

  /** Each time in `ts` is at least `d` after the one before it, the first at least `d` after `prev`. */
  ghost predicate Spaced(prev: real, ts: seq<real>, d: real)
  {
    (|ts| > 0 ==> ts[0] >= prev + d) &&
    (forall i :: 0 < i < |ts| ==> ts[i] >= ts[i - 1] + d)
  }

  /** The events happen no earlier than `t0` and in time order. */
  ghost predicate InTimeOrder(t0: real, events: seq<Event>)
  {
    (forall i :: 0 <= i < |events| ==> t0 <= events[i].now) &&
    (forall i, j :: 0 <= i < j < |events| ==> events[i].now <= events[j].now)
  }

  lemma SpacedCons(prev: real, t: real, ts: seq<real>, d: real)
    requires t >= prev + d && Spaced(t, ts, d)
    ensures Spaced(prev, [t] + ts, d)
  {
    var us := [t] + ts;
    forall i | 0 < i < |us|
      ensures us[i] >= us[i - 1] + d
    {
      assert us[i] == ts[i - 1];
      if i > 1 {
        assert us[i - 1] == ts[i - 2];
      }
    }
  }

  lemma SpacedAfterEarlier(prev: real, later: real, ts: seq<real>, d: real)
    requires prev <= later && Spaced(later, ts, d)
    ensures Spaced(prev, ts, d)
  {
  }

  /** Rate bound: with a positive rate, and calls made in time order, any
      two consecutive accepted `move_to_middle` calls are at least
      `1 / rate` apart, and the first is at least `1 / rate` after the last
      command before the run. */
  lemma {:induction false} RateBound(s: RateState, rate: real, events: seq<Event>)
    requires rate > 0.0
    requires InTimeOrder(s.lastCommand, events)
    ensures Spaced(s.lastCommand, Run(s, rate, events).2, 1.0 / rate)
    decreases |events|
  {
    if events != [] {
      var e := events[0];
      var s1 := if e.MoveEvent? then RateMoveTransition(s, rate, e.now, e.frameMiddle, e.detectionMiddle, e.tuning).0
                else RateStopTransition(s, e.now).0;
      assert s.lastCommand <= s1.lastCommand <= e.now;
      assert InTimeOrder(s1.lastCommand, events[1..]) by {
        forall i | 0 <= i < |events[1..]|
          ensures s1.lastCommand <= events[1..][i].now
        {
          assert events[1..][i] == events[i + 1];
        }
      }
      RateBound(s1, rate, events[1..]);
      var restAccepted := Run(s1, rate, events[1..]).2;
      if e.MoveEvent? && Accepted(s, rate, e.now, e.detectionMiddle) {
        SpacedCons(s.lastCommand, e.now, restAccepted, 1.0 / rate);
      } else {
        assert Run(s, rate, events).2 == restAccepted;
        SpacedAfterEarlier(s.lastCommand, s1.lastCommand, restAccepted, 1.0 / rate);
      }
    }
  }

  /** Accepted calls happen at the times of the events, so they stay inside
      any interval that holds all events. */
  lemma {:induction false} AcceptedWithin(s: RateState, rate: real, events: seq<Event>, lo: real, hi: real)
    requires forall i :: 0 <= i < |events| ==> lo <= events[i].now < hi
    ensures forall k :: 0 <= k < |Run(s, rate, events).2| ==> lo <= Run(s, rate, events).2[k] < hi
    decreases |events|
  {
    if events != [] {
      var e := events[0];
      var s1 := if e.MoveEvent? then RateMoveTransition(s, rate, e.now, e.frameMiddle, e.detectionMiddle, e.tuning).0
                else RateStopTransition(s, e.now).0;
      assert forall i :: 0 <= i < |events[1..]| ==> events[1..][i] == events[i + 1];
      AcceptedWithin(s1, rate, events[1..], lo, hi);
    }
  }

  /** The last of a spaced sequence of times is at least `(n - 1) * d` after the first. */
  lemma {:induction false} SpacedSpread(prev: real, ts: seq<real>, d: real)
    requires Spaced(prev, ts, d) && |ts| > 0
    ensures ts[|ts| - 1] >= ts[0] + (|ts| - 1) as real * d
    decreases |ts|
  {
    if |ts| > 1 {
      var front := ts[..|ts| - 1];
      assert Spaced(prev, front, d) by {
        forall i | 0 < i < |front|
          ensures front[i] >= front[i - 1] + d
        {
          assert front[i] == ts[i] && front[i - 1] == ts[i - 1];
        }
      }
      SpacedSpread(prev, front, d);
      assert ts[|ts| - 1] >= ts[|ts| - 2] + d;
    }
  }

  lemma {:induction false} ScaleMonotone(n: nat, k: nat, d: real)
    requires k <= n && d >= 0.0
    ensures k as real * d <= n as real * d
    decreases n - k
  {
    if k < n {
      ScaleMonotone(n, k + 1, d);
      assert (k + 1) as real * d == k as real * d + d;
    }
  }

  /** At most `k` times spaced `d > 0` apart fit in a half-open interval of length `k * d`. */
  lemma SpacedCount(prev: real, ts: seq<real>, d: real, lo: real, k: nat)
    requires d > 0.0 && Spaced(prev, ts, d)
    requires forall i :: 0 <= i < |ts| ==> lo <= ts[i] < lo + k as real * d
    ensures |ts| <= k
  {
    if |ts| > k {
      assert lo <= ts[0] && ts[|ts| - 1] < lo + k as real * d;
      ScaleMonotone(|ts| - 1, k, d);
      SpacedSpread(prev, ts, d);
    }
  }

  /** At 10 commands per second, calls made in time order within half a
      second are accepted at most 5 times. */
  lemma TenPerSecondAcceptsAtMostFiveInHalfASecond(s: RateState, events: seq<Event>, lo: real)
    requires InTimeOrder(s.lastCommand, events)
    requires forall i :: 0 <= i < |events| ==> lo <= events[i].now < lo + 0.5
    ensures |Run(s, 10.0, events).2| <= 5
  {
    RateBound(s, 10.0, events);
    AcceptedWithin(s, 10.0, events, lo, lo + 0.5);
    SpacedCount(s.lastCommand, Run(s, 10.0, events).2, 1.0 / 10.0, lo, 5);
  }

  /** The rate-limited `MotorController`: the packaged controller's fields,
      the configured rate, `_last_command`, and the log of commands sent to
      the motors. */
  class MotorController {
    const motorXPort: string
    const motorYPort: string
    const rate: real
    var xMovement: MotorControl.Movement
    var yMovement: MotorControl.Movement
    var lastCommand: real
    var target: (int, int)
    var log: seq<Command>

    function State(): RateState
      reads this
    {
      RateState(MotorControl.ControllerState(xMovement, yMovement, target), lastCommand)
    }

    ghost predicate Valid()
      reads this
    {
      MotorControl.WellFormed(State().axes)
    }

    constructor (motorXPort: string, motorYPort: string, rate: real)
      ensures this.motorXPort == motorXPort && this.motorYPort == motorYPort && this.rate == rate
      ensures State() == InitialRateState && log == []
      ensures Valid()
    {
      this.motorXPort := motorXPort;
      this.motorYPort := motorYPort;
      this.rate := rate;
      xMovement := MotorControl.Stopped;
      yMovement := MotorControl.Stopped;
      lastCommand := 0.0;
      target := (0, 0);
      log := [];
    }

    method MoveToMiddle(frameMiddle: (int, int), detectionMiddle: (int, int), tuning: MotorControl.Tuning, now: real)
      requires Valid()
      modifies this
      ensures Valid()
      ensures State() == RateMoveTransition(old(State()), rate, now, frameMiddle, detectionMiddle, tuning).0
      ensures log == old(log) + RateMoveTransition(old(State()), rate, now, frameMiddle, detectionMiddle, tuning).1
    {
      if target == detectionMiddle {
        return;
      }

      if TooSoon(rate, lastCommand, now) {
        return;
      }

      TrackHorizontally(frameMiddle, detectionMiddle, tuning);
      TrackVertically(frameMiddle, detectionMiddle, tuning);
      target := detectionMiddle;
      lastCommand := now;
    }

    /** The horizontal half of `move_to_middle`: `_x_movement` takes the
        band's movement and a `pwm` is sent only when it changes. */
    method TrackHorizontally(frameMiddle: (int, int), detectionMiddle: (int, int), tuning: MotorControl.Tuning)
      modifies this`xMovement, this`log
      ensures xMovement == MotorControl.HorizontalMovement(MotorControl.Band(frameMiddle.0, detectionMiddle.0, tuning.horTolerance))
      ensures log == old(log) + MotorControl.Emitted(MotorX, old(xMovement), xMovement, tuning.horSpeed)
    {
      var horTolAbs := frameMiddle.0 as real * tuning.horTolerance;
      if frameMiddle.0 as real > detectionMiddle.0 as real + horTolAbs {
        if xMovement != MotorControl.Right {
          xMovement := MotorControl.Right;
          log := log + [Pwm(MotorX, -tuning.horSpeed / 100.0)];
        }
      } else if frameMiddle.0 as real < detectionMiddle.0 as real - horTolAbs {
        if xMovement != MotorControl.Left {
          xMovement := MotorControl.Left;
          log := log + [Pwm(MotorX, tuning.horSpeed / 100.0)];
        }
      } else {
        if xMovement != MotorControl.Stopped {
          xMovement := MotorControl.Stopped;
          log := log + [Pwm(MotorX, 0.0)];
        }
      }
    }

    /** The vertical half of `move_to_middle`, on `_y_movement`. */
    method TrackVertically(frameMiddle: (int, int), detectionMiddle: (int, int), tuning: MotorControl.Tuning)
      modifies this`yMovement, this`log
      ensures yMovement == MotorControl.VerticalMovement(MotorControl.Band(frameMiddle.1, detectionMiddle.1, tuning.verTolerance))
      ensures log == old(log) + MotorControl.Emitted(MotorY, old(yMovement), yMovement, tuning.verSpeed)
    {
      var verTolAbs := frameMiddle.1 as real * tuning.verTolerance;
      if frameMiddle.1 as real > detectionMiddle.1 as real + verTolAbs {
        if yMovement != MotorControl.Up {
          yMovement := MotorControl.Up;
          log := log + [Pwm(MotorY, -tuning.verSpeed / 100.0)];
        }
      } else if frameMiddle.1 as real < detectionMiddle.1 as real - verTolAbs {
        if yMovement != MotorControl.Down {
          yMovement := MotorControl.Down;
          log := log + [Pwm(MotorY, tuning.verSpeed / 100.0)];
        }
      } else {
        if yMovement != MotorControl.Stopped {
          yMovement := MotorControl.Stopped;
          log := log + [Pwm(MotorY, 0.0)];
        }
      }
    }

    /** Sends both motors to an absolute position without waiting; the
        tracking state and the last command time are untouched. */
    method ToPosition(x: int, y: int)
      modifies this`log
      ensures log == old(log) + [RunToPosition(MotorX, x), RunToPosition(MotorY, y)]
    {
      log := log + [RunToPosition(MotorX, x)];
      log := log + [RunToPosition(MotorY, y)];
    }

    method Stop(now: real)
      requires Valid()
      modifies this
      ensures Valid()
      ensures State() == RateStopTransition(old(State()), now).0
      ensures log == old(log) + RateStopTransition(old(State()), now).1
    {
      if xMovement != MotorControl.Stopped {
        xMovement := MotorControl.Stopped;
        log := log + [Pwm(MotorX, 0.0)];
      }
      if yMovement != MotorControl.Stopped {
        yMovement := MotorControl.Stopped;
        log := log + [Pwm(MotorY, 0.0)];
      }
      lastCommand := now;
    }
  }
}
