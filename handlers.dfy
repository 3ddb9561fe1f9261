/** What each of the controller's three event handlers does to the shared state
    (servo position and moving lock) and which positions it sends to the servo,
    stated as functions of the configuration, the state on entry and the hour. */
module Handlers {
  import opened ActiveHours
  import opened Stepping

  /** The configuration values the handlers read; fixed for the process's lifetime. */
  datatype Config = Config(
    motionTimesEnabled: bool,
    motionTimeStart: int,
    motionTimeEnd: int,
    servoCenter: Byte,
    servoLeft: Byte,
    servoRight: Byte)

  /** The `uint8` counting loops stop only if their bound can be passed without
      wrapping: a downward loop `i >= b; i--` needs `b > 0`, an upward loop
      `i <= b; i++` needs `b < 255`. */
  predicate LoopsTerminate(c: Config)
  {
    0 < c.servoLeft && c.servoRight < 255 && 0 < c.servoCenter < 255
  }

  /** The positions are configured left of, at and right of center. */
  predicate Ordered(c: Config)
  {
    c.servoLeft <= c.servoCenter <= c.servoRight
  }

  predicate InRange(c: Config, position: int)
  {
    c.servoLeft <= position <= c.servoRight
  }

  /** The controller's shared state: the last commanded position and the lock. */
  datatype State = State(position: Byte, movingLock: bool)

  /** The state a handler leaves behind and the positions it sent to the servo, in order. */
  datatype Effect = Effect(after: State, moves: seq<Byte>)

  /** State at startup: centered, not moving. */
  function Initial(c: Config): State
  {
    State(c.servoCenter, false)
  }

  predicate Active(c: Config, hour: int)
  {
    IsDuringConfiguredHours(c.motionTimesEnabled, hour, c.motionTimeStart, c.motionTimeEnd)
  }

  /** Left motion detected: step down one unit at a time to the left bound, inclusive. */
  function LeftMotion(c: Config, s: State, hour: int): (r: Effect)
    requires LoopsTerminate(c)
    ensures !Active(c, hour) || s.movingLock ==> r == Effect(s, [])
    ensures !s.movingLock ==> !r.after.movingLock
    ensures Active(c, hour) && !s.movingLock && c.servoLeft <= s.position ==>
      r.after.position == c.servoLeft &&
      |r.moves| == s.position - c.servoLeft + 1 &&
      forall k :: 0 <= k < |r.moves| ==> r.moves[k] == s.position - k
    ensures s.position < c.servoLeft ==> r == Effect(s, [])
  {
    if !Active(c, hour) || s.movingLock then Effect(s, [])
    else if s.position < c.servoLeft then Effect(State(s.position, false), [])
    else Effect(State(c.servoLeft, false), Descending(s.position, c.servoLeft))
  }

  /** Right motion detected: step up one unit at a time to the right bound, inclusive. */
  function RightMotion(c: Config, s: State, hour: int): (r: Effect)
    requires LoopsTerminate(c)
    ensures !Active(c, hour) || s.movingLock ==> r == Effect(s, [])
    ensures !s.movingLock ==> !r.after.movingLock
    ensures Active(c, hour) && !s.movingLock && s.position <= c.servoRight ==>
      r.after.position == c.servoRight &&
      |r.moves| == c.servoRight - s.position + 1 &&
      forall k :: 0 <= k < |r.moves| ==> r.moves[k] == s.position + k
    ensures c.servoRight < s.position ==> r == Effect(s, [])
  {
    if !Active(c, hour) || s.movingLock then Effect(s, [])
    else if c.servoRight < s.position then Effect(State(s.position, false), [])
    else Effect(State(c.servoRight, false), Ascending(s.position, c.servoRight))
  }

  /** Periodic reset tick: step back to center from whichever side the servo is on. */
  function CenterReset(c: Config, s: State, hour: int): (r: Effect)
    requires LoopsTerminate(c)
    ensures !Active(c, hour) || s.movingLock ==> r == Effect(s, [])
    ensures Active(c, hour) && !s.movingLock ==> r.after == State(c.servoCenter, false)
    ensures Active(c, hour) && !s.movingLock && s.position > c.servoCenter ==>
      |r.moves| == s.position - c.servoCenter + 1 &&
      forall k :: 0 <= k < |r.moves| ==> r.moves[k] == s.position - k
    ensures Active(c, hour) && !s.movingLock && s.position < c.servoCenter ==>
      |r.moves| == c.servoCenter - s.position + 1 &&
      forall k :: 0 <= k < |r.moves| ==> r.moves[k] == s.position + k
    ensures s.position == c.servoCenter ==> r.moves == []
  {
    if !Active(c, hour) || s.movingLock then Effect(s, [])
    else
      var moves :=
        if s.position > c.servoCenter then Descending(s.position, c.servoCenter)
        else if s.position < c.servoCenter then Ascending(s.position, c.servoCenter)
        else [];
      Effect(State(c.servoCenter, false), moves)
  }

  /** The three triggers that reach the controller, each with the hour it fires at. */
  datatype Event =
    | LeftMotionDetected(hour: int)
    | RightMotionDetected(hour: int)
    | ResetTick(hour: int)

  /** One event, handled to completion. While a movement holds the lock every trigger
      is discarded; a handler that takes the lock always gives it back. */
  function Handle(c: Config, s: State, e: Event): (r: Effect)
    requires LoopsTerminate(c)
    ensures s.movingLock ==> r == Effect(s, [])
    ensures !s.movingLock ==> !r.after.movingLock
  {
    match e
    case LeftMotionDetected(hour) => LeftMotion(c, s, hour)
    case RightMotionDetected(hour) => RightMotion(c, s, hour)
    case ResetTick(hour) => CenterReset(c, s, hour)
  }

  /** A sequence of events handled one after another; the moves of each follow the
      moves of the one before. */
  function Run(c: Config, s: State, events: seq<Event>): Effect
    requires LoopsTerminate(c)
    decreases |events|
  {
    if events == [] then Effect(s, [])
    else
      var first := Handle(c, s, events[0]);
      var rest := Run(c, first.after, events[1..]);
      Effect(rest.after, first.moves + rest.moves)
  }

  /** Every position a handler commands, and the position it leaves, lie between the
      left and right bounds, provided it starts there. */
  lemma HandleStaysInRange(c: Config, s: State, e: Event)
    requires LoopsTerminate(c) && Ordered(c) && InRange(c, s.position)
    ensures InRange(c, Handle(c, s, e).after.position)
    ensures forall k :: 0 <= k < |Handle(c, s, e).moves| ==> InRange(c, Handle(c, s, e).moves[k])
  {
  }

  /** The range invariant holds across any sequence of events. */
  lemma {:induction false} RunStaysInRange(c: Config, s: State, events: seq<Event>)
    requires LoopsTerminate(c) && Ordered(c) && InRange(c, s.position)
    ensures InRange(c, Run(c, s, events).after.position)
    ensures forall k :: 0 <= k < |Run(c, s, events).moves| ==> InRange(c, Run(c, s, events).moves[k])
    decreases |events|
  {
    if events != [] {
      var first := Handle(c, s, events[0]);
      HandleStaysInRange(c, s, events[0]);
      RunStaysInRange(c, first.after, events[1..]);
      var rest := Run(c, first.after, events[1..]);
      assert Run(c, s, events).moves == first.moves + rest.moves;
    }
  }

  /** From startup, with bounds configured in order, the servo is never commanded outside
      [servoLeft, servoRight] and never left there. */
  lemma FromStartupStaysInRange(c: Config, events: seq<Event>)
    requires LoopsTerminate(c) && Ordered(c)
    ensures InRange(c, Run(c, Initial(c), events).after.position)
    ensures forall k :: 0 <= k < |Run(c, Initial(c), events).moves| ==> InRange(c, Run(c, Initial(c), events).moves[k])
  {
    RunStaysInRange(c, Initial(c), events);
  }

  /** Handled one at a time, events never leave the lock held. */
  lemma {:induction false} RunReleasesLock(c: Config, s: State, events: seq<Event>)
    requires LoopsTerminate(c) && !s.movingLock
    ensures !Run(c, s, events).after.movingLock
    decreases |events|
  {
    if events != [] {
      RunReleasesLock(c, Handle(c, s, events[0]).after, events[1..]);
    }
  }

  /** While the lock is held, any number of events change nothing and move nothing. */
  lemma {:induction false} LockedRunIsNoOp(c: Config, s: State, events: seq<Event>)
    requires LoopsTerminate(c) && s.movingLock
    ensures Run(c, s, events) == Effect(s, [])
    decreases |events|
  {
    if events != [] {
      LockedRunIsNoOp(c, s, events[1..]);
    }
  }

  /** Motion times disabled, left 20, center 29, right 40. From startup a right motion
      sweeps 29..40; a second right motion, already at the bound, still commands 40 once;
      the reset tick then sweeps 40 back down to 29. */
  lemma {:induction false} SweepRightRepeatThenReset(hour: int)
    ensures var c := Config(false, 18, 22, 29, 20, 40);
      var r := Run(c, Initial(c), [RightMotionDetected(hour), RightMotionDetected(hour), ResetTick(hour)]);
      r.after == State(29, false) &&
      r.moves == Ascending(29, 40) + [40] + Descending(40, 29)
  {
    var c := Config(false, 18, 22, 29, 20, 40);
    var events := [RightMotionDetected(hour), RightMotionDetected(hour), ResetTick(hour)];
    var s1 := State(40, false);
    assert Handle(c, Initial(c), events[0]) == Effect(s1, Ascending(29, 40));
    assert Handle(c, s1, events[1]) == Effect(s1, [40]);
    assert Handle(c, s1, events[2]) == Effect(Initial(c), Descending(40, 29));
    assert events[1..][1..] == [events[2]];
    assert Run(c, s1, [events[2]]) == Effect(Initial(c), Descending(40, 29));
    assert Run(c, s1, events[1..]) == Effect(Initial(c), [40] + Descending(40, 29));
  }
}
