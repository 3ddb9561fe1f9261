/** The servo position controller as the program runs it: the last commanded position and
    the moving lock are updated in place by three handlers, each stepping the servo with a
    counting `uint8` loop. Every handler is proved to do exactly what the corresponding
    function of module Handlers says. */
module Controller {
  import opened Stepping
  import opened Handlers

  class PositionController {
    const config: Config
    /** The position last commanded to the servo, as the handlers record it. */
    var currentPosition: Byte
    /** Set while a movement sequence is running; other triggers are then discarded. */
    var movingLock: bool
    /** Every position handed to the servo driver so far, in order. */
    var moves: seq<Byte>

    function Snapshot(): State
      reads this
    {
      State(currentPosition, movingLock)
    }

    /** Neither the position nor any move so far has left [servoLeft, servoRight]. */
    ghost predicate Bounded()
      reads this
    {
      InRange(config, currentPosition) &&
      forall k :: 0 <= k < |moves| ==> InRange(config, moves[k])
    }

    /** Startup: the servo is sent to center once and the position recorded as center. */
    constructor (config: Config)
      requires LoopsTerminate(config)
      ensures this.config == config
      ensures Snapshot() == Initial(config) && moves == [config.servoCenter]
      ensures Ordered(config) ==> Bounded()
    {
      this.config := config;
      movingLock := false;
      moves := [];
      new;
      var err := Move(config.servoCenter, false);
      currentPosition := config.servoCenter;
    }

    /** The servo driver's move command: the position is sent whether or not the
        driver then reports `fault` as an error. */
    method Move(position: Byte, fault: bool) returns (err: bool)
      modifies this`moves
      ensures moves == old(moves) + [position]
      ensures err == fault
    {
      moves := moves + [position];
      err := fault;
    }

    /** Left motion detected at `hour`; the driver reports an error for each position
        in `faults`, which is only logged. */
    method OnLeftMotion(hour: int, faults: set<Byte>)
      requires LoopsTerminate(config)
      modifies this
      ensures var r := LeftMotion(config, old(Snapshot()), hour);
        Snapshot() == r.after && moves == old(moves) + r.moves
      ensures Ordered(config) && old(Bounded()) ==> Bounded()
    {
      if Active(config, hour) {
        if movingLock {
          return;
        }
        if !movingLock {
          movingLock := true;
          ghost var start := currentPosition;
          var i := currentPosition;
          while i >= config.servoLeft
            invariant i == start || config.servoLeft - 1 <= i < start
            invariant moves == old(moves) + if i == start then [] else Descending(start, i + 1)
            invariant currentPosition == if i == start then start else config.servoLeft
            invariant movingLock
            decreases i
          {
            var err := Move(i, i in faults);
            currentPosition := config.servoLeft;
            i := (i - 1) % 256;
          }
          movingLock := false;
        }
      }
      if Ordered(config) && old(Bounded()) {
        HandleStaysInRange(config, old(Snapshot()), LeftMotionDetected(hour));
      }
    }

    /** Right motion detected at `hour`; errors reported for positions in `faults` are
        only logged. */
    method OnRightMotion(hour: int, faults: set<Byte>)
      requires LoopsTerminate(config)
      modifies this
      ensures var r := RightMotion(config, old(Snapshot()), hour);
        Snapshot() == r.after && moves == old(moves) + r.moves
      ensures Ordered(config) && old(Bounded()) ==> Bounded()
    {
      if Active(config, hour) {
        if movingLock {
          return;
        }
        if !movingLock {
          movingLock := true;
          ghost var start := currentPosition;
          var i := currentPosition;
          while i <= config.servoRight
            invariant i == start || start < i <= config.servoRight + 1
            invariant moves == old(moves) + if i == start then [] else Ascending(start, i - 1)
            invariant currentPosition == if i == start then start else config.servoRight
            invariant movingLock
            decreases 255 - i
          {
            var err := Move(i, i in faults);
            currentPosition := config.servoRight;
            i := (i + 1) % 256;
          }
          movingLock := false;
        }
      }
      if Ordered(config) && old(Bounded()) {
        HandleStaysInRange(config, old(Snapshot()), RightMotionDetected(hour));
      }
    }

    /** Periodic reset tick at `hour`; errors reported for positions in `faults` are
        only logged. */
    method OnCenterReset(hour: int, faults: set<Byte>)
      requires LoopsTerminate(config)
      modifies this
      ensures var r := CenterReset(config, old(Snapshot()), hour);
        Snapshot() == r.after && moves == old(moves) + r.moves
      ensures Ordered(config) && old(Bounded()) ==> Bounded()
    {
      if Active(config, hour) {
        if !movingLock {
          movingLock := true;
          var center := config.servoCenter;
          if currentPosition > center {
            SweepDown(currentPosition, center, faults);
          }
          if currentPosition < center {
            SweepUp(currentPosition, center, faults);
          }
          currentPosition := center;
          movingLock := false;
        }
      }
      if Ordered(config) && old(Bounded()) {
        HandleStaysInRange(config, old(Snapshot()), ResetTick(hour));
      }
    }

    /** The reset tick's downward loop: sends `first`, `first - 1`, ..., `last` to the servo.
        The `uint8` counter cannot wrap because `last > 0`. */
    method SweepDown(first: Byte, last: Byte, faults: set<Byte>)
      requires 0 < last <= first
      modifies this`moves
      ensures moves == old(moves) + Descending(first, last)
    {
      var i := first;
      while i >= last
        invariant last - 1 <= i <= first
        invariant moves == old(moves) + if i == first then [] else Descending(first, i + 1)
        decreases i
      {
        var err := Move(i, i in faults);
        i := (i - 1) % 256;
      }
    }

    /** The reset tick's upward loop: sends `first`, `first + 1`, ..., `last` to the servo.
        The `uint8` counter cannot wrap because `last < 255`. */
    method SweepUp(first: Byte, last: Byte, faults: set<Byte>)
      requires first <= last < 255
      modifies this`moves
      ensures moves == old(moves) + Ascending(first, last)
    {
      var i := first;
      while i <= last
        invariant first <= i <= last + 1
        invariant moves == old(moves) + if i == first then [] else Ascending(first, i - 1)
        decreases 255 - i
      {
        var err := Move(i, i in faults);
        i := (i + 1) % 256;
      }
    }
  }
}
