# pumpkin-pi servo position controller, in Dafny

pumpkin-pi turns a Halloween prop's head toward motion. Two PIR motion sensors (left
and right) and a periodic timer drive one servo. The program keeps two pieces of shared
state: `currentPosition`, the last position it sent to the servo (a `uint8` that starts
at `ServoCenter`), and `MovingLock`, a flag held while a movement sequence runs. There
are three handlers:

- left motion steps the servo one unit at a time from the current position down to
  `ServoLeft`, inclusive;
- right motion steps it up to `ServoRight`, inclusive;
- the reset tick steps it back to `ServoCenter` from whichever side it is on.

Each handler does nothing outside the configured active hours or while the lock is held.
Otherwise it takes the lock, issues one `servo.Move` per step, ignores failed moves
(they are only logged), records the final position and releases the lock.

The project has four modules:

- `ActiveHours` (hours.dfy): the active-hours predicate `isDuringConfiguredHours`.
- `Stepping` (stepping.dfy): the sequence of positions a counting `uint8` loop sends
  to the servo, in closed form (`Descending`, `Ascending`).
- `Handlers` (handlers.dfy): the configuration, the shared state and each handler as a
  function from (configuration, state, hour) to (new state, positions sent). Also a run
  over any sequence of events, and the lemmas about runs: the range invariant, release of
  the lock, and discarding of events while locked.
- `Controller` (controller.dfy): the class `PositionController`. Its fields are
  `currentPosition`, `movingLock` and the trace `moves` of every position sent to the
  servo. Its three handler methods use the source's counting loops (the reset tick's two
  loops are the helper methods `SweepDown` and `SweepUp`), with the `uint8`
  decrement and increment written out as `(i - 1) % 256` and `(i + 1) % 256`. Each
  method is proved to produce exactly the state and trace that its `Handlers` function
  describes, for every set `faults` of positions at which the servo reports an error.

Termination needs a precondition. The loop counters are `uint8`, so `i >= ServoLeft; i--`
never ends when `ServoLeft == 0`: the counter wraps from 0 to 255. Likewise
`i <= ServoRight; i++` never ends when `ServoRight == 255`, and the reset loops never end
when `ServoCenter` is 0 or 255. Every handler therefore requires `LoopsTerminate`:
`0 < ServoLeft`, `ServoRight < 255` and `0 < ServoCenter < 255`. The range invariant
also needs the configured order `ServoLeft <= ServoCenter <= ServoRight` (`Ordered`).

Three details of the code shape the handlers:

- The reset tick is gated by the active hours too (main.go:150), so outside them the
  servo is not returned to center.
- A motion event when the servo is already at that side's bound is not a no-op: the
  loop runs once and sends the bound to the servo once (main.go:102, main.go:131). A
  reset tick at center sends nothing (main.go:157, main.go:169).
- In the motion handlers, `currentPosition` is assigned inside the loop body
  (main.go:108, main.go:137). A motion event from outside the bound (position below
  `ServoLeft` for left, above `ServoRight` for right) runs no iteration and leaves the
  position unchanged. The reset handler assigns center unconditionally (main.go:180).

## Model

| member | source | states |
|---|---|---|
| `ActiveHours.IsDuringConfiguredHours` | main.go:37-42 | with motion times disabled every hour is active; with them enabled an hour is active iff `start <= hour < end`, so a window with `end <= start` (one that would wrap past midnight) is never active |
| `ActiveHours.WindowBoundaries` | main.go:38-39 | with motion times enabled, the start hour is inside the window and the end hour is outside it |
| `Stepping.Descending` | main.go:102-109 | the positions a downward counting loop from `first` to `last` (inclusive) sends: `first - last + 1` of them, the k-th being `first - k`; none when `first < last` |
| `Stepping.Ascending` | main.go:131-138 | the positions an upward counting loop from `first` to `last` (inclusive) sends: `last - first + 1` of them, the k-th being `first + k`; none when `last < first` |
| `Handlers.LeftMotion` | main.go:89-113 | outside the active hours or with the lock held: no move, state unchanged. Otherwise, from position `p >= ServoLeft`: moves `p, p-1, ..., ServoLeft` (one move when `p == ServoLeft`), then position `ServoLeft`. From `p < ServoLeft`: nothing changes. The lock is free afterwards whenever it was free before |
| `Handlers.RightMotion` | main.go:118-142 | outside the active hours or with the lock held: no move, state unchanged. Otherwise, from `p <= ServoRight`: moves `p, p+1, ..., ServoRight`, then position `ServoRight`. From `p > ServoRight`: nothing changes. The lock is free afterwards whenever it was free before |
| `Handlers.CenterReset` | main.go:147-184 | outside the active hours or with the lock held: no move, state unchanged. Otherwise the state becomes (`ServoCenter`, unlocked) and the moves are `p` down to `ServoCenter` when `p > ServoCenter`, `p` up to `ServoCenter` when `p < ServoCenter`, and none when `p == ServoCenter` |
| `Handlers.Handle` | main.go:87-185 | mutual exclusion: every trigger that arrives while the lock is held sends nothing and changes nothing; a trigger handled with the lock free leaves it free |
| `Handlers.HandleStaysInRange` | main.go:84-184 | with `ServoLeft <= ServoCenter <= ServoRight` and a position in that range, every position a handler sends and the position it leaves lie in `[ServoLeft, ServoRight]` |
| `Handlers.RunStaysInRange` | main.go:84-184 | the same range invariant over any sequence of left, right and reset events |
| `Handlers.FromStartupStaysInRange` | main.go:79-84 | from startup (position `ServoCenter`, lock free), no sequence of events ever sends the servo outside `[ServoLeft, ServoRight]` or leaves it there |
| `Handlers.RunReleasesLock` | main.go:95-181 | handled one after another from an unlocked state, any sequence of events ends with the lock free |
| `Handlers.LockedRunIsNoOp` | main.go:95-154 | while the lock is held, any sequence of events sends nothing and changes nothing |
| `Handlers.SweepRightRepeatThenReset` | main.go:118-184 | with left 20, center 29, right 40 and motion times disabled: from startup, right motion sends 29..40, a second right motion sends 40 once, and a reset tick sends 40 down to 29 and ends at 29, unlocked |
| `Controller.PositionController.constructor` | main.go:77-84 | startup sends `ServoCenter` to the servo once and records position `ServoCenter` with the lock free; the range invariant holds when the bounds are ordered |
| `Controller.PositionController.Move` | main.go:104-107 | the servo is sent the position, and the call's error result is only reported back |
| `Controller.PositionController.OnLeftMotion` | main.go:89-113 | the counting loop leaves exactly the state and sends exactly the moves of `LeftMotion`, whatever moves fail; it keeps the range invariant |
| `Controller.PositionController.OnRightMotion` | main.go:118-142 | the counting loop leaves exactly the state and sends exactly the moves of `RightMotion`, whatever moves fail; it keeps the range invariant |
| `Controller.PositionController.OnCenterReset` | main.go:147-184 | the two counting loops leave exactly the state and send exactly the moves of `CenterReset`, whatever moves fail; it keeps the range invariant |
| `Controller.PositionController.SweepDown` | main.go:159-166 | the reset tick's downward loop sends exactly `first, first - 1, ..., last` and nothing else, whatever moves fail |
| `Controller.PositionController.SweepUp` | main.go:171-178 | the reset tick's upward loop sends exactly `first, first + 1, ..., last` and nothing else, whatever moves fail |

## Left out

- Configuration loading through environment variables (main.go:59-63): external library. The configuration is a constructor parameter.
- Logger setup (`initLogger`, main.go:44-55) and every logging call: no effect on position or lock.
- Hardware setup (the Raspberry Pi adaptor, servo and PIR drivers, robot start, event subscription; main.go:72-76, 186-195): foreign framework calls.
- The servo driver itself: `Move` appends its argument to the trace and returns an error chosen by the caller through `faults`. A failure is only logged, so it has no other effect.
- `time.Sleep(ServoRotateDelay)` between steps and the `gobot.Every` schedule (main.go:103, 132, 147, 161, 173): timing only.
- `time.Now().Hour()`: the hour is a parameter of each handler.
- Concurrency: each handler runs as one atomic step. The check-then-set race on `MovingLock` (main.go:95-99) between callbacks running at the same time is not modelled. The lock being held on entry models a handler that arrives while another is moving.
- Configurations with `ServoLeft == 0`, `ServoRight == 255` or `ServoCenter` at 0 or 255: the handlers require `LoopsTerminate`, so the model says nothing about them. In the source the `uint8` counter wraps and the loop never ends. With `ServoLeft == 0`, left motion sends `p, ..., 0, 255, 254, ...` forever (main.go:102). With `ServoRight == 255`, right motion sends `..., 255, 0, 1, ...` forever (main.go:131). The reset loops behave the same way when `ServoCenter` is 0 (main.go:159) or 255 (main.go:171). In each case the source commands positions outside `[ServoLeft, ServoRight]` and holds `MovingLock` forever, so every later trigger is discarded.
