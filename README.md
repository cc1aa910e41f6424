# Robot arm teleoperation: verified model

This project models the two pieces of logic in the RoboticArm scripts:

- **The keyboard teleoperation controller** (`mini_robot/mini_robot_control.py`).
  It drives four hobby servos (gripper on BCM pin 17, wrist roll on 18,
  wrist pitch on 27, elbow on 13). At startup it writes pulse width 0
  (disengaged) to all four pins and pauses 1 s. It then reads one key at a
  time. Each of the eight motion keys ramps one servo between two fixed
  pulse widths. The ramp (`move_servo_slowly`) is 51 linearly spaced writes,
  each followed by a pause of duration/50. A 0.5 s pause and a final
  "settle" write follow it. `k` leaves the loop. A KeyboardInterrupt is
  caught (line 177). On every way out of the `try` block (`k`, Ctrl-C, or
  any other exception) the `finally` block writes 0 to all four pins and
  closes the connection.
- **The single-servo angle converter** (`test_movements/test_servo.py`,
  `set_angle`). It clamps an angle to [0, 180] degrees and maps it linearly
  to a 0.5–2.5 ms pulse. It then sends that pulse as a percentage of the
  20 ms period at 50 Hz.

Files:

- `servo_angle.dfy`, module `ServoAngle`: `set_angle` as pure functions over
  `real`, with the clamp, pulse and duty-cycle conversions and lemmas about them.
- `teleop_spec.dfy`, module `TeleopSpec`: reference definitions for the
  controller. These are:
  - the ramp (`Ramp`);
  - the key table (`BindingFor`);
  - the writes of one motion (`MotionWrites`), also when a Ctrl-C cuts it
    short (`MotionRunWrites`), and of one key through its binding
    (`KeyWrites`, `KeyRunWrites`);
  - a key's effect on the pin state (`ApplyKey`);
  - the replay of a write log over a pin state (`Replay`);
  - the writes, delay and exit of the loop and of a whole run (`LoopWrites`,
    `LoopDelay`, `LoopExit`, `SessionWrites`, `SessionDelay`, `SessionExit`).

  It also holds the lemmas about them.
- `teleop_control.dfy`, module `TeleopControl`: the controller as imperative
  code.
  - Class `Pi` stands for the pigpio connection. It holds a pin → pulse
    width map, the log of every `set_servo_pulsewidth` call and a stopped
    flag. Its invariant `Valid()` says the map always equals the replay of
    the log.
  - Class `Clock` adds up the completed `time.sleep` durations. It also
    holds the Ctrl-C schedule.
  - The methods are `RampStep` (one pass of the `for` loop body),
    `MoveServoSlowly` (the `for` loop), `MoveJoint` (the body shared by the
    eight motion branches), `Dispatch` (one pass of the `if/elif` chain),
    `Startup`, `Cleanup` (the `finally` block),
    `ControlLoop` (the `while True` loop) and `RunTeleop` (the whole script
    after connecting). Each is proved against the `TeleopSpec` definitions.

Modelling choices:

- Pulse widths in the log are `real`. The arithmetic is exact where the
  script uses Python floats. The key bindings have integer ends, and every
  one of their ramp samples is a whole number of microseconds (20 µs steps).
- Keyboard input is a scripted `seq<Event>`. An `Event` is a key or
  `Interrupt`.
  - `getch` puts the terminal in raw mode (`tty.setraw`, line 28), which
    turns off signal generation. A Ctrl-C typed while the loop waits for a
    key is therefore read as the character 0x03. That key is not bound, so
    the loop skips it (`CtrlCTypedAtPromptSkipped`).
  - `Interrupt` is a SIGINT that reaches the process from outside the
    terminal while it waits in `getch`.
  - If the script runs out before `k` or an interrupt, the real program
    would still be blocked in `getch`. The model reports this as `Waiting`,
    and no cleanup has happened yet.
- The operator's Ctrl-C raises KeyboardInterrupt during a `time.sleep`,
  when the terminal is back in normal mode. That sleep is the startup pause
  (line 69), a ramp pause (line 59) or a settle pause (lines 105-168).
  - The model takes the moment of that Ctrl-C as a parameter of the `Clock`:
    the number of pauses that complete before it.
  - A ramp cut short keeps the writes it has already made. The settle write
    is never made, the loop is left with `Interrupted`, and the cleanup runs
    (`CtrlCDuringKey`, `Dispatch`, `RunTeleop`, `SessionParksAllPins`).
- The daemon's pin state at connection time is a parameter. The
  `constructor` of `Pi` takes it, and every result about the final state
  holds for every such initial state.
- The script passes the literal `3.0` at every call of `move_servo_slowly`.
  It never uses the `SPEED` constant (line 15). The model uses one constant,
  `RAMP_DURATION`.

What the code does, as opposed to what its comments and names suggest:

- `move_servo_slowly`'s docstring (line 47) calls `duration` the time to
  complete the movement. The code sleeps `duration / 50` after each of its
  51 writes (lines 50 and 56-59). A ramp therefore takes 51/50 × 3 s =
  3.06 s, with 0.06 s between writes. A motion key costs 3.56 s of sleep in
  total (`KeyDelayValue`).
- The code has no per-joint limits and does not check the bindings. Every
  ramp end is a literal in the `if/elif` chain (lines 104-169).
  `BindingsWellFormed` proves that each of them lies inside 500..2500 µs.
  `SessionWritesSafe` proves that every write of a run is 0 or in that
  range.
- The only exception the script catches is KeyboardInterrupt (line 177).
  Any other exception, such as one raised by a hardware call, goes straight
  to the `finally` block and then propagates.
- `get_current_pw`'s docstring (line 35) speaks of a middle position for a
  servo that is off. The code returns the daemon's raw value (lines 36-37).
  The loop reads that value and never uses it (line 96).
  `Pi.GetServoPulsewidth` returns the last value written to the pin, or the
  pin's value at connection time if nothing was written.

## Model

| member | source | states |
|---|---|---|
| `ServoAngle.ClampAngle` | test_movements/test_servo.py:29-32 | the clamped angle is in [0, 180]; below 0 gives 0, above 180 gives 180, in range is unchanged |
| `ServoAngle.PulseWidthMs` | test_movements/test_servo.py:35 | an angle in [0, 180] gives a pulse in [0.5, 2.5] ms; 0 ° gives 0.5 ms and 180 ° gives 2.5 ms |
| `ServoAngle.DutyCycle` | test_movements/test_servo.py:39 | a pulse in [0.5, 2.5] ms gives a duty cycle in [2.5, 12.5] % of the 20 ms period |
| `ServoAngle.SetAngle` | test_movements/test_servo.py:21-42 | the duty cycle sent for any input angle lies in [2.5, 12.5] % |
| `ServoAngle.DutyCycleMatchesFrequency` | test_movements/test_servo.py:6-39 | the duty cycle is 100 × pulse / (1000 / 50 Hz), that is pulse (ms) × frequency (Hz) / 10: the hard-coded 20 ms is the period of the configured frequency |
| `ServoAngle.SetAngleExamples` | test_movements/test_servo.py:44-51 | `set_angle(0)` sends 2.5 % and `set_angle(90)` sends 7.5 %; 180 ° sends 12.5 % |
| `ServoAngle.SetAngleSaturates` | test_movements/test_servo.py:29-32 | every negative angle sends 2.5 % and every angle above 180 sends 12.5 % |
| `ServoAngle.SetAngleClosedForm` | test_movements/test_servo.py:29-39 | the conversion equals the independent closed form 2.5 + clamp(angle)/18 |
| `ServoAngle.SetAngleMonotone` | test_movements/test_servo.py:29-39 | a larger angle never gives a smaller duty cycle |
| `ServoAngle.SetAngleStrictInRange` | test_movements/test_servo.py:35-39 | inside [0, 180] a larger angle gives a strictly larger duty cycle |
| `ServoAngle.SetAngleClampIdempotent` | test_movements/test_servo.py:29-35 | clamping twice equals clamping once, and `set_angle(clamp(a))` equals `set_angle(a)` |
| `ServoAngle.AngleFromDutyCycleRoundTrip` | test_movements/test_servo.py:35-39 | converting the duty cycle back to an angle gives the clamped input angle |
| `TeleopSpec.RampShape` | mini_robot/mini_robot_control.py:49-58 | a ramp is exactly steps + 1 = 51 writes, all to the given pin |
| `TeleopSpec.RampPulseFromStep` | mini_robot/mini_robot_control.py:51-57 | `start_pw + step_size * i`, with `step_size = (end_pw - start_pw) / 50`, is exactly ramp sample i |
| `TeleopSpec.RampUpToIsPrefix` | mini_robot/mini_robot_control.py:56-58 | the first k writes issued one loop pass at a time are exactly the first k writes of the 51-write `Ramp` |
| `TeleopSpec.RampEndpoints` | mini_robot/mini_robot_control.py:51-57 | the first write (i = 0) is the start pulse and the last (i = 50) is the end pulse |
| `TeleopSpec.RampConstantStep` | mini_robot/mini_robot_control.py:51-57 | consecutive writes differ by exactly (end − start)/50 |
| `TeleopSpec.RampMonotone` | mini_robot/mini_robot_control.py:51-57 | writes are non-decreasing when start ≤ end, non-increasing when start ≥ end, constant at start when they are equal |
| `TeleopSpec.RampBounds` | mini_robot/mini_robot_control.py:56-57 | every write lies between min(start, end) and max(start, end) |
| `TeleopSpec.BindingFor` | mini_robot/mini_robot_control.py:101-175 | the `if/elif` chain as a table: each of the eight motion keys gets the pin, ramp start, ramp end and settle pulse of its branch (lines 104-169), on one of the four servo pins; `k` and every other key are unbound |
| `TeleopSpec.BoundKeys` | mini_robot/mini_robot_control.py:101-175 | exactly the keys a z q s w x t y have a motion; `k` has none |
| `TeleopSpec.BindingsWellFormed` | mini_robot/mini_robot_control.py:101-171 | every motion drives one of the four pins, both ends lie in 500..2500 µs, it spans 1000 µs (step ±20 µs), and it settles to 0 or to its end pulse |
| `TeleopSpec.BindingRampTwentyMicrosecondSteps` | mini_robot/mini_robot_control.py:104-169 | each bound ramp's sample k is start ± 20·k µs exactly (1000, 1020, …, 2000 for `a`) |
| `TeleopSpec.KeyWritesShape` | mini_robot/mini_robot_control.py:101-171 | a motion key issues 52 writes (51 ramp + 1 settle), all on its pin, first = start, 51st = end, last = settle; any other key issues none |
| `TeleopSpec.ReplayRampUpTo` | mini_robot/mini_robot_control.py:56-58 | after the first k > 0 writes of a ramp its pin holds sample k − 1 and no other pin changes |
| `TeleopSpec.ReplayAppend` | mini_robot/mini_robot_control.py:58 | applying two runs of writes one after the other is applying their concatenation |
| `TeleopSpec.ReplayOnePin` | mini_robot/mini_robot_control.py:56-58 | after a run of writes to one pin, that pin holds the last value written and no other pin changes |
| `TeleopSpec.ReplayIsLastWrite` | mini_robot/mini_robot_control.py:34-37 | after any run of writes a pin holds the last value written to it; a pin never written keeps its prior presence and value |
| `TeleopSpec.KeyWritesReplay` | mini_robot/mini_robot_control.py:101-171 | replaying a key's 52 writes gives exactly the dispatch state change: the bound pin holds the settle pulse |
| `TeleopSpec.ApplyKeyFrame` | mini_robot/mini_robot_control.py:101-171 | after a motion key its pin holds the settle pulse from any prior state, and every other pin is unchanged; an unbound key changes nothing |
| `TeleopSpec.FinalPulseTable` | mini_robot/mini_robot_control.py:104-169 | final bound-pin pulse per key, whatever the prior state: a, z, w, x → 0; q → 1500; s → 500; t → 2500; y → 1500 |
| `TeleopSpec.DispatchTwiceIdempotent` | mini_robot/mini_robot_control.py:96-169 | dispatching a key twice ends in the same state as dispatching it once, both as state change and as replay of the doubled write log |
| `TeleopSpec.PausesClosedForm` | mini_robot/mini_robot_control.py:50-59 | n ramp pauses of duration/50 each, added one at a time, take n × duration/50 s |
| `TeleopSpec.KeyDelayValue` | mini_robot/mini_robot_control.py:50-59 | a motion key sleeps 51 × 0.06 s + 0.5 s = 3.56 s in total; other keys do not sleep |
| `TeleopSpec.CtrlCDuringKey` | mini_robot/mini_robot_control.py:56-59 | a Ctrl-C during pause v of a motion key (v < 52) leaves exactly the first min(v + 1, 51) ramp writes and no settle write, and v × 0.06 s of sleep |
| `TeleopSpec.DisengageParks` | mini_robot/mini_robot_control.py:63-66 | after the four zero writes every servo pin is at 0, from any prior state, and no other pin changes |
| `TeleopSpec.LoopUnfold` | mini_robot/mini_robot_control.py:94-175 | an interrupt or `k` ends the loop with no writes and no delay; a key cut short by a Ctrl-C ends it with that key's partial writes; any other key contributes its writes and delay and the loop continues |
| `TeleopSpec.LoopWriteCount` | mini_robot/mini_robot_control.py:94-175 | the loop issues at most 52 writes per motion key it starts (`MotionsStarted`: up to `k`, a SIGINT, or the motion a Ctrl-C cuts short, which counts), and exactly 52 per started motion when no Ctrl-C comes |
| `TeleopSpec.CtrlCStopsLaterMotions` | mini_robot/mini_robot_control.py:56-59 | a Ctrl-C in pause 3 of a first `a` ends the loop Interrupted after 4 writes; the second `a` is never started |
| `TeleopSpec.KeyRunWritesSafe` | mini_robot/mini_robot_control.py:101-171 | every write of a key, also one cut short, goes to one of the four servo pins with a pulse of 0 or in 500..2500 µs |
| `TeleopSpec.LoopWritesSafe` | mini_robot/mini_robot_control.py:94-175 | every write of the loop goes to one of the four servo pins with a pulse of 0 or in 500..2500 µs |
| `TeleopSpec.UnboundKeySkipped` | mini_robot/mini_robot_control.py:101-175 | a key outside the table is skipped with no writes and no pause, and the loop continues |
| `TeleopSpec.CtrlCTypedAtPromptSkipped` | mini_robot/mini_robot_control.py:28-29 | a Ctrl-C typed while the loop waits for a key arrives as 0x03 and is skipped: it neither writes nor ends the loop |
| `TeleopSpec.LoopIgnoresAfterExit` | mini_robot/mini_robot_control.py:173-177 | once `k`, an interrupt or a Ctrl-C during a motion has ended the loop, later input changes neither its writes, its delay nor its exit |
| `TeleopSpec.SessionParksAllPins` | mini_robot/mini_robot_control.py:61-189 | whatever the prior state, the keys and the moment of a Ctrl-C (startup pause, mid-ramp, settle pause) or SIGINT, once the run leaves its `try` block every servo pin is at 0 |
| `TeleopSpec.SessionWritesSafe` | mini_robot/mini_robot_control.py:61-189 | every write of a whole run goes to one of the four servo pins with a pulse of 0 or in 500..2500 µs |
| `TeleopControl.Pi.constructor` | mini_robot/mini_robot_control.py:18 | a fresh connection has an empty log, the daemon's pin state and the replay invariant |
| `TeleopControl.Pi.SetServoPulsewidth` | mini_robot/mini_robot_control.py:58 | one write sets the pin's pulse width, appends exactly that write to the log, and keeps the replay invariant whenever it held before |
| `TeleopControl.Pi.GetServoPulsewidth` | mini_robot/mini_robot_control.py:34-37 | the value read back is the last pulse width written to the pin, or its value at connection time when none was written |
| `TeleopControl.Pi.Stop` | mini_robot/mini_robot_control.py:189 | closing the connection changes no pulse width and no log entry |
| `TeleopControl.Clock.Sleep` | mini_robot/mini_robot_control.py:59 | a sleep is interrupted exactly when the Ctrl-C is due now, and then adds no time; otherwise it adds its duration and one pause has passed |
| `TeleopControl.RampStep` | mini_robot/mini_robot_control.py:56-59 | one loop pass writes ramp sample i to the pin, appends exactly that write, and pauses duration/50 unless the Ctrl-C is due now, which interrupts the pause |
| `TeleopControl.MoveServoSlowly` | mini_robot/mini_robot_control.py:39-59 | the loop appends the first 51 ramp writes, or the first v + 1 when a Ctrl-C comes in pause v (equal to the `Ramp` prefix by `RampUpToIsPrefix`), the KeyboardInterrupt leaving the loop; the pin holds the last value written, and the end pulse when not interrupted; no other pin changes; it sleeps duration/50 per completed pause |
| `TeleopControl.MoveJoint` | mini_robot/mini_robot_control.py:104-169 | the body of a motion branch (ramp, 0.5 s pause, settle write) appends exactly `MotionRunWrites` and sleeps `MotionRunDelay`: all 52 writes and 3.56 s without a Ctrl-C, otherwise the writes issued before the interrupted pause; it is interrupted exactly when a Ctrl-C falls in one of its 52 pauses |
| `TeleopControl.Dispatch` | mini_robot/mini_robot_control.py:101-175 | it returns Terminate exactly for `k`, Ignored exactly for an unbound key and Aborted exactly when a Ctrl-C comes during the key's pauses; it runs the key's motion through `MoveJoint` and appends exactly `KeyRunWrites`, moves the state to `ApplyKey` when not aborted, and sleeps `KeyRunDelay` |
| `TeleopControl.Startup` | mini_robot/mini_robot_control.py:63-69 | it appends the four zero writes, leaves all four pins at 0 and every other pin unchanged; the 1 s pause completes unless a Ctrl-C is due then |
| `TeleopControl.Cleanup` | mini_robot/mini_robot_control.py:180-189 | from any state, also after a ramp cut short, it appends the four zero writes, leaves all four pins at 0, then stops the connection |
| `TeleopControl.ControlLoop` | mini_robot/mini_robot_control.py:94-175 | for any script and Ctrl-C schedule, its exit, its log, its pin state and its delay are `LoopExit`, `LoopWrites`, their replay and `LoopDelay` |
| `TeleopControl.RunTeleop` | mini_robot/mini_robot_control.py:61-189 | the whole run appends exactly `SessionWrites`, ends as `SessionExit` and sleeps `SessionDelay`; the connection is stopped exactly when the `try` block was left, and then all four pins are at 0 |

## Left out

- The pigpio, RPi.GPIO and gpiozero libraries are replaced by the abstract
  `Pi` object (pin map plus write log) and by the return value of `SetAngle`.
  Their own range checks and errors are not modelled.
- Connecting to the daemon and exiting when that fails (lines 18-21) is
  process plumbing. `RunTeleop` starts from an open connection.
- Raw-terminal key reading (`getch`, lines 23-32) is I/O. Input is the
  scripted event sequence.
- A KeyboardInterrupt raised outside `getch` and outside every pause (the
  terminal is then in normal mode, so a typed Ctrl-C counts too) is not
  modelled at the moment it arrives. Its effect equals one of the modelled
  cases:
  - after a motion key is read and before its first write (the `print` at
    line 103 or line 53): an `Interrupt` in place of that key, which makes no
    write and ends the loop Interrupted;
  - between a ramp write and its pause (lines 58-59): a Ctrl-C in that pause;
  - between the settle pause and the settle write: a Ctrl-C in the settle
    pause;
  - after the startup pause (the `print` calls at lines 71-92), after a
    settle write, or around `get_current_pw` (line 96): an `Interrupt` at
    the next read.
- SessionParksAllPins (and `RunTeleop`): only one KeyboardInterrupt per run
  is modelled, so the parked pins are promised only for runs with at most
  one. A second one raised inside the `finally` block (lines 180-189) would
  skip the zero writes after it and the `pi.stop()`.
- `time.sleep` only adds to an abstract clock. Real-time pacing cannot be
  verified. A sleep cut short by a Ctrl-C adds nothing, so the time of a
  partial pause is not counted.
- All `print` output is left out, including the inconsistent `target_pw`
  values at lines 107-171. It never affects pin state.
- An exception other than KeyboardInterrupt, for example one raised inside a
  hardware call, is not modelled as an event. `Cleanup`'s contract holds from
  any state, so it covers that way out too.
- `MoveServoSlowly`: a negative duration is excluded by a precondition. In the
  script it would make `time.sleep` raise ValueError after the first write.
  Every call in the script passes 3.0.
- `Clock.Sleep`: a negative duration is excluded by a precondition. Python's
  `time.sleep` raises ValueError for one.
- The GPIO setup, `pwm.start(0)`, the sleeps and the final `pwm.stop()` /
  `GPIO.cleanup()` in `test_servo.py` are hardware plumbing. Only `set_angle`
  is modelled.
- `test_movements/dhiee.py` is straight-line servo assignments with no logic.
  It is not part of this model.
- Python float rounding is not modelled. All arithmetic is exact `real`.
