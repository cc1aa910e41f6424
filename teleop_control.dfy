/** The teleoperation controller of mini_robot/mini_robot_control.py as an
    imperative program over an abstract servo bank. The pigpio handle `pi`
    becomes an object holding the last-commanded pulse width of every pin and
    the log of every write; `time.sleep` only adds to an abstract clock; the
    keyboard is a scripted sequence of events. Every method is proved against
    the reference definitions of module TeleopSpec. */
module TeleopControl {
  import opened TeleopSpec

  /** The connection to the servo daemon: per-pin pulse widths and the log of
      all `set_servo_pulsewidth` calls made through it. */
  class Pi {
    var servo: map<int, real>
    var log: seq<Write>
    var stopped: bool
    /** The daemon's pin state when the connection was opened. */
    ghost const initial: map<int, real>

    /** The pin state is always what replaying the write log over the initial
        state gives. */
    ghost predicate Valid()
      reads this
    {
      servo == Replay(initial, log)
    }

    constructor (initialServo: map<int, real>)
      ensures Valid() && !stopped
      ensures servo == initialServo && initial == initialServo && log == []
    {
      servo := initialServo;
      log := [];
      stopped := false;
      initial := initialServo;
    }

    /** `pi.set_servo_pulsewidth(pin, pulseUs)`: the pin takes the new pulse
        width and the write is logged, which keeps the replay invariant. */
    method SetServoPulsewidth(pin: int, pulseUs: real)
      requires !stopped
      modifies this
      ensures old(Valid()) ==> Valid()
      ensures !stopped
      ensures servo == old(servo)[pin := pulseUs]
      ensures log == old(log) + [Write(pin, pulseUs)]
    {
      servo := servo[pin := pulseUs];
      log := log + [Write(pin, pulseUs)];
      assert log[..|log| - 1] == old(log);
    }

    /** `pi.get_servo_pulsewidth(pin)`: the last pulse width written to the
        pin through this connection, or the daemon's value when none was. */
    function GetServoPulsewidth(pin: int): (pw: real)
      reads this
      requires Valid() && pin in servo
      ensures LastWriteTo(log, pin).Some? ==> pw == LastWriteTo(log, pin).value
      ensures LastWriteTo(log, pin).None? ==> pin in initial && pw == initial[pin]
    {
      ReplayIsLastWrite(initial, log, pin);
      servo[pin]
    }

    /** `pi.stop()`: release the connection; no pulse width changes. */
    method Stop()
      requires Valid()
      modifies this
      ensures Valid() && stopped
      ensures servo == old(servo) && log == old(log)
    {
      stopped := true;
    }
  }

  /** Abstract time: the sum of all completed `time.sleep` durations, and
      when the operator's Ctrl-C will come. */
  class Clock {
    var elapsed: real
    /** Number of further pauses that complete before the KeyboardInterrupt
        arrives in the next one; None if it never comes. */
    var ctrlC: CtrlC

    constructor (schedule: CtrlC)
      ensures elapsed == 0.0 && ctrlC == schedule
    {
      elapsed := 0.0;
      ctrlC := schedule;
    }

    /** `time.sleep(seconds)`: completes, or is cut short by the Ctrl-C, which
        raises KeyboardInterrupt (`interrupted`). */
    method Sleep(seconds: real) returns (interrupted: bool)
      requires seconds >= 0.0
      modifies this
      ensures interrupted <==> old(ctrlC) == Some(0)
      ensures interrupted ==> elapsed == old(elapsed) && ctrlC == old(ctrlC)
      ensures !interrupted ==> elapsed == old(elapsed) + seconds && ctrlC == After(old(ctrlC), 1)
    {
      interrupted := ctrlC == Some(0);
      if !interrupted {
        elapsed := elapsed + seconds;
        ctrlC := After(ctrlC, 1);
      }
    }
  }

  /** One pass of the loop body of `move_servo_slowly`: write the i-th
      sample of the ramp, then pause `delay`; the pause ends in a Ctrl-C
      when one is due now. */
  method RampStep(pi: Pi, clock: Clock, pin: int, startPw: int, endPw: int, stepSize: real, i: int, delay: real)
    returns (interrupted: bool)
    requires !pi.stopped
    requires stepSize == StepSize(startPw, endPw) && delay >= 0.0
    modifies pi, clock
    ensures !pi.stopped
    ensures pi.log == old(pi.log) + [Write(pin, RampPulse(startPw, endPw, i))]
    ensures pi.servo == old(pi.servo)[pin := RampPulse(startPw, endPw, i)]
    ensures interrupted <==> old(clock.ctrlC) == Some(0)
    ensures clock.elapsed == old(clock.elapsed) + (if interrupted then 0.0 else delay)
    ensures clock.ctrlC == After(old(clock.ctrlC), 1)
  {
    var pulseWidth := startPw as real + stepSize * i as real;
    RampPulseFromStep(startPw, endPw, stepSize, i);
    pi.SetServoPulsewidth(pin, pulseWidth);
    interrupted := clock.Sleep(delay);
  }

  /** `move_servo_slowly`: 51 writes on `pin`, linearly from startPw to
      endPw, pausing duration / 50 after each; a Ctrl-C during pause v stops
      it after v + 1 writes (`interrupted`). The KeyboardInterrupt raised in
      `time.sleep` leaves the `for` loop; the loop condition models that exit. */
  method MoveServoSlowly(pi: Pi, clock: Clock, pin: int, startPw: int, endPw: int, duration: real)
    returns (interrupted: bool)
    requires pi.Valid() && !pi.stopped
    requires duration >= 0.0
    modifies pi, clock
    ensures pi.Valid() && !pi.stopped
    ensures interrupted <==> old(clock.ctrlC).Some? && old(clock.ctrlC).value <= STEPS
    ensures pi.log == old(pi.log) + RampUpTo(pin, startPw, endPw, RampWritesDone(old(clock.ctrlC)))
    ensures pi.servo == old(pi.servo)[pin := RampPulse(startPw, endPw, RampWritesDone(old(clock.ctrlC)) - 1)]
    ensures !interrupted ==> pi.servo == old(pi.servo)[pin := endPw as real]
    ensures clock.elapsed == old(clock.elapsed) + Pauses(if interrupted then old(clock.ctrlC).value else STEPS + 1, duration)
    ensures clock.ctrlC == After(old(clock.ctrlC), STEPS + 1)
  {
    interrupted := false;
    var steps := STEPS;
    var delay := duration / steps as real;
    var stepSize := StepSize(startPw, endPw);
    ghost var ctrlC0 := clock.ctrlC;
    ghost var log0, servo0, elapsed0 := pi.log, pi.servo, clock.elapsed;
    ghost var written: seq<Write> := [];
    var i := 0;
    while i < steps + 1 && !interrupted
      invariant 0 <= i <= steps + 1
      invariant !pi.stopped
      invariant pi.log == log0 + written
      invariant written == RampUpTo(pin, startPw, endPw, i)
      invariant i == 0 ==> pi.servo == servo0
      invariant i > 0 ==> pi.servo == servo0[pin := RampPulse(startPw, endPw, i - 1)]
      invariant interrupted ==> i > 0 && ctrlC0 == Some(i - 1) && clock.elapsed == elapsed0 + Pauses(i - 1, duration)
      invariant !interrupted ==> (ctrlC0.Some? ==> ctrlC0.value >= i) && clock.elapsed == elapsed0 + Pauses(i, duration)
      invariant clock.ctrlC == After(ctrlC0, i)
    {
      interrupted := RampStep(pi, clock, pin, startPw, endPw, stepSize, i, delay);
      written := written + [Write(pin, RampPulse(startPw, endPw, i))];
      i := i + 1;
    }
    assert RampWritesDone(ctrlC0) == i;
    ReplayAppend(pi.initial, log0, written);
    ReplayRampUpTo(servo0, pin, startPw, endPw, i);
    assert RampPulse(startPw, endPw, STEPS) == endPw as real;
  }

  /** The outcome of one pass of the dispatch chain. */
  datatype DispatchResult = Moved | Ignored | Terminate | Aborted

  /** The body shared by the eight motion branches of the `if/elif` chain:
      the ramp of binding b, the 0.5 s pause, then the settle write;
      a Ctrl-C in any pause ends it there (`interrupted`). */
  method MoveJoint(pi: Pi, clock: Clock, b: Binding) returns (interrupted: bool)
    requires pi.Valid() && !pi.stopped
    modifies pi, clock
    ensures pi.Valid() && !pi.stopped
    ensures interrupted <==> MotionInterrupted(old(clock.ctrlC))
    ensures pi.log == old(pi.log) + MotionRunWrites(b, old(clock.ctrlC))
    ensures clock.elapsed == old(clock.elapsed) + MotionRunDelay(old(clock.ctrlC))
    ensures clock.ctrlC == After(old(clock.ctrlC), KEY_SLEEPS)
  {
    ghost var ctrlC0 := clock.ctrlC;
    ghost var ramp := Ramp(b.pin, b.startPw, b.endPw);
    assert MotionWrites(b) == ramp + [Write(b.pin, b.settlePw as real)];
    interrupted := MoveServoSlowly(pi, clock, b.pin, b.startPw, b.endPw, RAMP_DURATION);
    RampUpToIsPrefix(b.pin, b.startPw, b.endPw, RampWritesDone(ctrlC0));
    if interrupted {
      assert MotionWrites(b)[..ctrlC0.value + 1] == ramp[..ctrlC0.value + 1];
      assert MotionRunWrites(b, ctrlC0) == ramp[..RampWritesDone(ctrlC0)];
      return;
    }
    assert ramp[..STEPS + 1] == ramp;
    interrupted := clock.Sleep(SETTLE_DELAY);
    if interrupted {
      assert MotionWrites(b)[..STEPS + 1] == ramp;
      assert MotionRunWrites(b, ctrlC0) == ramp;
      return;
    }
    pi.SetServoPulsewidth(b.pin, b.settlePw as real);
  }

  /** One pass of the `if/elif` chain for `key`: a motion key ramps its pin
      over 3 s, pauses 0.5 s and writes its settle pulse, unless a Ctrl-C
      cuts it short (Aborted); the quit key asks the loop to stop; any other
      key does nothing. */
  method Dispatch(pi: Pi, clock: Clock, key: char) returns (r: DispatchResult)
    requires pi.Valid() && !pi.stopped
    modifies pi, clock
    ensures pi.Valid() && !pi.stopped
    ensures r == Terminate <==> key == QUIT_KEY
    ensures r == Ignored <==> key != QUIT_KEY && BindingFor(key).None?
    ensures r == Aborted <==> KeyInterrupted(key, old(clock.ctrlC))
    ensures pi.log == old(pi.log) + KeyRunWrites(key, old(clock.ctrlC))
    ensures pi.servo == Replay(old(pi.servo), KeyRunWrites(key, old(clock.ctrlC)))
    ensures r != Aborted ==> pi.servo == ApplyKey(old(pi.servo), key)
    ensures clock.elapsed == old(clock.elapsed) + KeyRunDelay(key, old(clock.ctrlC))
    ensures clock.ctrlC == KeyRunCtrlC(key, old(clock.ctrlC))
  {
    r := Ignored;
    if key == QUIT_KEY {
      r := Terminate;
    } else if BindingFor(key).Some? {
      var interrupted := MoveJoint(pi, clock, BindingFor(key).value);
      r := if interrupted then Aborted else Moved;
    }
    ReplayAppend(pi.initial, old(pi.log), KeyRunWrites(key, old(clock.ctrlC)));
    KeyWritesReplay(old(pi.servo), key);
  }

  /** The startup block: 0 to all four pins, then a one-second pause, which a
      Ctrl-C may cut short (`interrupted`). */
  method Startup(pi: Pi, clock: Clock) returns (interrupted: bool)
    requires pi.Valid() && !pi.stopped
    modifies pi, clock
    ensures pi.Valid() && !pi.stopped
    ensures interrupted <==> old(clock.ctrlC) == Some(0)
    ensures pi.log == old(pi.log) + DisengageWrites()
    ensures forall p :: p in PINS ==> p in pi.servo && pi.servo[p] == DISENGAGED
    ensures forall p :: p in old(pi.servo) && p !in PINS ==> p in pi.servo && pi.servo[p] == old(pi.servo)[p]
    ensures clock.elapsed == old(clock.elapsed) + (if interrupted then 0.0 else STARTUP_DELAY)
    ensures clock.ctrlC == After(old(clock.ctrlC), 1)
  {
    pi.SetServoPulsewidth(GRIPPER_PIN, 0.0);
    pi.SetServoPulsewidth(WRIST_ROLL_PIN, 0.0);
    pi.SetServoPulsewidth(WRIST_PITCH_PIN, 0.0);
    pi.SetServoPulsewidth(ELBOW_PIN, 0.0);
    interrupted := clock.Sleep(STARTUP_DELAY);
    ReplayAppend(pi.initial, old(pi.log), DisengageWrites());
    DisengageParks(old(pi.servo));
  }

  /** The `finally` block: 0 to all four pins, then close the connection.
      It holds from any prior state, so it parks every pin whichever way the
      loop was left, also when a ramp was cut short. */
  method Cleanup(pi: Pi)
    requires pi.Valid() && !pi.stopped
    modifies pi
    ensures pi.Valid() && pi.stopped
    ensures pi.log == old(pi.log) + DisengageWrites()
    ensures forall p :: p in PINS ==> p in pi.servo && pi.servo[p] == DISENGAGED
    ensures forall p :: p in old(pi.servo) && p !in PINS ==> p in pi.servo && pi.servo[p] == old(pi.servo)[p]
  {
    pi.SetServoPulsewidth(GRIPPER_PIN, 0.0);
    pi.SetServoPulsewidth(WRIST_ROLL_PIN, 0.0);
    pi.SetServoPulsewidth(WRIST_PITCH_PIN, 0.0);
    pi.SetServoPulsewidth(ELBOW_PIN, 0.0);
    pi.Stop();
    ReplayAppend(pi.initial, old(pi.log), DisengageWrites());
    DisengageParks(old(pi.servo));
  }

  /** The `while True` loop: read the gripper's pulse width (never used),
      take the next event, dispatch it; leave on the quit key, a SIGINT while
      waiting, or a Ctrl-C during a motion. When the script is exhausted the
      loop is still waiting for a key and reports Waiting. */
  method ControlLoop(pi: Pi, clock: Clock, script: seq<Event>) returns (exit: Exit)
    requires pi.Valid() && !pi.stopped
    requires GRIPPER_PIN in pi.servo
    modifies pi, clock
    ensures pi.Valid() && !pi.stopped
    ensures exit == LoopExit(script, old(clock.ctrlC))
    ensures pi.log == old(pi.log) + LoopWrites(script, old(clock.ctrlC))
    ensures pi.servo == Replay(old(pi.servo), LoopWrites(script, old(clock.ctrlC)))
    ensures clock.elapsed == old(clock.elapsed) + LoopDelay(script, old(clock.ctrlC))
  {
    var i := 0;
    exit := Waiting;
    while i < |script|
      invariant 0 <= i <= |script|
      invariant pi.Valid() && !pi.stopped
      invariant GRIPPER_PIN in pi.servo
      invariant exit == Waiting
      invariant pi.log + LoopWrites(script[i..], clock.ctrlC) == old(pi.log) + LoopWrites(script, old(clock.ctrlC))
      invariant clock.elapsed + LoopDelay(script[i..], clock.ctrlC) == old(clock.elapsed) + LoopDelay(script, old(clock.ctrlC))
      invariant LoopExit(script[i..], clock.ctrlC) == LoopExit(script, old(clock.ctrlC))
    {
      var currentPw := pi.GetServoPulsewidth(GRIPPER_PIN);
      ghost var b := clock.ctrlC;
      ghost var l0 := pi.log;
      LoopUnfold(script[i..], b);
      if script[i].Interrupt? {
        exit := Interrupted;
        break;
      }
      var c := script[i].ch;
      var r := Dispatch(pi, clock, c);
      if r == Terminate {
        exit := Quit;
        break;
      }
      if r == Aborted {
        exit := Interrupted;
        break;
      }
      assert script[i..][1..] == script[i + 1..];
      assert !KeyInterrupted(c, b) && KeyRunWrites(c, b) == KeyWrites(c) && KeyRunDelay(c, b) == KeyDelay(c);
      AppendAssoc(l0, KeyWrites(c), LoopWrites(script[i + 1..], clock.ctrlC));
      i := i + 1;
    }
    assert i == |script| ==> script[i..] == [];
    ReplayAppend(pi.initial, old(pi.log), LoopWrites(script, old(clock.ctrlC)));
  }

  /** Regrouping consecutive runs of writes. */
  lemma AppendAssoc(a: seq<Write>, b: seq<Write>, c: seq<Write>)
    ensures a + b + c == a + (b + c)
  {
  }

  /** The whole program after connecting: the `try` block (startup and the
      dispatch loop) and the cleanup that every way out of it runs. */
  method RunTeleop(pi: Pi, clock: Clock, script: seq<Event>) returns (exit: Exit)
    requires pi.Valid() && !pi.stopped
    modifies pi, clock
    ensures pi.Valid()
    ensures exit == SessionExit(script, old(clock.ctrlC))
    ensures pi.log == old(pi.log) + SessionWrites(script, old(clock.ctrlC))
    ensures pi.stopped <==> exit != Waiting
    ensures exit != Waiting ==> forall p :: p in PINS ==> p in pi.servo && pi.servo[p] == DISENGAGED
    ensures clock.elapsed == old(clock.elapsed) + SessionDelay(script, old(clock.ctrlC))
  {
    ghost var ctrlC0 := old(clock.ctrlC);
    var interrupted := Startup(pi, clock);
    ghost var loopWrites: seq<Write> := [];
    if interrupted {
      exit := Interrupted;
    } else {
      loopWrites := LoopWrites(script, After(ctrlC0, 1));
      exit := ControlLoop(pi, clock, script);
    }
    assert exit == SessionExit(script, ctrlC0);
    assert pi.log == old(pi.log) + DisengageWrites() + loopWrites;
    ghost var tail: seq<Write> := [];
    if exit != Waiting {
      tail := DisengageWrites();
      Cleanup(pi);
    }
    assert pi.log == old(pi.log) + DisengageWrites() + loopWrites + tail;
    assert SessionWrites(script, ctrlC0) == DisengageWrites() + loopWrites + tail;
    AppendAssoc(old(pi.log) + DisengageWrites(), loopWrites, tail);
    AppendAssoc(old(pi.log), DisengageWrites(), loopWrites + tail);
    AppendAssoc(DisengageWrites(), loopWrites, tail);
    assert pi.log == old(pi.log) + SessionWrites(script, ctrlC0);
  }
}
