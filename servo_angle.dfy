/** The angle-to-duty-cycle conversion of the single-servo test script
    (test_movements/test_servo.py, `set_angle`). All arithmetic is over `real`,
    so the conversion is exact where the script uses floating point. The value
    the script hands to `pwm.ChangeDutyCycle` is the result of `SetAngle`. */
module ServoAngle {

  /** PWM frequency the script configures, in Hz. */
  const FREQUENCY_HZ: real := 50.0
  /** Pulse duration for 0 degrees, in ms. */
  const PULSE_MIN_MS: real := 0.5
  /** Pulse duration for 180 degrees, in ms. */
  const PULSE_MAX_MS: real := 2.5
  /** Period of one PWM cycle at 50 Hz, in ms (the literal 20.0 of the script). */
  const PERIOD_MS: real := 20.0

  /** The guard at the top of `set_angle`: negative angles become 0, angles
      above 180 become 180, everything else passes through. */
  function ClampAngle(angle: real): (r: real)
    ensures 0.0 <= r <= 180.0
    ensures angle < 0.0 ==> r == 0.0
    ensures angle > 180.0 ==> r == 180.0
    ensures 0.0 <= angle <= 180.0 ==> r == angle
  {
    if angle < 0.0 then 0.0
    else if angle > 180.0 then 180.0
    else angle
  }

  /** Linear map from an angle in degrees to a pulse duration in ms. */
  function PulseWidthMs(angle: real): (r: real)
    ensures 0.0 <= angle <= 180.0 ==> PULSE_MIN_MS <= r <= PULSE_MAX_MS
    ensures angle == 0.0 ==> r == PULSE_MIN_MS
    ensures angle == 180.0 ==> r == PULSE_MAX_MS
  {
    PULSE_MIN_MS + (angle / 180.0) * (PULSE_MAX_MS - PULSE_MIN_MS)
  }

  /** A pulse duration in ms as a percentage of the 20 ms period. */
  function DutyCycle(pulseMs: real): (r: real)
    ensures PULSE_MIN_MS <= pulseMs <= PULSE_MAX_MS ==> 2.5 <= r <= 12.5
  {
    (pulseMs / PERIOD_MS) * 100.0
  }

  /** The duty cycle `set_angle(angle)` passes to the PWM channel. */
  function SetAngle(angle: real): (r: real)
    ensures 2.5 <= r <= 12.5
  {
    DutyCycle(PulseWidthMs(ClampAngle(angle)))
  }

  /** The duty cycle is the pulse duration as a share of one period of the
      configured 50 Hz signal: the hard-coded 20 ms is 1000 / 50, so the
      percentage is also pulse (ms) times frequency (Hz) / 10. */
  lemma DutyCycleMatchesFrequency(pulseMs: real)
    ensures DutyCycle(pulseMs) == 100.0 * pulseMs / (1000.0 / FREQUENCY_HZ)
    ensures DutyCycle(pulseMs) == pulseMs * FREQUENCY_HZ / 10.0
  {
  }

  /** The two calls the script makes: 0 degrees gives 2.5 %, 90 degrees gives 7.5 %;
      180 degrees gives 12.5 %. */
  lemma SetAngleExamples()
    ensures SetAngle(0.0) == 2.5
    ensures SetAngle(90.0) == 7.5
    ensures SetAngle(180.0) == 12.5
  {
  }

  /** Out-of-range requests saturate: every negative angle sends the 0-degree
      duty cycle and every angle above 180 the 180-degree one. */
  lemma SetAngleSaturates()
    ensures forall a :: a < 0.0 ==> SetAngle(a) == 2.5
    ensures forall a :: a > 180.0 ==> SetAngle(a) == 12.5
  {
  }

  /** Independent closed form of the whole conversion: 2.5 % plus one
      eighteenth of a percent per degree of the clamped angle. */
  lemma SetAngleClosedForm(angle: real)
    ensures SetAngle(angle) == 2.5 + ClampAngle(angle) / 18.0
  {
  }

  /** A larger requested angle never gives a smaller duty cycle. */
  lemma SetAngleMonotone(a: real, b: real)
    requires a <= b
    ensures SetAngle(a) <= SetAngle(b)
  {
    SetAngleClosedForm(a);
    SetAngleClosedForm(b);
  }

  /** Inside [0, 180] the conversion is strictly increasing, so distinct
      in-range angles give distinct duty cycles. */
  lemma SetAngleStrictInRange(a: real, b: real)
    requires 0.0 <= a < b <= 180.0
    ensures SetAngle(a) < SetAngle(b)
  {
    SetAngleClosedForm(a);
    SetAngleClosedForm(b);
  }

  /** Clamping first changes nothing: `set_angle(a)` and `set_angle(clamp(a))`
      send the same duty cycle. */
  lemma SetAngleClampIdempotent(angle: real)
    ensures ClampAngle(ClampAngle(angle)) == ClampAngle(angle)
    ensures SetAngle(ClampAngle(angle)) == SetAngle(angle)
  {
  }

  /** Inverse of the conversion on duty cycles in [2.5, 12.5]. */
  function AngleFromDutyCycle(duty: real): (angle: real)
  {
    ((duty / 100.0 * PERIOD_MS) - PULSE_MIN_MS) / (PULSE_MAX_MS - PULSE_MIN_MS) * 180.0
  }

  /** Reading the angle back from the duty cycle recovers the clamped angle. */
  lemma AngleFromDutyCycleRoundTrip(angle: real)
    ensures AngleFromDutyCycle(SetAngle(angle)) == ClampAngle(angle)
  {
    SetAngleClosedForm(angle);
  }
}
