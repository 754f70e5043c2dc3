/**
 * The force laws of the oscillator simulation.
 *
 * Every law maps a time `t`, a position (or angle) `x` and a velocity (or
 * angular velocity) `v` to one scalar, the acceleration d^2x/dt^2.  The
 * constants are the exact rational values of the program's literals, and
 * the trigonometric functions, which come from a numerical library, are
 * supplied by the caller as a `Trig` value and are otherwise unknown.
 */
module ForceLaws {

  /** The sine and cosine the laws call; nothing is assumed about them. */
  datatype Trig = Trig(sin: real -> real, cos: real -> real)

  /** The closed set of force laws, one tag per law of the program. */
  datatype Law =
    | SimpleHarmonic
    | Anharmonic
    | Damped
    | DampedDriven
    | ChaoticNonlinear
    | Duffing
    | RayleighLorentz

  // Pendulum constants: gravitational acceleration and a length equal to it.
  const G: real := 9.8
  const L: real := G

  // Anharmonic spring: stiffness and exponent.
  const AnharmonicK: real := 1.0
  const AnharmonicAlpha: nat := 3

  // Damping coefficient of the damped pendulum.
  const DampingQ: real := 1.0 / 2.0

  // Amplitude and angular frequency of the pendulum's driving torque.
  const DriveAmplitude: real := 1.2
  const DriveFrequency: real := 2.0 / 3.0

  // Duffing oscillator parameters.
  const DuffingDelta: real := 0.3
  const DuffingAlpha: real := -1.0
  const DuffingBeta: real := 1.0
  const DuffingGamma: real := 0.5
  const DuffingOmega: real := 1.2

  /** x raised to a natural power, as the program's `**` with an integer exponent. */
  function Power(x: real, k: nat): real
  {
    if k == 0 then 1.0 else x * Power(x, k - 1)
  }

  /** Small-angle pendulum: since the length equals g, the law is F = -theta. */
  function SimpleHarmonicForce(t: real, theta: real, omega: real): (f: real)
    ensures f == -theta
  {
    -(G * theta) / L
  }

  /** Anharmonic spring F = -k x^alpha with k = 1 and alpha = 3: a cubic restoring force. */
  function AnharmonicForce(t: real, x: real, v: real): (f: real)
    ensures f == -(x * x * x)
    ensures x > 0.0 ==> f < 0.0
    ensures x < 0.0 ==> f > 0.0
    ensures x == 0.0 ==> f == 0.0
  {
    Cube(x);
    CubeSign(x);
    -AnharmonicK * Power(x, AnharmonicAlpha)
  }

  /** The third power is the product of three copies of the base. */
  lemma Cube(x: real)
    ensures Power(x, 3) == x * x * x
  {
    assert Power(x, 1) == x;
    assert Power(x, 2) == x * x;
  }

  /** A cube has the sign of its base. */
  lemma CubeSign(x: real)
    ensures x > 0.0 ==> x * x * x > 0.0
    ensures x < 0.0 ==> x * x * x < 0.0
  {
    if x != 0.0 {
      assert x * x > 0.0;
    }
  }

  /** Damped pendulum: the simple-harmonic force less q times the angular velocity. */
  function DampedForce(t: real, theta: real, omega: real): (f: real)
    ensures f == -theta - omega / 2.0
  {
    SimpleHarmonicForce(t, theta, omega) - DampingQ * omega
  }

  /** Damped pendulum with the periodic drive 1.2 sin(2t/3) added. */
  function DampedDrivenForce(trig: Trig, t: real, theta: real, omega: real): (f: real)
    ensures f == -theta - omega / 2.0 + 1.2 * trig.sin(2.0 * t / 3.0)
  {
    assert DriveFrequency * t == 2.0 * t / 3.0;
    DampedForce(t, theta, omega) + DriveAmplitude * trig.sin(DriveFrequency * t)
  }

  /** The damped, driven pendulum without the small-angle approximation: theta becomes sin(theta). */
  function ChaoticNonlinearForce(trig: Trig, t: real, theta: real, omega: real): (f: real)
    ensures f == -trig.sin(theta) - omega / 2.0 + 1.2 * trig.sin(2.0 * t / 3.0)
  {
    DampedDrivenForce(trig, t, trig.sin(theta), omega)
  }

  /** Duffing oscillator with alpha = -1, a double-well potential driven by 0.5 cos(1.2 t). */
  function DuffingForce(trig: Trig, t: real, x: real, v: real): (f: real)
    ensures f == 0.5 * trig.cos(1.2 * t) - 0.3 * v + x * (1.0 - x * x)
  {
    Cube(x);
    DuffingGamma * trig.cos(DuffingOmega * t) - DuffingDelta * v
      - DuffingAlpha * x - DuffingBeta * Power(x, 3)
  }

  /** Rayleigh-Lorentz pendulum: a slowly stiffening spring, omega(t) = t/100. */
  function RayleighLorentzForce(t: real, x: real, v: real): (f: real)
    ensures f == -(t * t / 10000.0) * x
  {
    var omega := t / 100.0;
    assert omega * omega == t * t / 10000.0;
    -(omega * omega) * x
  }

  /** The laws without a driving term: their force vanishes at the rest state. */
  predicate IsUndriven(law: Law)
  {
    law.SimpleHarmonic? || law.Anharmonic? || law.Damped? || law.RayleighLorentz?
  }

  /** The laws whose force is linear in the state (x, v) at every time. */
  predicate IsLinear(law: Law)
  {
    law.SimpleHarmonic? || law.Damped? || law.RayleighLorentz?
  }

  /** The acceleration that `law` gives at time t in state (x, v). */
  function Force(law: Law, trig: Trig, t: real, x: real, v: real): (f: real)
    ensures IsUndriven(law) && x == 0.0 && v == 0.0 ==> f == 0.0
  {
    match law
    case SimpleHarmonic => SimpleHarmonicForce(t, x, v)
    case Anharmonic => AnharmonicForce(t, x, v)
    case Damped => DampedForce(t, x, v)
    case DampedDriven => DampedDrivenForce(trig, t, x, v)
    case ChaoticNonlinear => ChaoticNonlinearForce(trig, t, x, v)
    case Duffing => DuffingForce(trig, t, x, v)
    case RayleighLorentz => RayleighLorentzForce(t, x, v)
  }

  /** Scaling the state of a linear law by c scales its force by c. */
  lemma ForceHomogeneous(law: Law, trig: Trig, t: real, c: real, x: real, v: real)
    requires IsLinear(law)
    ensures Force(law, trig, t, c * x, c * v) == c * Force(law, trig, t, x, v)
  {
    match law
    case SimpleHarmonic =>
    case Damped =>
      assert -(c * x) - (c * v) / 2.0 == c * (-x - v / 2.0);
    case RayleighLorentz =>
      var w := t * t / 10000.0;
      assert -w * (c * x) == c * (-w * x);
  }
}
