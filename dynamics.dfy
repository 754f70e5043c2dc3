/**
 * What the integrators do with the program's force laws.  The facts are
 * proved for any field with the property they need, and the force laws are
 * shown to have it: a body at rest stays at rest under every law without a
 * driving term, and under the small-angle pendulum every scheme is a shear
 * of phase space that keeps a quadratic energy exactly.
 */
module Dynamics {
  import opened ForceLaws
  import opened Integrators

  /** The force law `law` as the field the integrators evaluate. */
  function Field(law: Law, trig: Trig): ForceField
  {
    (t, x, v) => Force(law, trig, t, x, v)
  }

  // ----- Rest -----

  /** f exerts no force on a body at rest, at every time. */
  ghost predicate KeepsRest(f: ForceField)
  {
    forall t :: f(t, 0.0, 0.0) == 0.0
  }

  /** Every law without a driving term exerts no force at rest. */
  lemma UndrivenKeepsRest(law: Law, trig: Trig)
    requires IsUndriven(law)
    ensures KeepsRest(Field(law, trig))
  {
    forall t ensures Field(law, trig)(t, 0.0, 0.0) == 0.0 {
      assert Field(law, trig)(t, 0.0, 0.0) == Force(law, trig, t, 0.0, 0.0);
    }
  }

  /** Under a field that keeps rest, one step of any scheme from rest stays at rest. */
  lemma RestIsFixed(scheme: Scheme, f: ForceField, t: real, dt: real)
    requires KeepsRest(f)
    ensures Step(scheme, f, t, dt, 0.0, 0.0) == State(0.0, 0.0)
  {
    var k1 := Slope(f, t, dt, 0.0, 0.0, 0.0);
    assert k1 == 0.0;
    match scheme
    case EulerCromer =>
    case Midpoint =>
      assert (dt / 2.0) * Accel(f, t, 0.0, 0.0) == 0.0;
    case RungeKutta4 =>
      var k2 := Slope(f, t + dt / 2.0, dt, 0.0, 0.0, k1 / 2.0);
      assert k2 == 0.0;
      var k3 := Slope(f, t + dt / 2.0, dt, 0.0, 0.0, k2 / 2.0);
      assert k3 == 0.0;
  }

  /** Under a field that keeps rest, a trajectory that starts at rest never leaves it. */
  lemma {:induction false} RestStaysAtRest(scheme: Scheme, f: ForceField, t: seq<real>, dt: real, k: nat)
    requires KeepsRest(f)
    requires 1 <= k <= |t|
    ensures forall i :: 0 <= i < k ==> Trajectory(StepperOf(scheme, f, dt), t, 0.0, 0.0, k)[i] == State(0.0, 0.0)
  {
    if k > 1 {
      RestStaysAtRest(scheme, f, t, dt, k - 1);
      RestIsFixed(scheme, f, t[k - 2], dt);
    }
  }

  /** Arrays that hold the trajectory of an undriven law from rest are all zero. */
  lemma RestArrays(positions: array<real>, velocities: array<real>, scheme: Scheme, law: Law, trig: Trig,
                   t: seq<real>, dt: real)
    requires |t| >= 1
    requires IsUndriven(law)
    requires IsTrajectory(positions, velocities, scheme, Field(law, trig), t, dt, 0.0, 0.0)
    ensures forall i :: 0 <= i < positions.Length ==> positions[i] == 0.0 && velocities[i] == 0.0
  {
    UndrivenKeepsRest(law, trig);
    RestStaysAtRest(scheme, Field(law, trig), t, dt, |t|);
  }

  // ----- The small-angle pendulum -----

  /** f is the small-angle pendulum field F = -x. */
  ghost predicate IsHarmonic(f: ForceField)
  {
    forall t, x, v :: f(t, x, v) == -x
  }

  /** The simple-harmonic law is the field F = -x. */
  lemma SimpleHarmonicIsHarmonic(trig: Trig)
    ensures IsHarmonic(Field(SimpleHarmonic, trig))
  {
    forall t, x, v ensures Field(SimpleHarmonic, trig)(t, x, v) == -x {
      assert Field(SimpleHarmonic, trig)(t, x, v) == SimpleHarmonicForce(t, x, v);
    }
  }

  /**
   * How much velocity one step of each scheme takes away per unit of
   * position under F = -x: the Taylor polynomial of 1 - exp(-dt) to first,
   * second and fourth order.  (The exact flow takes sin(dt) x off, up to
   * terms in v; the shared offset of the probes is what turns the series of
   * sin into that of 1 - exp(-dt) beyond the first order.)
   */
  function Gain(scheme: Scheme, dt: real): real
  {
    match scheme
    case EulerCromer => dt
    case Midpoint => dt - dt * dt / 2.0
    case RungeKutta4 => dt - dt * dt / 2.0 + dt * dt * dt / 6.0 - dt * dt * dt * dt / 24.0
  }

  /** Euler-Cromer under F = -x takes dt x off the velocity. */
  lemma HarmonicEulerCromer(f: ForceField, t: real, dt: real, x: real, v: real)
    requires IsHarmonic(f)
    ensures Step(EulerCromer, f, t, dt, x, v).v == v - Gain(EulerCromer, dt) * x
  {
    var k1 := Slope(f, t, dt, x, v, 0.0);
  }

  /** The midpoint scheme under F = -x takes (dt - dt^2/2) x off the velocity. */
  lemma HarmonicMidpoint(f: ForceField, t: real, dt: real, x: real, v: real)
    requires IsHarmonic(f)
    ensures Step(Midpoint, f, t, dt, x, v).v == v - Gain(Midpoint, dt) * x
  {
    var d := (dt / 2.0) * Accel(f, t, x, v);
    var k := Slope(f, t + dt / 2.0, dt, x, v, d);
    assert k == dt * -(x + (dt / 2.0) * -x);
  }

  /** The four stages of the velocity-only Runge-Kutta step under F = -x sum to -Gain x. */
  lemma HarmonicStages(dt: real, x: real, k1: real, k2: real, k3: real, k4: real)
    requires k1 == dt * -x
    requires k2 == dt * -(x + k1 / 2.0)
    requires k3 == dt * -(x + k2 / 2.0)
    requires k4 == dt * -(x + k3)
    ensures (1.0 / 6.0) * (k1 + 2.0 * k2 + 2.0 * k3 + k4) == -Gain(RungeKutta4, dt) * x
  {
    assert k2 == -dt * x + dt * dt * x / 2.0;
    assert k3 == -dt * x + dt * dt * x / 2.0 - dt * dt * dt * x / 4.0;
    assert k4 == -dt * x + dt * dt * x - dt * dt * dt * x / 2.0 + dt * dt * dt * dt * x / 4.0;
  }

  /** The velocity-only Runge-Kutta step under F = -x takes the fourth-order gain times x off the velocity. */
  lemma HarmonicRungeKutta4(f: ForceField, t: real, dt: real, x: real, v: real)
    requires IsHarmonic(f)
    ensures Step(RungeKutta4, f, t, dt, x, v).v == v - Gain(RungeKutta4, dt) * x
  {
    var k1 := Slope(f, t, dt, x, v, 0.0);
    var k2 := Slope(f, t + dt / 2.0, dt, x, v, k1 / 2.0);
    var k3 := Slope(f, t + dt / 2.0, dt, x, v, k2 / 2.0);
    var k4 := Slope(f, t + dt, dt, x, v, k3);
    HarmonicStages(dt, x, k1, k2, k3, k4);
  }

  /**
   * The quadratic form a x^2 + h v^2 - a h x v.  For a, h > 0 and a h < 4
   * it is positive definite, so a motion that keeps it stays bounded.
   */
  function ShearEnergy(a: real, h: real, x: real, v: real): real
  {
    a * x * x + h * v * v - a * h * x * v
  }

  /** The shear v' = v - a x, x' = x + h v' keeps ShearEnergy(a, h, ., .). */
  lemma ShearKeepsEnergy(a: real, h: real, x: real, v: real, x': real, v': real)
    requires v' == v - a * x
    requires x' == x + h * v'
    ensures ShearEnergy(a, h, x', v') == ShearEnergy(a, h, x, v)
  {
  }

  /** For a, h > 0 and a h < 4 the energy bounds the square of the position and of the velocity. */
  lemma ShearEnergyBounds(a: real, h: real, x: real, v: real)
    requires a > 0.0 && h > 0.0 && a * h < 4.0
    ensures a * (1.0 - a * h / 4.0) * (x * x) <= ShearEnergy(a, h, x, v)
    ensures h * (1.0 - a * h / 4.0) * (v * v) <= ShearEnergy(a, h, x, v)
  {
    var c := 1.0 - a * h / 4.0;
    var p := x - h * v / 2.0;
    var q := v - a * x / 2.0;
    assert ShearEnergy(a, h, x, v) == a * (p * p) + h * c * (v * v);
    assert ShearEnergy(a, h, x, v) == h * (q * q) + a * c * (x * x);
    assert a * (p * p) >= 0.0;
    assert h * (q * q) >= 0.0;
  }

  /** `step` kicks with gain a: it takes a x off the velocity. */
  ghost predicate Kicks(step: Stepper, a: real)
  {
    forall t, x, v :: step(t, x, v).v == v - a * x
  }

  /** The position x moved for a time h at the velocity v. */
  function Drift(x: real, h: real, v: real): real
  {
    x + h * v
  }

  /** `step` drifts with step h: it moves the position by h times the new velocity. */
  ghost predicate Drifts(step: Stepper, h: real)
  {
    forall t, x, v :: step(t, x, v).x == Drift(x, h, step(t, x, v).v)
  }

  /** Every scheme drifts with its step dt, whatever the force. */
  lemma SchemeDrifts(scheme: Scheme, f: ForceField, dt: real)
    ensures Drifts(StepperOf(scheme, f, dt), dt)
  {
    forall t, x, v
      ensures StepperOf(scheme, f, dt)(t, x, v).x == Drift(x, dt, StepperOf(scheme, f, dt)(t, x, v).v)
    {
      var s := Step(scheme, f, t, dt, x, v);
      assert StepperOf(scheme, f, dt)(t, x, v) == s;
      assert s.x == Drift(x, dt, s.v);
    }
  }

  /** Euler-Cromer under F = -x kicks with its gain. */
  lemma HarmonicEulerCromerKicks(f: ForceField, dt: real)
    requires IsHarmonic(f)
    ensures Kicks(StepperOf(EulerCromer, f, dt), Gain(EulerCromer, dt))
  {
    forall t, x, v
      ensures StepperOf(EulerCromer, f, dt)(t, x, v).v == v - Gain(EulerCromer, dt) * x
    {
      HarmonicEulerCromer(f, t, dt, x, v);
    }
  }

  /** The midpoint scheme under F = -x kicks with its gain. */
  lemma HarmonicMidpointKicks(f: ForceField, dt: real)
    requires IsHarmonic(f)
    ensures Kicks(StepperOf(Midpoint, f, dt), Gain(Midpoint, dt))
  {
    forall t, x, v
      ensures StepperOf(Midpoint, f, dt)(t, x, v).v == v - Gain(Midpoint, dt) * x
    {
      HarmonicMidpoint(f, t, dt, x, v);
    }
  }

  /** The velocity-only Runge-Kutta scheme under F = -x kicks with its gain. */
  lemma HarmonicRungeKutta4Kicks(f: ForceField, dt: real)
    requires IsHarmonic(f)
    ensures Kicks(StepperOf(RungeKutta4, f, dt), Gain(RungeKutta4, dt))
  {
    forall t, x, v
      ensures StepperOf(RungeKutta4, f, dt)(t, x, v).v == v - Gain(RungeKutta4, dt) * x
    {
      HarmonicRungeKutta4(f, t, dt, x, v);
    }
  }

  /** A step that kicks with gain a and drifts with step h is the shear (a, h) at every point. */
  lemma ShearPoint(step: Stepper, a: real, h: real, t: real, x: real, v: real)
    requires Kicks(step, a) && Drifts(step, h)
    ensures step(t, x, v).v == v - a * x
    ensures step(t, x, v).x == Drift(x, h, step(t, x, v).v)
  {
  }

  /** Every state of a trajectory of a shear has the energy of the initial state. */
  lemma {:induction false} ShearTrajectoryKeepsEnergy(step: Stepper, a: real, h: real, t: seq<real>,
                                                      x0: real, v0: real, k: nat)
    requires Kicks(step, a) && Drifts(step, h)
    requires 1 <= k <= |t|
    ensures forall i :: 0 <= i < k ==>
      var s := Trajectory(step, t, x0, v0, k)[i];
      ShearEnergy(a, h, s.x, s.v) == ShearEnergy(a, h, x0, v0)
  {
    if k > 1 {
      ShearTrajectoryKeepsEnergy(step, a, h, t, x0, v0, k - 1);
      var s := Trajectory(step, t, x0, v0, k - 1)[k - 2];
      var s' := step(t[k - 2], s.x, s.v);
      ShearPoint(step, a, h, t[k - 2], s.x, s.v);
      ShearKeepsEnergy(a, h, s.x, s.v, s'.x, s'.v);
    }
  }

  /** Under F = -x every state of every scheme's trajectory has the energy of the initial state. */
  lemma HarmonicKeepsEnergy(scheme: Scheme, f: ForceField, t: seq<real>, dt: real, x0: real, v0: real)
    requires IsHarmonic(f)
    requires |t| >= 1
    ensures forall i :: 0 <= i < |t| ==>
      var s := Trajectory(StepperOf(scheme, f, dt), t, x0, v0, |t|)[i];
      ShearEnergy(Gain(scheme, dt), dt, s.x, s.v) == ShearEnergy(Gain(scheme, dt), dt, x0, v0)
  {
    match scheme {
      case EulerCromer => HarmonicEulerCromerKicks(f, dt);
      case Midpoint => HarmonicMidpointKicks(f, dt);
      case RungeKutta4 => HarmonicRungeKutta4Kicks(f, dt);
    }
    SchemeDrifts(scheme, f, dt);
    ShearTrajectoryKeepsEnergy(StepperOf(scheme, f, dt), Gain(scheme, dt), dt, t, x0, v0, |t|);
  }

  /** The arrays the integrators fill for the simple-harmonic law keep the energy of the initial condition. */
  lemma HarmonicArraysKeepEnergy(positions: array<real>, velocities: array<real>, scheme: Scheme, trig: Trig,
                                 t: seq<real>, dt: real, x0: real, v0: real)
    requires |t| >= 1
    requires IsTrajectory(positions, velocities, scheme, Field(SimpleHarmonic, trig), t, dt, x0, v0)
    ensures forall i :: 0 <= i < positions.Length ==>
      ShearEnergy(Gain(scheme, dt), dt, positions[i], velocities[i]) == ShearEnergy(Gain(scheme, dt), dt, x0, v0)
  {
    SimpleHarmonicIsHarmonic(trig);
    HarmonicKeepsEnergy(scheme, Field(SimpleHarmonic, trig), t, dt, x0, v0);
  }

  /**
   * Euler-Cromer on the small-angle pendulum with 0 < dt < 2 never lets
   * the position grow beyond a bound set by the initial condition.
   */
  lemma EulerCromerHarmonicBounded(positions: array<real>, velocities: array<real>, trig: Trig,
                                   t: seq<real>, dt: real, x0: real, v0: real)
    requires |t| >= 1
    requires 0.0 < dt < 2.0
    requires IsTrajectory(positions, velocities, EulerCromer, Field(SimpleHarmonic, trig), t, dt, x0, v0)
    ensures forall i :: 0 <= i < positions.Length ==>
      dt * (1.0 - dt * dt / 4.0) * (positions[i] * positions[i]) <= ShearEnergy(dt, dt, x0, v0)
  {
    HarmonicArraysKeepEnergy(positions, velocities, EulerCromer, trig, t, dt, x0, v0);
    assert dt * dt < 4.0;
    forall i | 0 <= i < positions.Length
      ensures dt * (1.0 - dt * dt / 4.0) * (positions[i] * positions[i]) <= ShearEnergy(dt, dt, x0, v0)
    {
      ShearEnergyBounds(dt, dt, positions[i], velocities[i]);
    }
  }

  // ----- The program's configuration -----

  /**
   * The simulation as the program runs it: the Rayleigh-Lorentz law, from
   * the initial condition (0.2, 0), with all three schemes.
   */
  method SwingRayleighLorentz(trig: Trig, dt: real)
    returns (t: seq<real>,
             eulerX: array<real>, eulerV: array<real>,
             midX: array<real>, midV: array<real>,
             rkX: array<real>, rkV: array<real>)
    requires dt > 0.0
    ensures t == TimeGrid(dt)
    ensures fresh(eulerX) && fresh(eulerV) && fresh(midX) && fresh(midV) && fresh(rkX) && fresh(rkV)
    ensures eulerX != eulerV && eulerX != midX && eulerX != midV && eulerX != rkX && eulerX != rkV
    ensures eulerV != midX && eulerV != midV && eulerV != rkX && eulerV != rkV
    ensures midX != midV && midX != rkX && midX != rkV
    ensures midV != rkX && midV != rkV
    ensures rkX != rkV
    ensures IsTrajectory(eulerX, eulerV, EulerCromer, Field(RayleighLorentz, trig), t, dt, InitPosition, InitVelocity)
    ensures IsTrajectory(midX, midV, Midpoint, Field(RayleighLorentz, trig), t, dt, InitPosition, InitVelocity)
    ensures IsTrajectory(rkX, rkV, RungeKutta4, Field(RayleighLorentz, trig), t, dt, InitPosition, InitVelocity)
  {
    t, eulerX, eulerV, midX, midV, rkX, rkV := Swing(Field(RayleighLorentz, trig), dt);
  }
}
