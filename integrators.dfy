/**
 * The three fixed-step integrators of the oscillator simulation.
 *
 * Each scheme fills a position array and a velocity array, index by index,
 * from an initial condition on the time grid t.  All three update the
 * velocity first and then move the position with the NEW velocity; Midpoint
 * and the program's "RK4" add one and the same offset to both the position
 * and the velocity when they probe the force at an intermediate point.
 * Arithmetic is over `real`, an idealisation of the program's floating point.
 */
module Integrators {
  /** A point of phase space: position (or angle) and velocity. */
  datatype State = State(x: real, v: real)

  /** A force law as the integrators see it: (t, x, v) to an acceleration. */
  type ForceField = (real, real, real) -> real

  /** The acceleration that force law f gives at time t in state (x, v). */
  function Accel(f: ForceField, t: real, x: real, v: real): real
  {
    f(t, x, v)
  }

  /** The three step-advance schemes of the simulation. */
  datatype Scheme = EulerCromer | Midpoint | RungeKutta4

  /** The grid's end point, excluded: the grid is the multiples of dt below 60. */
  const EndTime: real := 60.0

  /** The initial position and velocity of every run. */
  const InitPosition: real := 0.2
  const InitVelocity: real := 0.0

  /**
   * dt times the acceleration at time t in the state (x, v) shifted by the
   * same offset d in BOTH components, the way every stage of the program
   * probes the force.
   */
  function Slope(f: ForceField, t: real, dt: real, x: real, v: real, d: real): real
  {
    dt * Accel(f, t, x + d, v + d)
  }

  /** Euler-Cromer: the velocity takes an Euler step, the position follows with the new velocity. */
  function EulerCromerStep(f: ForceField, t: real, dt: real, x: real, v: real): (s': State)
    ensures s'.x == x + dt * s'.v
  {
    var v' := v + Slope(f, t, dt, x, v, 0.0);
    State(x + dt * v', v')
  }

  /** Midpoint: the force at half a step, reached by adding (dt/2) a to both x and v. */
  function MidpointStep(f: ForceField, t: real, dt: real, x: real, v: real): (s': State)
    ensures s'.x == x + dt * s'.v
  {
    var v' := v + Slope(f, t + dt / 2.0, dt, x, v, (dt / 2.0) * Accel(f, t, x, v));
    State(x + dt * v', v')
  }

  /** The program's velocity-only four-stage Runge-Kutta step. */
  function RungeKutta4Step(f: ForceField, t: real, dt: real, x: real, v: real): (s': State)
    ensures s'.x == x + dt * s'.v
  {
    var k1 := Slope(f, t, dt, x, v, 0.0);
    var k2 := Slope(f, t + dt / 2.0, dt, x, v, k1 / 2.0);
    var k3 := Slope(f, t + dt / 2.0, dt, x, v, k2 / 2.0);
    var k4 := Slope(f, t + dt, dt, x, v, k3);
    var v' := v + (1.0 / 6.0) * (k1 + 2.0 * k2 + 2.0 * k3 + k4);
    State(x + dt * v', v')
  }

  /** One step of `scheme` from the state (x, v) at time t. */
  function Step(scheme: Scheme, f: ForceField, t: real, dt: real, x: real, v: real): (s': State)
    ensures s'.x == x + dt * s'.v
  {
    match scheme
    case EulerCromer => EulerCromerStep(f, t, dt, x, v)
    case Midpoint => MidpointStep(f, t, dt, x, v)
    case RungeKutta4 => RungeKutta4Step(f, t, dt, x, v)
  }

  /** A one-step map of a fixed-step scheme: (t, x, v) to the next state. */
  type Stepper = (real, real, real) -> State

  /** The one-step map of `scheme` for the force law f and the step dt. */
  function StepperOf(scheme: Scheme, f: ForceField, dt: real): Stepper
  {
    (t, x, v) => Step(scheme, f, t, dt, x, v)
  }

  /**
   * The first k states that the one-step map `step` computes on the grid t
   * from (x0, v0): state j + 1 is one step from state j at time t[j].
   */
  function Trajectory(step: Stepper, t: seq<real>, x0: real, v0: real, k: nat): (states: seq<State>)
    requires 1 <= k <= |t|
    ensures |states| == k && states[0] == State(x0, v0)
    decreases k
  {
    if k == 1 then [State(x0, v0)]
    else
      var prev := Trajectory(step, t, x0, v0, k - 1);
      prev + [step(t[k - 2], prev[k - 2].x, prev[k - 2].v)]
  }

  /** The two arrays hold, index by index over the grid t, the states `scheme` computes. */
  ghost predicate IsTrajectory(positions: array<real>, velocities: array<real>, scheme: Scheme,
                               f: ForceField, t: seq<real>, dt: real, x0: real, v0: real)
    requires |t| >= 1
    reads positions, velocities
  {
    var states := Trajectory(StepperOf(scheme, f, dt), t, x0, v0, |t|);
    positions.Length == velocities.Length == |t| &&
    forall i :: 0 <= i < |t| ==> positions[i] == states[i].x && velocities[i] == states[i].v
  }

  /** Computing more states leaves the earlier ones as they were. */
  lemma {:induction false} TrajectoryPrefix(step: Stepper, t: seq<real>, x0: real, v0: real, k: nat, m: nat)
    requires 1 <= k <= m <= |t|
    ensures Trajectory(step, t, x0, v0, m)[..k] == Trajectory(step, t, x0, v0, k)
    decreases m
  {
    if k < m {
      TrajectoryPrefix(step, t, x0, v0, k, m - 1);
      var prev := Trajectory(step, t, x0, v0, m - 1);
      assert Trajectory(step, t, x0, v0, m)[..k] == prev[..k];
    }
  }

  /** In every trajectory, state i + 1 is one step from state i at time t[i]. */
  lemma TrajectoryStep(step: Stepper, t: seq<real>, x0: real, v0: real, k: nat, i: nat)
    requires 1 <= k <= |t| && i + 1 < k
    ensures var states := Trajectory(step, t, x0, v0, k);
            states[i + 1] == step(t[i], states[i].x, states[i].v)
  {
    TrajectoryPrefix(step, t, x0, v0, i + 2, k);
    var states := Trajectory(step, t, x0, v0, k);
    assert states[i + 1] == states[..i + 2][i + 1] && states[i] == states[..i + 2][i];
  }

  /** A loop iteration that writes the next state of the step map extends the trajectory by one state. */
  lemma TrajectoryAdvance(step: Stepper, t: seq<real>, x0: real, v0: real, i: nat,
                          x: real, v: real, x': real, v': real)
    requires i + 1 < |t|
    requires Trajectory(step, t, x0, v0, |t|)[i] == State(x, v)
    requires step(t[i], x, v) == State(x', v')
    ensures Trajectory(step, t, x0, v0, |t|)[i + 1] == State(x', v')
  {
    TrajectoryStep(step, t, x0, v0, |t|, i);
  }

  /** On a one-point grid the loops do not run: the arrays hold the initial condition and nothing else. */
  lemma OnePointGrid(positions: array<real>, velocities: array<real>, scheme: Scheme,
                     f: ForceField, t: seq<real>, dt: real, x0: real, v0: real)
    requires |t| == 1
    requires IsTrajectory(positions, velocities, scheme, f, t, dt, x0, v0)
    ensures positions[..] == [x0] && velocities[..] == [v0]
  {
  }

  /** The new velocity of one Euler-Cromer iteration. */
  method EulerCromerKick(f: ForceField, t: real, dt: real, x: real, v: real) returns (v': real)
    ensures v' == EulerCromerStep(f, t, dt, x, v).v
    ensures StepperOf(EulerCromer, f, dt)(t, x, v) == State(x + dt * v', v')
  {
    v' := v + dt * Accel(f, t, x, v);
    assert x + 0.0 == x && v + 0.0 == v;
  }

  /** The new velocity of one Midpoint iteration. */
  method MidpointKick(f: ForceField, t: real, dt: real, x: real, v: real) returns (v': real)
    ensures v' == MidpointStep(f, t, dt, x, v).v
    ensures StepperOf(Midpoint, f, dt)(t, x, v) == State(x + dt * v', v')
  {
    v' := v + dt * Accel(f, t + dt / 2.0,
                         x + (dt / 2.0) * Accel(f, t, x, v),
                         v + (dt / 2.0) * Accel(f, t, x, v));
  }

  /** The new velocity of one Runge-Kutta iteration, from its four stages. */
  method RungeKutta4Kick(f: ForceField, t: real, dt: real, x: real, v: real) returns (v': real)
    ensures v' == RungeKutta4Step(f, t, dt, x, v).v
    ensures StepperOf(RungeKutta4, f, dt)(t, x, v) == State(x + dt * v', v')
  {
    var k1 := dt * Accel(f, t, x, v);
    var k2 := dt * Accel(f, t + dt / 2.0, x + k1 / 2.0, v + k1 / 2.0);
    var k3 := dt * Accel(f, t + dt / 2.0, x + k2 / 2.0, v + k2 / 2.0);
    var k4 := dt * Accel(f, t + dt, x + k3, v + k3);
    v' := v + (1.0 / 6.0) * (k1 + 2.0 * k2 + 2.0 * k3 + k4);
    RungeKutta4Stages(f, t, dt, x, v, k1, k2, k3, k4);
  }

  /** The four stages as the program computes them are the slopes of the "RK4" step. */
  lemma RungeKutta4Stages(f: ForceField, t: real, dt: real, x: real, v: real,
                          k1: real, k2: real, k3: real, k4: real)
    requires k1 == dt * Accel(f, t, x, v)
    requires k2 == dt * Accel(f, t + dt / 2.0, x + k1 / 2.0, v + k1 / 2.0)
    requires k3 == dt * Accel(f, t + dt / 2.0, x + k2 / 2.0, v + k2 / 2.0)
    requires k4 == dt * Accel(f, t + dt, x + k3, v + k3)
    ensures RungeKutta4Step(f, t, dt, x, v).v == v + (1.0 / 6.0) * (k1 + 2.0 * k2 + 2.0 * k3 + k4)
  {
    assert Slope(f, t, dt, x, v, 0.0) == k1 by {
      assert x + 0.0 == x && v + 0.0 == v;
    }
    assert Slope(f, t + dt / 2.0, dt, x, v, k1 / 2.0) == k2;
    assert Slope(f, t + dt / 2.0, dt, x, v, k2 / 2.0) == k3;
    assert Slope(f, t + dt, dt, x, v, k3) == k4;
  }

  /** Euler-Cromer over the grid t, filling a fresh pair of zeroed arrays in place. */
  method IntegrateEulerCromer(f: ForceField, t: seq<real>, dt: real, x0: real, v0: real)
    returns (positions: array<real>, velocities: array<real>)
    requires |t| >= 1
    ensures fresh(positions) && fresh(velocities)
    ensures positions != velocities
    ensures positions.Length == |t| && velocities.Length == |t|
    ensures positions[0] == x0 && velocities[0] == v0
    ensures IsTrajectory(positions, velocities, EulerCromer, f, t, dt, x0, v0)
  {
    positions := new real[|t|](_ => 0.0);
    velocities := new real[|t|](_ => 0.0);
    velocities[0] := v0;
    positions[0] := x0;
    ghost var states := Trajectory(StepperOf(EulerCromer, f, dt), t, x0, v0, |t|);
    for i := 0 to |t| - 1
      invariant forall j :: 0 <= j <= i ==> positions[j] == states[j].x && velocities[j] == states[j].v
    {
      var x, v := positions[i], velocities[i];
      var v' := EulerCromerKick(f, t[i], dt, x, v);
      TrajectoryAdvance(StepperOf(EulerCromer, f, dt), t, x0, v0, i, x, v, x + dt * v', v');
      velocities[i + 1] := v';
      positions[i + 1] := x + dt * v';
    }
  }

  /** Midpoint over the grid t, filling a fresh pair of zeroed arrays in place. */
  method IntegrateMidpoint(f: ForceField, t: seq<real>, dt: real, x0: real, v0: real)
    returns (positions: array<real>, velocities: array<real>)
    requires |t| >= 1
    ensures fresh(positions) && fresh(velocities)
    ensures positions != velocities
    ensures positions.Length == |t| && velocities.Length == |t|
    ensures positions[0] == x0 && velocities[0] == v0
    ensures IsTrajectory(positions, velocities, Midpoint, f, t, dt, x0, v0)
  {
    positions := new real[|t|](_ => 0.0);
    velocities := new real[|t|](_ => 0.0);
    velocities[0] := v0;
    positions[0] := x0;
    ghost var states := Trajectory(StepperOf(Midpoint, f, dt), t, x0, v0, |t|);
    for i := 0 to |t| - 1
      invariant forall j :: 0 <= j <= i ==> positions[j] == states[j].x && velocities[j] == states[j].v
    {
      var x, v := positions[i], velocities[i];
      var v' := MidpointKick(f, t[i], dt, x, v);
      TrajectoryAdvance(StepperOf(Midpoint, f, dt), t, x0, v0, i, x, v, x + dt * v', v');
      velocities[i + 1] := v';
      positions[i + 1] := x + dt * v';
    }
  }

  /** The velocity-only Runge-Kutta scheme over the grid t, filling a fresh pair of zeroed arrays in place. */
  method IntegrateRungeKutta4(f: ForceField, t: seq<real>, dt: real, x0: real, v0: real)
    returns (positions: array<real>, velocities: array<real>)
    requires |t| >= 1
    ensures fresh(positions) && fresh(velocities)
    ensures positions != velocities
    ensures positions.Length == |t| && velocities.Length == |t|
    ensures positions[0] == x0 && velocities[0] == v0
    ensures IsTrajectory(positions, velocities, RungeKutta4, f, t, dt, x0, v0)
  {
    positions := new real[|t|](_ => 0.0);
    velocities := new real[|t|](_ => 0.0);
    velocities[0] := v0;
    positions[0] := x0;
    ghost var states := Trajectory(StepperOf(RungeKutta4, f, dt), t, x0, v0, |t|);
    for i := 0 to |t| - 1
      invariant forall j :: 0 <= j <= i ==> positions[j] == states[j].x && velocities[j] == states[j].v
    {
      var x, v := positions[i], velocities[i];
      var v' := RungeKutta4Kick(f, t[i], dt, x, v);
      TrajectoryAdvance(StepperOf(RungeKutta4, f, dt), t, x0, v0, i, x, v, x + dt * v', v');
      velocities[i + 1] := v';
      positions[i + 1] := x + dt * v';
    }
  }

  /** r is the ceiling of q: the least integer not below it. */
  lemma CeilingScaled(q: real, r: real, dt: real)
    requires dt > 0.0 && q <= r < q + 1.0
    ensures (r - 1.0) * dt < q * dt <= r * dt
  {
    assert (r - q) * dt >= 0.0;
    assert (q + 1.0 - r) * dt > 0.0;
  }

  /** The number of points of the grid 0, dt, 2 dt, ... below the end time. */
  function GridLength(dt: real): (n: nat)
    requires dt > 0.0
    ensures n >= 1
    ensures ((n - 1) as real) * dt < EndTime <= (n as real) * dt
  {
    var q := EndTime / dt;
    var c := -((-q).Floor);
    CeilingScaled(q, c as real, dt);
    assert q * dt == EndTime;
    c as nat
  }

  /**
   * The program's time grid, arange(0, 60, dt): the multiples of dt from 0
   * upwards that lie below the end time, and no others.
   */
  function TimeGrid(dt: real): (t: seq<real>)
    requires dt > 0.0
    ensures |t| >= 1 && t[0] == 0.0
    ensures forall i :: 0 <= i < |t| ==> t[i] == (i as real) * dt
    ensures t[|t| - 1] < EndTime <= (|t| as real) * dt
  {
    seq(GridLength(dt), i => (i as real) * dt)
  }

  /**
   * The simulation driver: the three schemes, each on its own freshly
   * zeroed pair of arrays, over the time grid below the end time, from the
   * program's initial condition.
   */
  method Swing(f: ForceField, dt: real)
    returns (t: seq<real>,
             eulerX: array<real>, eulerV: array<real>,
             midX: array<real>, midV: array<real>,
             rkX: array<real>, rkV: array<real>)
    requires dt > 0.0
    ensures t == TimeGrid(dt)
    ensures fresh(eulerX) && fresh(eulerV) && fresh(midX) && fresh(midV) && fresh(rkX) && fresh(rkV)
    ensures eulerX != eulerV && eulerX != midX && eulerX != midV && eulerX != rkX && eulerX != rkV
    ensures eulerV != midX && eulerV != midV && eulerV != rkX && eulerV != rkV
    ensures midX != midV && midX != rkX && midX != rkV
    ensures midV != rkX && midV != rkV
    ensures rkX != rkV
    ensures IsTrajectory(eulerX, eulerV, EulerCromer, f, t, dt, InitPosition, InitVelocity)
    ensures IsTrajectory(midX, midV, Midpoint, f, t, dt, InitPosition, InitVelocity)
    ensures IsTrajectory(rkX, rkV, RungeKutta4, f, t, dt, InitPosition, InitVelocity)
  {
    t := TimeGrid(dt);
    eulerX, eulerV := IntegrateEulerCromer(f, t, dt, InitPosition, InitVelocity);
    midX, midV := IntegrateMidpoint(f, t, dt, InitPosition, InitVelocity);
    rkX, rkV := IntegrateRungeKutta4(f, t, dt, InitPosition, InitVelocity);
  }
}
