# Oscillators in Dafny

A model of the numerical core of the oscillator simulation `Oscillators.py`.
The model has two parts.

The first part is the family of force laws. Each law maps a time, a position (or angle) and a
velocity (or angular velocity) to an acceleration. The laws are the small-angle pendulum, the
anharmonic spring, the damped pendulum, the damped driven pendulum, the chaotic pendulum, the
Duffing oscillator and the Rayleigh-Lorentz pendulum.

The second part is the `swing` driver and its three fixed-step schemes:

- Euler-Cromer;
- Midpoint;
- the program's velocity-only four-stage "RK4".

Each scheme fills a fresh, zeroed pair of position and velocity arrays over the time grid,
starting from the initial condition (0.2, 0).

The project has three modules:

- `ForceLaws` (`force_laws.dfy`). The laws as one closed datatype `Law` with a `Force` function.
  The closed form of each law is proved from the program's own constants and from how the laws
  build on one another.
- `Integrators` (`integrators.dfy`). This module holds:
  - the one-step functions of the three schemes, and the `Trajectory` they generate over a time
    grid;
  - the three array-filling methods, each proved to fill its arrays with exactly that trajectory;
  - the time grid `arange(0, 60, dt)`;
  - the `Swing` driver.
- `Dynamics` (`dynamics.dfy`). What the schemes do with the laws:
  - Under any law without a driving term, a body at rest stays at rest.
  - Under the small-angle pendulum F = -x, each scheme is a *shear*. It first takes `Gain * x`
    off the velocity, then moves the position by `dt` times the new velocity.
  - A shear keeps the quadratic energy `a x^2 + dt v^2 - a dt x v` exactly, so Euler-Cromer
    with `0 < dt < 2` keeps the position bounded.

The shear lemmas also give the exact gain of each scheme:

| scheme | `Gain` |
|---|---|
| Euler-Cromer | `dt` |
| Midpoint | `dt - dt^2/2` |
| "RK4" | `dt - dt^2/2 + dt^3/6 - dt^4/24` |

These are Taylor polynomials of `1 - exp(-dt)`. They are not polynomials of `sin(dt)`, which has
no `dt^2` term. The reason is that both Midpoint and "RK4" add the velocity-sized offset to the
position as well as to the velocity when they probe the force. So beyond first order neither
scheme follows the pendulum's flow. The model keeps the code's schemes exactly as written. It
does not claim the second- or fourth-order accuracy that the names in the comments at
`Oscillators.py:94` ("Midpoint method") and `Oscillators.py:109` ("Runge-Kutta method (RK4)")
suggest.

Arithmetic is over `real`, an idealisation of the program's floating point. The program calls
`np.sin` and `np.cos`. The model passes them in as a `Trig` value of two functions, and assumes
nothing about them.

## Model

| member | source | states |
|---|---|---|
| ForceLaws.SimpleHarmonicForce | Oscillators.py:9-16 | with l = g the small-angle pendulum is F = -theta, whatever the time and velocity |
| ForceLaws.AnharmonicForce | Oscillators.py:18-22 | F = -x^3, which pulls back towards 0 from either side and vanishes at 0 |
| ForceLaws.Cube | Oscillators.py:21 | the power x**3 with the integer exponent 3 is x*x*x |
| ForceLaws.CubeSign | Oscillators.py:21 | x^3 has the sign of x |
| ForceLaws.DampedForce | Oscillators.py:24-27 | the small-angle force less q*omega with q = 1/2: F = -theta - omega/2 |
| ForceLaws.DampedDrivenForce | Oscillators.py:29-33 | the damped force plus the drive 1.2 sin(2t/3) |
| ForceLaws.ChaoticNonlinearForce | Oscillators.py:35-37 | the damped driven force with theta replaced by sin(theta): -sin(theta) - omega/2 + 1.2 sin(2t/3) |
| ForceLaws.DuffingForce | Oscillators.py:39-49 | F = 0.5 cos(1.2 t) - 0.3 v + x (1 - x^2) with the program's delta, alpha, beta, gamma, omega |
| ForceLaws.RayleighLorentzForce | Oscillators.py:51-57 | with omega = t/100, F = -(t^2/10000) x |
| ForceLaws.Force | Oscillators.py:9-57 | the law selected by its tag; every law without a driving term gives no force at rest |
| ForceLaws.ForceHomogeneous | Oscillators.py:13-57 | the simple-harmonic, damped and Rayleigh-Lorentz forces scale with the state: F(c x, c v) = c F(x, v) |
| Integrators.EulerCromerStep | Oscillators.py:84-85 | the Euler-Cromer step moves the position to x' = x + dt v' with its new velocity v'; that v' = v + dt F(t, x, v) is stated by Integrators.EulerCromerKick |
| Integrators.MidpointStep | Oscillators.py:97-100 | the Midpoint step moves the position to x' = x + dt v' with its new velocity v'; that v' = v + dt F(t + dt/2, x + (dt/2) a, v + (dt/2) a), with a = F(t, x, v), is stated by Integrators.MidpointKick |
| Integrators.RungeKutta4Step | Oscillators.py:116-121 | the "RK4" step moves the position to x' = x + dt v' with its new velocity v'; that v' = v + (k1 + 2 k2 + 2 k3 + k4)/6 is stated by Integrators.RungeKutta4Stages |
| Integrators.RungeKutta4Stages | Oscillators.py:116-120 | stages k1 = dt F(t, x, v), k2 = dt F(t + dt/2, x + k1/2, v + k1/2), k3 likewise from k2, k4 = dt F(t + dt, x + k3, v + k3), combined as v + (k1 + 2 k2 + 2 k3 + k4)/6, are the "RK4" step's velocity |
| Integrators.Step | Oscillators.py:83-121 | every scheme moves the position by dt times the NEW velocity |
| Integrators.Trajectory | Oscillators.py:71-76 | the states of a run: as many as asked for, the first being the initial condition |
| Integrators.TrajectoryPrefix | Oscillators.py:83 | computing more states never changes the earlier ones |
| Integrators.TrajectoryStep | Oscillators.py:83-85 | state i + 1 is one step from state i at time t[i] |
| Integrators.TrajectoryAdvance | Oscillators.py:84-85 | writing the step map's next state at index i + 1 extends the trajectory by exactly that state |
| Integrators.OnePointGrid | Oscillators.py:83 | on a one-point grid the arrays hold exactly the initial condition |
| Integrators.EulerCromerKick | Oscillators.py:84 | v' = v + dt F(t, x, v) is the Euler-Cromer step's velocity, and the step's next state is (x + dt v', v') |
| Integrators.MidpointKick | Oscillators.py:97-99 | the velocity from the force at t + dt/2, probed with the same offset (dt/2) F added to x and v, is the Midpoint step's velocity, and the next state is (x + dt v', v') |
| Integrators.RungeKutta4Kick | Oscillators.py:116-120 | the four stages, with offsets k1/2, k2/2, k3 added to both x and v, combined as (k1 + 2 k2 + 2 k3 + k4)/6, give the "RK4" step's velocity v', and the next state is (x + dt v', v') |
| Integrators.IntegrateEulerCromer | Oscillators.py:71-85 | fresh, distinct arrays of length len(t) with the initial condition at index 0 and, at every index, the Euler-Cromer trajectory |
| Integrators.IntegrateMidpoint | Oscillators.py:89-100 | fresh, distinct re-zeroed arrays of length len(t) holding the Midpoint trajectory from the initial condition |
| Integrators.IntegrateRungeKutta4 | Oscillators.py:104-121 | fresh, distinct re-zeroed arrays of length len(t) holding the "RK4" trajectory from the initial condition |
| Integrators.GridLength | Oscillators.py:62 | arange(0, 60, dt) has ceil(60/dt) points: at least one, the last below 60, the next one not |
| Integrators.TimeGrid | Oscillators.py:62 | point i of arange(0, 60, dt) is i*dt, it starts at 0 and stops before 60 |
| Integrators.Swing | Oscillators.py:60-126 | the three schemes run on the same grid from (0.2, 0), each on its own fresh arrays, no two of the six the same |
| Dynamics.UndrivenKeepsRest | Oscillators.py:9-57 | the simple-harmonic, anharmonic, damped and Rayleigh-Lorentz laws exert no force at rest |
| Dynamics.RestIsFixed | Oscillators.py:83-121 | under a field that vanishes at rest, one step of any scheme from rest stays at rest |
| Dynamics.RestStaysAtRest | Oscillators.py:83-121 | under such a field, a trajectory from rest is at rest at every index |
| Dynamics.RestArrays | Oscillators.py:83-121 | the arrays the schemes fill for an undriven law from rest are all zero |
| Dynamics.SimpleHarmonicIsHarmonic | Oscillators.py:13-15 | the simple-harmonic law is the field F = -x |
| Dynamics.HarmonicEulerCromer | Oscillators.py:84 | under F = -x Euler-Cromer takes dt x off the velocity |
| Dynamics.HarmonicMidpoint | Oscillators.py:97-99 | under F = -x Midpoint takes (dt - dt^2/2) x off the velocity |
| Dynamics.HarmonicStages | Oscillators.py:116-120 | under F = -x the four "RK4" stages combine to -(dt - dt^2/2 + dt^3/6 - dt^4/24) x |
| Dynamics.HarmonicRungeKutta4 | Oscillators.py:116-120 | under F = -x "RK4" takes (dt - dt^2/2 + dt^3/6 - dt^4/24) x off the velocity |
| Dynamics.ShearKeepsEnergy | Oscillators.py:84-85 | a velocity kick v' = v - a x followed by the drift x' = x + h v' keeps a x^2 + h v^2 - a h x v |
| Dynamics.ShearEnergyBounds | Oscillators.py:84-85 | for a, h > 0 and a h < 4 that energy bounds x^2 and v^2 from above |
| Dynamics.SchemeDrifts | Oscillators.py:85 | for every scheme and force, the position moves by dt times the new velocity |
| Dynamics.HarmonicEulerCromerKicks | Oscillators.py:84 | under F = -x Euler-Cromer kicks the velocity with its gain at every time and state |
| Dynamics.HarmonicMidpointKicks | Oscillators.py:97-99 | under F = -x Midpoint kicks the velocity with its gain at every time and state |
| Dynamics.HarmonicRungeKutta4Kicks | Oscillators.py:116-120 | under F = -x "RK4" kicks the velocity with its gain at every time and state |
| Dynamics.ShearPoint | Oscillators.py:84-85 | a step that kicks and drifts is, at any point, that kick followed by that drift |
| Dynamics.ShearTrajectoryKeepsEnergy | Oscillators.py:83-85 | every state of a kick-drift trajectory has the energy of the initial state |
| Dynamics.HarmonicKeepsEnergy | Oscillators.py:83-121 | under F = -x every state of every scheme's trajectory keeps its scheme's energy |
| Dynamics.HarmonicArraysKeepEnergy | Oscillators.py:83-121 | the arrays filled for the simple-harmonic law keep that energy at every index |
| Dynamics.EulerCromerHarmonicBounded | Oscillators.py:83-85 | Euler-Cromer on the simple-harmonic law with 0 < dt < 2 keeps dt (1 - dt^2/4) x_i^2 below the initial energy |
| Dynamics.SwingRayleighLorentz | Oscillators.py:60-76 | the program's own run: the Rayleigh-Lorentz law through the three schemes from (0.2, 0), on six distinct fresh arrays |

## Left out

- Plotting and display (`plt.plot`, `plt.show`) have no behaviour to model.
- The script entry point `main` only picks the time step 0.1.
- Floating point is not modelled: all arithmetic is exact over `real`.
  - The grid is modelled as the exact multiples `i*dt` below 60, and its length as the exact
    ceiling of `60/dt`.
  - `np.arange` computes both in floating point, and its length can differ by one when `60/dt`
    is near an integer.
- `np.sin` and `np.cos` are foreign library calls. They are a `Trig` parameter, and nothing is
  assumed about them.
- Integrators.Swing: takes the force law as a parameter. The program hard-codes
  `rayleighLorentz` at `Oscillators.py:68`, which is `Dynamics.SwingRayleighLorentz`.
- Integrators.IntegrateEulerCromer, Integrators.IntegrateMidpoint, Integrators.IntegrateRungeKutta4:
  these require a non-empty grid, and `Integrators.Swing` requires `dt > 0`.
  - The program does not guard either case. With an empty grid, the write to index 0 raises
    an exception.
  - The model states these as preconditions rather than modelling the exception.
- In the position update, the model uses the velocity it has just stored. The program re-reads
  that value from the array. The two are the same number.
- Accuracy and convergence order (the comment at `Oscillators.py:129`) are not proved.
- The constants `q = 1/2` (`Oscillators.py:25`), `od = 2/3` (`Oscillators.py:31`) and the
  weight `1/6` (`Oscillators.py:120`) are read with Python 3 true division. Under Python 2's
  integer division each would be 0.
