# polsim-rs in Dafny: the polarized-target simulation, its hill-climbing controller and the PDP sweep averaging

polsim-rs simulates a solid polarized target. A fixed-step Euler integrator evolves the
nuclear and electron polarizations under dose-dependent transition rates. A
perturb-and-observe controller searches for the microwave frequency that polarizes fastest.
A PDP front end averages several short, fuzzed sweeps into each reading. This project models
the three core files and proves properties of the model:

- `base.dfy` (module `Base`): draws of the random source (`Unit`, a real in [0, 1)), `U32`,
  total division `Quot`, `Option`, and `Sum`/`Mean` of a sequence.
- `simulation.dfy` (module `Simulation`), for `src/simulation.rs`:
  - The classes `SimBuilder`, `Simulation` and `RunUntil` keep the source's fields and update them in place.
  - Each method is specified by a function on the abstract state `SimState`.
  - `Substep` and `Step` describe one loop iteration of `time_step` and a whole time step; `Steps` is n time steps; `RunTo` is a consumed `run_until`.
  - The lemmas prove the clock, the accumulators, the draws and the freshness of the rates.
- `controller.dfy` (module `Controller`), for `src/controller.rs`:
  - The midpoint-slope rate and the direction/step update `Adjust`.
  - The invariant of any run of updates, `Climbs`.
  - One full control step, `ControlStep`.
  - The classes `StdController` and `StdControlUntil`, whose `Next` is proved equal to `ControlStep`.
- `pdp.dfy` (module `Pdp`), for `src/pdp.rs`:
  - `pdp.rs` drives the simulation through a simulation interface that differs from the one in `simulation.rs`: a `Data` record and a two-argument `run_for`. The model sees that simulation as a `Target`: a data point you can read, plus an advance by a duration that never moves time backwards. The advance is given by an arbitrary `Evolution`, so the PDP results hold for every simulation behind it.
  - The sweep, the averaging `take_data` and the `RunUntil` iterator are modelled.
  - The lemmas bound the averaged polarization against the unfuzzed mean.

The model keeps these behaviours of the code:

- `anneal` builds a `run_until` iterator and drops it unconsumed (`src/simulation.rs:217`). Time therefore does not advance, and the system temperature ends where it began.
- The controller never assigns `last_rate` after construction (`src/controller.rs:31`). Every comparison is therefore against 0.0.
- `initial_pol` sets `t1n`/`t1e`, not the polarizations (`src/simulation.rs:123-127`).
- The controller's stop test is strictly `time > t_final` (`src/controller.rs:52`). At `time == t_final` a full step is still taken. The simulation's iterator uses `t < t_final`.

Numbers are reals.

- `exp`, `tanh` and `sqrt` are arbitrary functions supplied in a `Transcendentals` value.
- The integration sees the transition-rate curve as the `rates` field of a `Physics` value. `SimBuilder.Build` sets that field to the source's Gaussian fit `TransitionRates`.
- The random source is an oracle `nat -> Unit` read through a counter of draws.

## Model

| member | source | states |
|---|---|---|
| Simulation.SimBuilder.constructor | src/simulation.rs:111-121 | the builder starts from pn 0, pe -1, c 0.000136073, temperature 1, t1n 25*60, t1e 0.03 and the given frequency |
| Simulation.SimBuilder.InitialPol | src/simulation.rs:123-127 | sets t1n and t1e and leaves pn and pe unchanged |
| Simulation.SimBuilder.C | src/simulation.rs:129-132 | sets the material coefficient c |
| Simulation.SimBuilder.Temperature | src/simulation.rs:134-137 | sets the initial temperature |
| Simulation.SimBuilder.PhysicalConstants | src/simulation.rs:139-143 | sets t1n and t1e |
| Simulation.SimBuilder.Build | src/simulation.rs:145-175 | a fresh simulation at t = 0 with dose, beam current and phi zero; pn_raw = pn = the builder's pn; system temperature = temperature; alpha/beta = the Gaussian fit at (freq, 0); pe0 up to date; no draws taken |
| Simulation.Simulation.constructor | src/simulation.rs:146-167 | the struct literal of build: the given inputs, t = 0, dose, beam current and phi zero, pn_raw = pn, system temperature = temperature, no draws taken |
| Simulation.Simulation.SetFreq | src/simulation.rs:179-182 | sets the frequency and recomputes alpha/beta at (freq, dose); the data point changes only in its frequency; a state with fresh rates stays fresh |
| Simulation.Simulation.SetSystemTemperature | src/simulation.rs:184-186 | sets the system temperature |
| Simulation.Simulation.BeamOn | src/simulation.rs:188-190 | sets the beam current |
| Simulation.Simulation.BeamOff | src/simulation.rs:192-194 | sets the beam current to 0 |
| Simulation.Simulation.RunUntil | src/simulation.rs:196-201 | an iterator over this simulation with the given final time |
| Simulation.Simulation.RunFor | src/simulation.rs:203-206 | an iterator whose final time is the current time plus the duration |
| Simulation.Simulation.Anneal | src/simulation.rs:208-219 | phi becomes 0 and t1n becomes 0.8 t1n; every other field, including t and the system temperature, is unchanged because the iterator is never consumed |
| Simulation.Simulation.SetTemperature | src/simulation.rs:233-236 | sets the temperature and pe0 = -tanh(2 / temperature), which is -1 at temperature 0 as for the floating-point +inf quotient |
| Simulation.Simulation.TimeStep | src/simulation.rs:238-288 | the new state is Step of the old: N_ITER substeps, then the noisy reading; t advances by exactly TIME_STEP and the rates are fresh afterwards |
| Simulation.Simulation.RunSubsteps | src/simulation.rs:244-284 | the loop of time_step with the steady states fixed before it: the new state is N_ITER substeps of the old |
| Simulation.Simulation.EulerSubstep | src/simulation.rs:252-284 | one loop iteration: the new state is Substep of the old |
| Simulation.Simulation.EvolvePolarization | src/simulation.rs:254-269 | Euler updates of pn_raw and pe from the coefficients a..d, both rates taken from the old values |
| Simulation.Simulation.EvolveEnvironment | src/simulation.rs:271-283 | temperature and phi relax towards their steady states; c and dose grow with the beam; the rates are recomputed at the new dose; t += DT |
| Simulation.Simulation.CalcTransitionRates | src/simulation.rs:290-302 | alpha/beta become the rate curve at the current frequency and dose |
| Simulation.Simulation.Random | src/simulation.rs:305-306 | returns the next draw and counts it |
| Simulation.Simulation.PnNoisy | src/simulation.rs:304-309 | returns pn_raw * (1 + th) + u from the next two draws and takes exactly two draws |
| Simulation.ThermalNoise | src/simulation.rs:305 | the multiplicative noise lies in (-0.01, 0.01] |
| Simulation.UniformNoise | src/simulation.rs:306 | the additive noise lies in (-0.001, 0.001] |
| Simulation.RunUntil.constructor | src/simulation.rs:196-201 | an iterator holds its simulation and final time |
| Simulation.RunUntil.Next | src/simulation.rs:315-323 | while t < t_final, the snapshot taken before the step and one time step; otherwise None and nothing changes |
| Simulation.RunUntil.Drain | src/simulation.rs:315-323 | consuming the iterator from t0 gives the snapshots at t0, t0+1, ..., all below t_final, the i-th being the state after i steps; the clock ends at or past t_final |
| Simulation.IterateAdvances | src/simulation.rs:252-284 | a step that keeps the inputs and advances the clock, dose and c by dt's worth, iterated n times, advances them by n dt's worth |
| Simulation.IterateDraws | src/simulation.rs:304-306 | a step that takes k draws, iterated n times, takes k n draws |
| Simulation.SubstepEffect | src/simulation.rs:252-284 | one substep keeps t1n, t1e, freq, system temperature and beam current, advances t by DT, adds DT's worth of dose and c, leaves pn and the draws alone and leaves alpha/beta/pe0 fresh |
| Simulation.SubstepAdvances | src/simulation.rs:252-284 | the substep function has the properties IterateAdvances and IterateDraws need |
| Simulation.SubstepsEffect | src/simulation.rs:252-284 | n substeps advance t by n DT and dose and c in proportion, take no draws, and leave the rates fresh |
| Simulation.StepAdvances | src/simulation.rs:238-288 | the time-step function has the properties IterateAdvances and IterateDraws need |
| Simulation.StepEffect | src/simulation.rs:238-288 | one time step advances t by exactly TIME_STEP, dose and c by TIME_STEP's worth, takes two draws and leaves the rates fresh |
| Simulation.StepsEffect | src/simulation.rs:315-323 | n time steps put the clock at t0 + n, dose and c in proportion to elapsed time, take 2n draws, keep the rates fresh |
| Simulation.AccumulatorsMonotone | src/simulation.rs:276-277 | with beam current >= 0 dose and c never decrease over any number of steps; with the beam off they are unchanged |
| Simulation.RelaxBounds | src/simulation.rs:272-273 | a relaxation update with weight in [0, 1] moves a value towards its target without overshooting; with rate 0 it does nothing |
| Simulation.SubstepPhi | src/simulation.rs:249-273 | one substep with beam current in [0, 1e10], from phi in [0, 0.001], keeps phi in [its old value, 0.001]; with the beam off phi is unchanged |
| Simulation.IteratePhi | src/simulation.rs:252-284 | a step that moves phi that way, iterated, keeps phi between its start and 0.001 |
| Simulation.SubstepsPhi | src/simulation.rs:249-284 | any number of substeps keep phi between its start and 0.001, and fixed with the beam off |
| Simulation.StepsPhi | src/simulation.rs:238-288 | any number of time steps keep phi between its start and 0.001, and fixed with the beam off |
| Simulation.StepsUntilCounts | src/simulation.rs:315-316 | a run_until from t0 takes a k-th step exactly when t0 + k < t_final |
| Simulation.StepsUntilExact | src/simulation.rs:203-206 | run_for(d) with whole d takes exactly d steps |
| Simulation.RunForWhole | src/simulation.rs:203-206 | consuming run_for(d) with whole d is exactly d time steps |
| Simulation.RunForEffect | src/simulation.rs:203-206 | consuming run_for(d) with whole d moves t to t0 + d, takes 2d draws and keeps the inputs |
| Controller.MidpointRateSlope | src/controller.rs:61-65 | the midpoint rate ((pn3+pn2)/2 - (pn2+pn1)/2) / ((t3+t2)/2 - (t2+t1)/2) equals (pn3 - pn1) / (t3 - t1), and 0 when t3 = t1 |
| Controller.AdjustReverses | src/controller.rs:67-75 | the direction flips exactly when rate < last_rate; the step then becomes max(0.8 step, 0.001), otherwise the state is unchanged; the step shrinks exactly when rate < last_rate and step > 0.001; last_rate is never written |
| Controller.AdjustInBounds | src/controller.rs:67-75 | an update keeps the step in [0.001, 0.03] and never increases it |
| Controller.ClimbsInvariant | src/controller.rs:67-75 | over any run of updates last_rate is constant, the step stays in [0.001, 0.03] and never grows, and the direction has flipped once per rate below last_rate |
| Controller.FromInitial | src/controller.rs:28-35 | from the initial state the comparison is always against 0.0, the step stays in bounds, and the direction is up exactly when an even number of rates were negative |
| Controller.RunForClock | src/controller.rs:55-58 | for _ in run_for(d) with whole d moves t by d and takes 2d draws at the same frequency |
| Controller.ControlStepRecord | src/controller.rs:55-65 | the record is the data point two time units in, its rate is (pn3 - pn1) / 2, and the controller state is the one adjusted by that rate |
| Controller.ControlStepMove | src/controller.rs:78-86 | a control step ends 1 + 1 + 5 = 7 time units later, after 14 draws, at frequency d3.frequency + step if moving up, else - step |
| Controller.Run | src/controller.rs:55 | consuming run_for(d) leaves the state RunTo(t + d) |
| Controller.Sample | src/controller.rs:55-58 | the second and third data points are snapshots after one and two runs of one time unit |
| Controller.MoveAndSettle | src/controller.rs:83-86 | sets the frequency to d3.frequency + step and settles for 5 time units |
| Controller.StdController.constructor | src/controller.rs:28-35 | a controller starts with last_rate 0, direction up, step 0.03 |
| Controller.StdController.Adapt | src/controller.rs:67-75 | the in-place flip, decay and floor clamp are Adjust of the old state |
| Controller.StdController.ControlUntil | src/controller.rs:37-42 | an iterator over this controller with the given final time |
| Controller.StdControlUntil.constructor | src/controller.rs:37-42 | an iterator holds its controller and final time |
| Controller.StdControlUntil.Next | src/controller.rs:48-92 | when time > t_final, None with nothing changed; otherwise the data, simulation state and controller state of ControlStep; the step bounds are preserved |
| Pdp.Target.RunFor | src/pdp.rs:58 | the target takes its next evolution; a non-negative duration does not move time backwards |
| Pdp.Fuzz | src/pdp.rs:61 | the sweep fuzz SWEEP_UNCERTAINTY * (r - 0.5) lies in [-0.02, 0.02) |
| Pdp.SweepsCount | src/pdp.rs:34-37 | n sweeps make exactly n advances and n draws and never move time backwards |
| Pdp.ReadingsAre | src/pdp.rs:57-63 | the i-th reading is the polarization after i + 1 sweeps plus the i-th draw's fuzz |
| Pdp.SumWithinFuzz | src/pdp.rs:34-37 | the fuzzed sum of n readings lies in [raw - 0.02 n, raw + 0.02 n) |
| Pdp.MeanWithinFuzz | src/pdp.rs:34-38 | for n > 0 the averaged pn lies in [m - 0.02, m + 0.02) with m the mean unfuzzed polarization |
| Pdp.ReadingFields | src/pdp.rs:41-43 | every field but pn is the target's data after the last sweep, n advances on, no earlier than before |
| Pdp.Pdp.constructor | src/pdp.rs:27-29 | a PDP over a target with a sweep count |
| Pdp.Pdp.Random | src/pdp.rs:61 | returns the next draw and counts it |
| Pdp.Pdp.Sweep | src/pdp.rs:57-63 | one advance of 64/1000 with step 0.001 and one draw; the result is the new data point with fuzzed pn |
| Pdp.Pdp.TakeData | src/pdp.rs:32-44 | exactly n_sweeps sweeps; the result is the final data point with pn the mean of the fuzzed sweep readings |
| Pdp.Pdp.RunUntilIter | src/pdp.rs:47-49 | an iterator over this PDP with the given final time |
| Pdp.Pdp.RunForIter | src/pdp.rs:51-54 | an iterator whose final time is the target's current time plus the duration |
| Pdp.RunUntil.constructor | src/pdp.rs:47-49 | an iterator holds its PDP and final time |
| Pdp.RunUntil.Next | src/pdp.rs:69-75 | while the target's time < t_final, one take_data; otherwise None and nothing changes |

## Left out

- Floating point. Numbers are reals, so the 1000 additions of 0.001 per time step add up to exactly 1.0, and IEEE rounding is not modelled.
- Infinities and NaN. Division by a quantity that can be zero goes through `Quot`, which yields 0.0. These divisors are t1n, t1e, the midpoint time difference, the PDP's sweep count and the Gaussian scale `sqrt(2 pi) * FIT_S` of the rate fit (non-zero for the true `sqrt`, but `sqrt` is uninterpreted here). The source produces inf/NaN there instead.
- Temperature 0. Here the source computes `-(2.0 / 0.0).tanh() = -tanh(+inf) = -1.0`, a finite pe0. The model's `Pe0` returns -1.0 for that case explicitly. A negative zero temperature, which would give +1.0 in the source, does not exist over the reals.
- Zero sweeps. With `n_sweeps == 0` the source returns NaN, and the model returns 0.0; `Pdp.MeanWithinFuzz` is stated for n > 0.
- NaN in the controller. A NaN rate fails `rate < last_rate` in the source, and the model's 0.0 fails `0.0 < 0.0`, so both take the same branch.
- Transcendental functions. `exp`, `tanh` and `sqrt` are uninterpreted. Nothing is proved about the Gaussian curves or about pe0 beyond their use.
- The transition-rate formula. The integration evaluates it as `Physics.rates`, and the builder sets that to the literal `TransitionRates`. This keeps the Gaussian arithmetic out of the proofs about the clock and the controller.
- Physical accuracy. Stability or convergence of the Euler scheme is not modelled.
- Randomness. `rand::random` becomes an oracle per object: `Simulation.noise` and `Pdp.fuzz`. The source draws from one process-wide generator.
- `src/main.rs` is not part of this model. It holds the command prompt, file output and process exit.
- Iterator laziness and borrowing. `RunUntil`/`StdControlUntil` objects hold a reference; consuming one is `Drain` or `Controller.Run`.
- Builder chaining. The builder methods do not return the builder, since `&mut self` chaining is only syntax.
- The loop body of `time_step` is split into `EulerSubstep`, `EvolvePolarization` and `EvolveEnvironment`. The order of updates is unchanged.
- `next` of the controller is split into `Sample`, `StdController.Adapt` and `MoveAndSettle`. The order of updates is unchanged.
- The simulation API that `pdp.rs` calls (`Data`, a two-argument `run_for`) is not in `src/simulation.rs`. It is abstracted as `Target` with an `Evolution`, and `Data` is taken to have the fields of `SimData`.
- `Controller.RunForClock`, `ControlStepRecord`, `ControlStepMove`: stated for the controller's whole-unit durations 1 and 5, the only ones it uses. `Simulation.RunTo` covers any final time.
- `Simulation.SubstepPhi`, `SubstepsPhi`, `StepsPhi`: the bound on phi assumes a beam current of at most 1e10, which keeps the relaxation weight DT * k_phi within [0, 1].
- `Simulation.Simulation.TakeData` is a function reading the fields. It therefore cannot change state, and two consecutive reads agree; it has no contract of its own.
