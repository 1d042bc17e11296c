/**
 * The polarized-target simulation: a fixed-step Euler integrator of the
 * coupled nuclear/electron polarization equations, with dose-dependent
 * transition rates and a noisy polarization reading.
 *
 * Numbers are reals. The transcendental functions are supplied as a value of
 * `Transcendentals` and the random source as a stream of draws in [0, 1).
 * The integration sees the physics through a `Physics` value: tanh and the
 * transition-rate curve, which the builder sets to the Gaussian fit.
 * The state the source keeps in the fields of `Simulation` is given
 * abstractly by `SimState`; every operation on the class is specified by a
 * function on `SimState`, and the lemmas below are about those functions.
 */
module Simulation {
  import opened Base

  /** Elementary charge (in C). */
  const ELEM_CHARGE: real := 1.602176662e-19

  /** Parameters of the alpha/beta versus frequency fit. */
  const FIT_A: real := 0.545266
  const FIT_S: real := 0.088415

  /** Centres of the beta (m1) and alpha (m2) curves and their drift with dose. */
  const FIT_M1_BASE: real := 140.286
  const FIT_M1_COEFF: real := 0.045
  const FIT_M1_RATE: real := -0.38e-15
  const FIT_M2_BASE: real := 140.468
  const FIT_M2_COEFF: real := -0.065
  const FIT_M2_RATE: real := -3.8e-15

  /** The value of `std::f64::consts::PI`. */
  const PI: real := 3.141592653589793

  /** Length of one outer time step and the number of Euler substeps in it. */
  const TIME_STEP: real := 1.0
  const N_ITER: nat := 1000
  /** Length of one Euler substep (`time_amt`). */
  const DT: real := TIME_STEP / N_ITER as real

  /** Scales of the multiplicative (thermal) and additive (base) noise. */
  const THERMAL_RANDOMNESS: real := 0.02
  const BASE_RANDOMNESS: real := 0.002

  /** Whenever the beam is on, C grows by IRRADIATION_FACTOR * beam_current per unit time. */
  const IRRADIATION_FACTOR: real := 1e-10

  /** Relaxation rate of the temperature and steady-state value of phi. */
  const K_TEMP: real := 0.01
  const PHI_SS: real := 0.001

  /** The transcendental functions the physics uses, left uninterpreted. */
  datatype Transcendentals = Transcendentals(exp: real -> real, tanh: real -> real, sqrt: real -> real)

  /** An observable data point at one instant (`SimData`). */
  datatype SimData = SimData(time: real, pn: real, pe: real, frequency: real, c: real, temperature: real, dose: real)

  /** Every field of a `Simulation` that its methods change, plus the number of random draws consumed. */
  datatype SimState = SimState(
    t1n: real, t1e: real,
    t: real, freq: real, temperature: real, systemTemperature: real,
    alpha: real, beta: real, c: real, pe0: real, phi: real,
    pnRaw: real, pn: real, pe: real,
    dose: real, beamCurrent: real,
    drawn: nat)

  /**
   * Transition rates (alpha, beta) at a frequency and dose: two Gaussian
   * curves of equal width whose centres drift exponentially with dose;
   * alpha is the second curve, beta the first.
   */
  function TransitionRates(fns: Transcendentals, freq: real, dose: real): (real, real)
  {
    var fitM1 := (FIT_M1_BASE - FIT_M1_COEFF) + FIT_M1_COEFF * fns.exp(FIT_M1_RATE * dose);
    var fitM2 := (FIT_M2_BASE - FIT_M2_COEFF) + FIT_M2_COEFF * fns.exp(FIT_M2_RATE * dose);
    var scale := Quot(FIT_A, fns.sqrt(2.0 * PI) * FIT_S);
    var diff1 := freq - fitM1;
    var diff2 := freq - fitM2;
    var exp1 := fns.exp(-diff1 * diff1 / (2.0 * FIT_S * FIT_S));
    var exp2 := fns.exp(-diff2 * diff2 / (2.0 * FIT_S * FIT_S));
    (scale * exp2, scale * exp1)
  }

  /**
   * What the integration needs from the physics: tanh for the equilibrium
   * electron polarization and the transition-rate curve as a function of
   * frequency and dose.
   */
  datatype Physics = Physics(tanh: real -> real, rates: (real, real) -> (real, real))

  /** The physics of the source: the rate curve is the Gaussian fit TransitionRates. */
  function SourcePhysics(fns: Transcendentals): Physics
  {
    Physics(fns.tanh, (freq, dose) => TransitionRates(fns, freq, dose))
  }

  /**
   * Equilibrium electron polarization at a temperature. At temperature 0 the
   * floating-point quotient 2 / 0 is +infinity, whose tanh is 1.
   */
  function Pe0(phys: Physics, temperature: real): real
  {
    if temperature == 0.0 then -1.0 else -phys.tanh(2.0 / temperature)
  }

  /** The derived quantities are up to date: alpha/beta with frequency and dose, pe0 with temperature. */
  predicate Fresh(phys: Physics, s: SimState)
  {
    (s.alpha, s.beta) == phys.rates(s.freq, s.dose) && s.pe0 == Pe0(phys, s.temperature)
  }

  /** The parameters that integration never changes. */
  predicate SameInputs(s: SimState, r: SimState)
  {
    r.t1n == s.t1n && r.t1e == s.t1e && r.freq == s.freq
    && r.systemTemperature == s.systemTemperature && r.beamCurrent == s.beamCurrent
  }

  function Snapshot(s: SimState): SimData
  {
    SimData(s.t, s.pn, s.pe, s.freq, s.c, s.temperature, s.dose)
  }

  /** Dose added per unit time by a beam current (the current in nA converted to particles). */
  function DoseRate(beamCurrent: real): real
  {
    beamCurrent * 1e-9 / ELEM_CHARGE
  }

  /** State after a change of frequency, with the transition rates recomputed. */
  function WithFreq(phys: Physics, s: SimState, freq: real): SimState
  {
    var rates := phys.rates(freq, s.dose);
    s.(freq := freq, alpha := rates.0, beta := rates.1)
  }

  /** The coefficients of the coupled polarization equations (`a_const` to `d_const`). */
  function ACoeff(t1e: real, t1n: real, c: real, alpha: real, beta: real, phi: real): real
  {
    Quot(-t1e, t1n) - (c / 2.0) * (alpha + beta) - phi
  }

  function BCoeff(c: real, alpha: real, beta: real): real
  {
    (c / 2.0) * (alpha - beta)
  }

  function CCoeff(alpha: real, beta: real): real
  {
    (alpha - beta) / 2.0
  }

  function DCoeff(alpha: real, beta: real): real
  {
    -1.0 - (alpha + beta) / 2.0
  }

  /** The right-hand side of the equation for the nuclear polarization. */
  function PnPrime(aConst: real, bConst: real, pnRaw: real, pe: real, t1e: real): real
  {
    Quot(aConst * pnRaw + bConst * pe, t1e)
  }

  /** The right-hand side of the equation for the electron polarization. */
  function PePrime(cConst: real, dConst: real, pnRaw: real, pe: real, pe0: real, t1e: real): real
  {
    Quot(cConst * pnRaw + dConst * pe + pe0, t1e)
  }

  /** The temperature the system relaxes towards under a beam current. */
  function TempSteadyState(systemTemperature: real, beamCurrent: real): real
  {
    systemTemperature + beamCurrent / 100.0
  }

  /** Rate at which phi grows towards PHI_SS under a beam current. */
  function KPhi(beamCurrent: real): real
  {
    beamCurrent / 1e7
  }

  /** C added per unit time by a beam current. */
  function CRate(beamCurrent: real): real
  {
    IRRADIATION_FACTOR * beamCurrent
  }

  /** A quantity that started at x0 and grew at a constant rate for a given time. */
  function Accrue(x0: real, rate: real, elapsed: real): real
  {
    x0 + rate * elapsed
  }

  /** One explicit Euler substep of a quantity changing at a given rate. */
  function Euler(x: real, rate: real): real
  {
    x + rate * DT
  }

  /** One Euler substep of exponential relaxation of x towards a target. */
  function Relax(x: real, k: real, target: real): real
  {
    x + DT * k * (target - x)
  }

  /** The first half of a substep: Euler updates of the two polarizations. */
  function PolarizationUpdate(s: SimState): SimState
  {
    var aConst := ACoeff(s.t1e, s.t1n, s.c, s.alpha, s.beta, s.phi);
    var bConst := BCoeff(s.c, s.alpha, s.beta);
    var cConst := CCoeff(s.alpha, s.beta);
    var dConst := DCoeff(s.alpha, s.beta);
    s.(pnRaw := Euler(s.pnRaw, PnPrime(aConst, bConst, s.pnRaw, s.pe, s.t1e)),
       pe := Euler(s.pe, PePrime(cConst, dConst, s.pnRaw, s.pe, s.pe0, s.t1e)))
  }

  /**
   * The second half of a substep: temperature and phi relax towards their
   * steady states, C and dose grow with the beam, the rates are recomputed
   * and the clock advances by DT.
   */
  function EnvironmentUpdate(phys: Physics, s: SimState): SimState
  {
    var temperature := Relax(s.temperature, K_TEMP, TempSteadyState(s.systemTemperature, s.beamCurrent));
    var dose := Euler(s.dose, DoseRate(s.beamCurrent));
    var rates := phys.rates(s.freq, dose);
    s.(temperature := temperature,
       pe0 := Pe0(phys, temperature),
       phi := Relax(s.phi, KPhi(s.beamCurrent), PHI_SS),
       c := Euler(s.c, CRate(s.beamCurrent)),
       dose := dose,
       alpha := rates.0,
       beta := rates.1,
       t := s.t + DT)
  }

  /** One Euler substep of length DT: the body of the loop in `time_step`. */
  function Substep(phys: Physics, s: SimState): SimState
  {
    EnvironmentUpdate(phys, PolarizationUpdate(s))
  }

  /** n applications of a step function f. */
  function Iterate(f: SimState -> SimState, s: SimState, n: nat): SimState
  {
    if n == 0 then s else f(Iterate(f, s, n - 1))
  }

  /** A substep as a function value. */
  function SubstepFn(phys: Physics): SimState -> SimState
  {
    x => Substep(phys, x)
  }

  /** n Euler substeps. */
  function Substeps(phys: Physics, s: SimState, n: nat): SimState
  {
    Iterate(SubstepFn(phys), s, n)
  }

  /** The multiplicative noise fraction of one reading, from one draw. */
  function ThermalNoise(r: Unit): (noise: real)
    ensures -0.01 < noise <= 0.01
  {
    THERMAL_RANDOMNESS * (0.5 - r as real)
  }

  /** The additive noise of one reading, from one draw. */
  function UniformNoise(r: Unit): (noise: real)
    ensures -0.001 < noise <= 0.001
  {
    BASE_RANDOMNESS * (0.5 - r as real)
  }

  /** The noisy polarization reading for a noise-free value and two draws. */
  function NoisyPn(pnRaw: real, r1: Unit, r2: Unit): real
  {
    pnRaw * (1.0 + ThermalNoise(r1)) + UniformNoise(r2)
  }

  /** One full outer time step: N_ITER substeps, then a fresh noisy reading from the next two draws. */
  function Step(phys: Physics, noise: nat -> Unit, s: SimState): SimState
  {
    var r := Substeps(phys, s, N_ITER);
    r.(pn := NoisyPn(r.pnRaw, noise(s.drawn), noise(s.drawn + 1)), drawn := s.drawn + 2)
  }

  /** n full time steps. */
  function Steps(phys: Physics, noise: nat -> Unit, s: SimState, n: nat): SimState
  {
    Iterate(StepFn(phys, noise), s, n)
  }

  /** A time step as a function value. */
  function StepFn(phys: Physics, noise: nat -> Unit): SimState -> SimState
  {
    x => Step(phys, noise, x)
  }

  /** The clock after k time steps from t0. */
  function ClockAfter(t0: real, k: nat): real
  {
    t0 + k as real * TIME_STEP
  }

  /** How many steps a `RunUntil` iterator takes from time t0: it steps while the clock is below tFinal. */
  function StepsUntil(t0: real, tFinal: real): nat
    decreases if t0 < tFinal then (tFinal - t0).Floor + 1 else 0
  {
    if t0 < tFinal then 1 + StepsUntil(t0 + TIME_STEP, tFinal) else 0
  }

  /** N_ITER substeps of length DT make one time step. */
  lemma StepScale()
    ensures N_ITER as real * DT == TIME_STEP
  {
  }

  /**
   * f keeps the parameters, advances the clock by dt, and adds dt's worth of
   * dose and C at the state's beam current.
   */
  ghost predicate Advances(f: SimState -> SimState, dt: real)
  {
    forall x {:trigger f(x)} ::
      && SameInputs(x, f(x))
      && f(x).t == x.t + dt
      && f(x).dose == Accrue(x.dose, DoseRate(x.beamCurrent), dt)
      && f(x).c == Accrue(x.c, CRate(x.beamCurrent), dt)
  }

  /**
   * Iterating such an f n times advances the clock n times as far, and dose
   * and C grow in proportion to the time elapsed.
   */
  lemma {:induction false} IterateAdvances(f: SimState -> SimState, dt: real, s: SimState, n: nat)
    requires Advances(f, dt)
    ensures var r := Iterate(f, s, n);
      && SameInputs(s, r)
      && r.t == s.t + n as real * dt
      && r.dose == Accrue(s.dose, DoseRate(s.beamCurrent), r.t - s.t)
      && r.c == Accrue(s.c, CRate(s.beamCurrent), r.t - s.t)
  {
    if n > 0 {
      IterateAdvances(f, dt, s, n - 1);
    }
  }

  /** Iterating a step that takes k draws n times takes k * n draws. */
  lemma {:induction false} IterateDraws(f: SimState -> SimState, k: nat, s: SimState, n: nat)
    requires forall x {:trigger f(x)} :: f(x).drawn == x.drawn + k
    ensures Iterate(f, s, n).drawn == s.drawn + k * n
  {
    if n > 0 {
      IterateDraws(f, k, s, n - 1);
      assert k * n == k * (n - 1) + k;
    }
  }

  /**
   * One substep keeps the parameters, advances the clock by DT, adds DT's
   * worth of dose and C, leaves the reading and the draws alone, and leaves
   * the derived rates up to date.
   */
  lemma SubstepEffect(phys: Physics, s: SimState)
    ensures var r := Substep(phys, s);
      && SameInputs(s, r)
      && r.t == s.t + DT
      && r.dose == Accrue(s.dose, DoseRate(s.beamCurrent), DT)
      && r.c == Accrue(s.c, CRate(s.beamCurrent), DT)
      && r.pn == s.pn && r.drawn == s.drawn
      && Fresh(phys, r)
  {
  }

  /** The substep function advances in the sense of Advances, takes no draws, and leaves the rates up to date. */
  lemma SubstepAdvances(phys: Physics)
    ensures Advances(SubstepFn(phys), DT)
    ensures forall x {:trigger SubstepFn(phys)(x)} ::
      SubstepFn(phys)(x).drawn == x.drawn && Fresh(phys, SubstepFn(phys)(x))
  {
    forall x {:trigger SubstepFn(phys)(x)}
      ensures SameInputs(x, SubstepFn(phys)(x)) && SubstepFn(phys)(x).t == x.t + DT
      ensures SubstepFn(phys)(x).dose == Accrue(x.dose, DoseRate(x.beamCurrent), DT)
      ensures SubstepFn(phys)(x).c == Accrue(x.c, CRate(x.beamCurrent), DT)
      ensures SubstepFn(phys)(x).drawn == x.drawn && Fresh(phys, SubstepFn(phys)(x))
    {
      SubstepEffect(phys, x);
    }
  }

  /**
   * n substeps: the clock advances by n * DT and dose and C grow in
   * proportion to the time elapsed; the rates are up to date after the first.
   */
  lemma SubstepsEffect(phys: Physics, s: SimState, n: nat)
    ensures var r := Substeps(phys, s, n);
      && SameInputs(s, r)
      && r.t == s.t + n as real * DT
      && r.dose == Accrue(s.dose, DoseRate(s.beamCurrent), r.t - s.t)
      && r.c == Accrue(s.c, CRate(s.beamCurrent), r.t - s.t)
      && r.drawn == s.drawn
      && (n > 0 || Fresh(phys, s) ==> Fresh(phys, r))
  {
    var f := SubstepFn(phys);
    SubstepAdvances(phys);
    IterateAdvances(f, DT, s, n);
    IterateDraws(f, 0, s, n);
  }

  /** The step function advances in the sense of Advances, takes two draws, and leaves the rates up to date. */
  lemma StepAdvances(phys: Physics, noise: nat -> Unit)
    ensures Advances(StepFn(phys, noise), TIME_STEP)
    ensures forall x {:trigger StepFn(phys, noise)(x)} ::
      StepFn(phys, noise)(x).drawn == x.drawn + 2 && Fresh(phys, StepFn(phys, noise)(x))
  {
    forall x {:trigger StepFn(phys, noise)(x)}
      ensures SameInputs(x, StepFn(phys, noise)(x)) && StepFn(phys, noise)(x).t == x.t + TIME_STEP
      ensures StepFn(phys, noise)(x).dose == Accrue(x.dose, DoseRate(x.beamCurrent), TIME_STEP)
      ensures StepFn(phys, noise)(x).c == Accrue(x.c, CRate(x.beamCurrent), TIME_STEP)
      ensures StepFn(phys, noise)(x).drawn == x.drawn + 2 && Fresh(phys, StepFn(phys, noise)(x))
    {
      StepEffect(phys, noise, x);
    }
  }

  /**
   * One time step advances the clock by exactly TIME_STEP, adds TIME_STEP's
   * worth of dose and C, consumes two draws, and leaves every derived rate up
   * to date whatever it was before.
   */
  lemma StepEffect(phys: Physics, noise: nat -> Unit, s: SimState)
    ensures var r := Step(phys, noise, s);
      && SameInputs(s, r)
      && r.t == s.t + TIME_STEP
      && r.dose == Accrue(s.dose, DoseRate(s.beamCurrent), TIME_STEP)
      && r.c == Accrue(s.c, CRate(s.beamCurrent), TIME_STEP)
      && r.drawn == s.drawn + 2
      && Fresh(phys, r)
  {
    var r := Substeps(phys, s, N_ITER);
    SubstepsEffect(phys, s, N_ITER);
    StepScale();
    assert r.t - s.t == TIME_STEP;
  }

  /**
   * n time steps advance the clock by n * TIME_STEP, dose and C in proportion
   * to the time elapsed, and consume 2 * n draws.
   */
  lemma StepsEffect(phys: Physics, noise: nat -> Unit, s: SimState, n: nat)
    ensures var r := Steps(phys, noise, s, n);
      && SameInputs(s, r)
      && r.t == ClockAfter(s.t, n)
      && r.dose == Accrue(s.dose, DoseRate(s.beamCurrent), r.t - s.t)
      && r.c == Accrue(s.c, CRate(s.beamCurrent), r.t - s.t)
      && r.drawn == s.drawn + 2 * n
      && (n > 0 || Fresh(phys, s) ==> Fresh(phys, r))
  {
    var f := StepFn(phys, noise);
    StepAdvances(phys, noise);
    IterateAdvances(f, TIME_STEP, s, n);
    IterateDraws(f, 2, s, n);
  }

  /**
   * With a non-negative beam current dose and C never decrease; with the beam
   * off they do not change.
   */
  lemma AccumulatorsMonotone(phys: Physics, noise: nat -> Unit, s: SimState, n: nat)
    ensures var r := Steps(phys, noise, s, n);
      && (s.beamCurrent >= 0.0 ==> r.dose >= s.dose && r.c >= s.c)
      && (s.beamCurrent == 0.0 ==> r.dose == s.dose && r.c == s.c)
  {
    StepsEffect(phys, noise, s, n);
    var r := Steps(phys, noise, s, n);
    NonNegProduct(n as real, TIME_STEP);
    NonNegProduct(DoseRate(s.beamCurrent), r.t - s.t);
    NonNegProduct(CRate(s.beamCurrent), r.t - s.t);
  }

  lemma NonNegProduct(x: real, y: real)
    ensures x >= 0.0 && y >= 0.0 ==> x * y >= 0.0
    ensures y == 0.0 ==> x * y == 0.0
  {
  }

  /**
   * A relaxation substep whose weight DT * k lies in [0, 1] moves x towards
   * the target without overshooting it; with k == 0 it leaves x alone.
   */
  lemma RelaxBounds(x: real, k: real, target: real)
    ensures 0.0 <= DT * k <= 1.0 && x <= target ==> x <= Relax(x, k, target) <= target
    ensures 0.0 <= DT * k <= 1.0 && target <= x ==> target <= Relax(x, k, target) <= x
    ensures k == 0.0 ==> Relax(x, k, target) == x
  {
    var w := DT * k;
    assert Relax(x, k, target) == x + w * (target - x);
    if 0.0 <= w <= 1.0 {
      NonNegProduct(w, target - x);
      NonNegProduct(1.0 - w, target - x);
      NonNegProduct(w, x - target);
      NonNegProduct(1.0 - w, x - target);
    }
  }

  /**
   * One substep with a beam current of at most 1e10 moves phi towards its
   * steady state PHI_SS without overshooting it; with the beam off phi is unchanged.
   */
  lemma SubstepPhi(phys: Physics, s: SimState)
    ensures var r := Substep(phys, s);
      && r.beamCurrent == s.beamCurrent
      && (0.0 <= s.beamCurrent <= 1e10 && 0.0 <= s.phi <= PHI_SS ==> s.phi <= r.phi <= PHI_SS)
      && (s.beamCurrent == 0.0 ==> r.phi == s.phi)
  {
    RelaxBounds(s.phi, KPhi(s.beamCurrent), PHI_SS);
  }

  /**
   * f keeps the beam current, moves phi towards PHI_SS without overshooting
   * it while the beam is on and at most 1e10, and leaves phi alone while the
   * beam is off.
   */
  ghost predicate PhiApproaches(f: SimState -> SimState)
  {
    forall x {:trigger f(x)} ::
      && f(x).beamCurrent == x.beamCurrent
      && (0.0 <= x.beamCurrent <= 1e10 && 0.0 <= x.phi <= PHI_SS ==> x.phi <= f(x).phi <= PHI_SS)
      && (x.beamCurrent == 0.0 ==> f(x).phi == x.phi)
  }

  /** Iterating such an f keeps phi between its start and PHI_SS, and fixed with the beam off. */
  lemma {:induction false} IteratePhi(f: SimState -> SimState, s: SimState, n: nat)
    requires PhiApproaches(f)
    ensures var r := Iterate(f, s, n);
      && r.beamCurrent == s.beamCurrent
      && (0.0 <= s.beamCurrent <= 1e10 && 0.0 <= s.phi <= PHI_SS ==> s.phi <= r.phi <= PHI_SS)
      && (s.beamCurrent == 0.0 ==> r.phi == s.phi)
  {
    if n > 0 {
      IteratePhi(f, s, n - 1);
    }
  }

  /** Across any number of substeps phi stays in [0, PHI_SS] and never decreases while the beam is on. */
  lemma SubstepsPhi(phys: Physics, s: SimState, n: nat)
    ensures var r := Substeps(phys, s, n);
      && (0.0 <= s.beamCurrent <= 1e10 && 0.0 <= s.phi <= PHI_SS ==> s.phi <= r.phi <= PHI_SS)
      && (s.beamCurrent == 0.0 ==> r.phi == s.phi)
  {
    var f := SubstepFn(phys);
    forall x {:trigger f(x)}
      ensures f(x).beamCurrent == x.beamCurrent
      ensures 0.0 <= x.beamCurrent <= 1e10 && 0.0 <= x.phi <= PHI_SS ==> x.phi <= f(x).phi <= PHI_SS
      ensures x.beamCurrent == 0.0 ==> f(x).phi == x.phi
    {
      SubstepPhi(phys, x);
    }
    IteratePhi(f, s, n);
  }

  /** Across any number of time steps phi stays in [0, PHI_SS] and never decreases while the beam is on. */
  lemma StepsPhi(phys: Physics, noise: nat -> Unit, s: SimState, n: nat)
    ensures var r := Steps(phys, noise, s, n);
      && (0.0 <= s.beamCurrent <= 1e10 && 0.0 <= s.phi <= PHI_SS ==> s.phi <= r.phi <= PHI_SS)
      && (s.beamCurrent == 0.0 ==> r.phi == s.phi)
  {
    var f := StepFn(phys, noise);
    forall x {:trigger f(x)}
      ensures f(x).beamCurrent == x.beamCurrent
      ensures 0.0 <= x.beamCurrent <= 1e10 && 0.0 <= x.phi <= PHI_SS ==> x.phi <= f(x).phi <= PHI_SS
      ensures x.beamCurrent == 0.0 ==> f(x).phi == x.phi
    {
      SubstepsPhi(phys, x, N_ITER);
      SubstepsEffect(phys, x, N_ITER);
    }
    IteratePhi(f, s, n);
  }

  /** A `RunUntil` from t0 takes a k-th step exactly when t0 + k is still below tFinal. */
  lemma {:induction false} StepsUntilCounts(t0: real, tFinal: real, k: nat)
    ensures k < StepsUntil(t0, tFinal) <==> ClockAfter(t0, k) < tFinal
    decreases k
  {
    if k > 0 && t0 < tFinal {
      StepsUntilCounts(t0 + TIME_STEP, tFinal, k - 1);
    }
  }

  /** Running for a whole number d of time units takes exactly d steps. */
  lemma StepsUntilExact(t0: real, d: nat)
    ensures StepsUntil(t0, ClockAfter(t0, d)) == d
  {
    var n := StepsUntil(t0, ClockAfter(t0, d));
    StepsUntilCounts(t0, ClockAfter(t0, d), n);
    StepsUntilCounts(t0, ClockAfter(t0, d), d);
  }

  /** The state after consuming a `RunUntil` iterator from s towards tFinal. */
  function RunTo(phys: Physics, noise: nat -> Unit, s: SimState, tFinal: real): SimState
  {
    Steps(phys, noise, s, StepsUntil(s.t, tFinal))
  }

  /** Running for a whole number d of time units is exactly d time steps. */
  lemma RunForWhole(phys: Physics, noise: nat -> Unit, s: SimState, d: nat)
    ensures RunTo(phys, noise, s, s.t + d as real) == Steps(phys, noise, s, d)
  {
    StepsUntilExact(s.t, d);
  }

  /**
   * Running for a whole number d of time units moves the clock on by exactly
   * d, consumes 2 * d draws, keeps the inputs, and leaves the rates up to date.
   */
  lemma RunForEffect(phys: Physics, noise: nat -> Unit, s: SimState, d: nat)
    ensures var r := RunTo(phys, noise, s, s.t + d as real);
      && SameInputs(s, r)
      && r.t == s.t + d as real
      && r.drawn == s.drawn + 2 * d
      && (d > 0 || Fresh(phys, s) ==> Fresh(phys, r))
  {
    RunForWhole(phys, noise, s, d);
    StepsEffect(phys, noise, s, d);
  }

  /** Configuration of a simulation before it is built (`SimBuilder`). */
  class SimBuilder {
    var freq: real
    var pn: real
    var pe: real
    var c: real
    var temperature: real
    var t1n: real
    var t1e: real

    /** The default configuration at a given frequency. */
    constructor (freq: real)
      ensures this.freq == freq && pn == 0.0 && pe == -1.0 && c == 0.000136073
      ensures temperature == 1.0 && t1n == 25.0 * 60.0 && t1e == 0.03
    {
      this.freq := freq;
      pn := 0.0;
      pe := -1.0;
      c := 0.000136073;
      temperature := 1.0;
      t1n := 25.0 * 60.0;
      t1e := 0.03;
    }

    /** Despite its name, sets the relaxation constants and leaves the polarizations alone. */
    method InitialPol(t1n: real, t1e: real)
      modifies this`t1n, this`t1e
      ensures this.t1n == t1n && this.t1e == t1e
      ensures pn == old(pn) && pe == old(pe)
    {
      this.t1n := t1n;
      this.t1e := t1e;
    }

    method C(c: real)
      modifies this`c
      ensures this.c == c
    {
      this.c := c;
    }

    method Temperature(temperature: real)
      modifies this`temperature
      ensures this.temperature == temperature
    {
      this.temperature := temperature;
    }

    method PhysicalConstants(t1n: real, t1e: real)
      modifies this`t1n, this`t1e
      ensures this.t1n == t1n && this.t1e == t1e
    {
      this.t1n := t1n;
      this.t1e := t1e;
    }

    /**
     * A new simulation at time zero with no dose, no beam and no damage, the
     * configured polarizations as both raw and noisy reading, the configured
     * temperature as the system temperature, and all derived rates computed.
     */
    method Build(fns: Transcendentals, noise: nat -> Unit) returns (sim: Simulation)
      ensures fresh(sim) && sim.phys == SourcePhysics(fns) && sim.noise == noise
      ensures sim.t == 0.0 && sim.dose == 0.0 && sim.beamCurrent == 0.0 && sim.phi == 0.0
      ensures sim.pnRaw == pn && sim.pn == pn && sim.pe == pe && sim.c == c
      ensures sim.freq == freq && sim.temperature == temperature && sim.systemTemperature == temperature
      ensures sim.t1n == t1n && sim.t1e == t1e && sim.drawn == 0
      ensures (sim.alpha, sim.beta) == TransitionRates(fns, freq, 0.0)
      ensures sim.Valid()
    {
      sim := new Simulation(SourcePhysics(fns), noise, t1n, t1e, freq, temperature, c, pn, pe);
      sim.SetFreq(freq);
      sim.SetTemperature(temperature);
      sim.BeamOff();
    }
  }

  /** A simulated polarized target. */
  class Simulation {
    const phys: Physics
    const noise: nat -> Unit

    var t1n: real
    var t1e: real
    var t: real
    var freq: real
    var temperature: real
    var systemTemperature: real
    var alpha: real
    var beta: real
    var c: real
    var pe0: real
    var phi: real
    var pnRaw: real
    var pn: real
    var pe: real
    var dose: real
    var beamCurrent: real
    /** Number of values taken from the random source so far. */
    var drawn: nat

    function State(): SimState
      reads this
    {
      SimState(t1n, t1e, t, freq, temperature, systemTemperature, alpha, beta, c, pe0, phi,
               pnRaw, pn, pe, dose, beamCurrent, drawn)
    }

    /** The derived rates are never stale. */
    ghost predicate Valid()
      reads this
    {
      Fresh(phys, State())
    }

    /** The raw field values the builder starts from, before any rate is computed. */
    constructor (phys: Physics, noise: nat -> Unit, t1n: real, t1e: real, freq: real,
                 temperature: real, c: real, pn: real, pe: real)
      ensures this.phys == phys && this.noise == noise
      ensures State() == SimState(t1n, t1e, 0.0, freq, temperature, temperature, 0.0, 0.0, c, 0.0, 0.0,
                                  pn, pn, pe, 0.0, 0.0, 0)
    {
      this.phys := phys;
      this.noise := noise;
      this.t1n := t1n;
      this.t1e := t1e;
      t := 0.0;
      this.freq := freq;
      this.temperature := temperature;
      systemTemperature := temperature;
      alpha := 0.0;
      beta := 0.0;
      this.c := c;
      pe0 := 0.0;
      phi := 0.0;
      pnRaw := pn;
      this.pn := pn;
      this.pe := pe;
      dose := 0.0;
      beamCurrent := 0.0;
      drawn := 0;
    }

    /** Sets the frequency and recomputes the transition rates at once. */
    method SetFreq(freq: real)
      modifies this`freq, this`alpha, this`beta
      ensures State() == WithFreq(phys, old(State()), freq)
      ensures TakeData() == old(TakeData()).(frequency := freq)
      ensures (alpha, beta) == phys.rates(freq, dose)
      ensures old(Valid()) ==> Valid()
    {
      this.freq := freq;
      CalcTransitionRates();
    }

    method SetSystemTemperature(temperature: real)
      modifies this`systemTemperature
      ensures systemTemperature == temperature
    {
      systemTemperature := temperature;
    }

    method BeamOn(current: real)
      modifies this`beamCurrent
      ensures beamCurrent == current
    {
      beamCurrent := current;
    }

    method BeamOff()
      modifies this`beamCurrent
      ensures beamCurrent == 0.0
    {
      beamCurrent := 0.0;
    }

    /** An iterator that steps this simulation while its clock is below tFinal. */
    method RunUntil(tFinal: real) returns (it: RunUntil)
      ensures fresh(it) && it.sim == this && it.tFinal == tFinal
    {
      it := new RunUntil(this, tFinal);
    }

    /** An iterator that steps this simulation for the given length of time from now. */
    method RunFor(time: real) returns (it: RunUntil)
      ensures fresh(it) && it.sim == this && it.tFinal == t + time
    {
      var t := this.t;
      it := RunUntil(t + time);
    }

    /**
     * Clears the irradiation damage and shortens t1n by a factor 0.8. The
     * iterator it builds is never consumed, so time does not advance and the
     * system temperature ends where it began.
     */
    method Anneal(time: real, temperature: real)
      modifies this
      ensures State() == old(State()).(phi := 0.0, t1n := old(t1n) * 0.8)
    {
      phi := 0.0;
      t1n := t1n * 0.8;
      var tempTmp := systemTemperature;
      SetSystemTemperature(temperature);
      var t := this.t;
      var unused := RunUntil(t + time);
      SetSystemTemperature(tempTmp);
    }

    /** The current data point; reading it changes nothing. */
    function TakeData(): SimData
      reads this
    {
      Snapshot(State())
    }

    method SetTemperature(temperature: real)
      modifies this`pe0, this`temperature
      ensures this.temperature == temperature && pe0 == Pe0(phys, temperature)
    {
      pe0 := if temperature == 0.0 then -1.0 else -phys.tanh(2.0 / temperature);
      this.temperature := temperature;
    }

    /** One full time step of N_ITER Euler substeps followed by a new noisy reading. */
    method TimeStep()
      modifies this
      ensures State() == Step(phys, noise, old(State()))
      ensures t == old(t) + TIME_STEP
      ensures Valid()
    {
      ghost var s0 := State();
      RunSubsteps();
      var noisy := PnNoisy();
      pn := noisy;
      assert State() == Step(phys, noise, s0);
      StepEffect(phys, noise, s0);
    }

    /** The loop of `time_step`: N_ITER Euler substeps with the steady states fixed at its start. */
    method RunSubsteps()
      modifies this`pnRaw, this`pe, this`pe0, this`temperature, this`phi, this`c, this`dose
      modifies this`alpha, this`beta, this`t
      ensures State() == Substeps(phys, old(State()), N_ITER)
    {
      var tempSs := TempSteadyState(systemTemperature, beamCurrent);
      var kPhi := KPhi(beamCurrent);
      ghost var s0 := State();

      for i := 0 to N_ITER
        invariant State() == Substeps(phys, s0, i)
      {
        EulerSubstep(tempSs, kPhi);
      }
    }

    /** The body of the substep loop of `time_step`, with the loop-invariant steady-state values. */
    method EulerSubstep(tempSs: real, kPhi: real)
      requires tempSs == TempSteadyState(systemTemperature, beamCurrent) && kPhi == KPhi(beamCurrent)
      modifies this`pnRaw, this`pe, this`pe0, this`temperature, this`phi, this`c, this`dose
      modifies this`alpha, this`beta, this`t
      ensures State() == Substep(phys, old(State()))
    {
      EvolvePolarization();
      EvolveEnvironment(tempSs, kPhi);
    }

    /** Euler updates of pn_raw and pe from the coupled equations. */
    method EvolvePolarization()
      modifies this`pnRaw, this`pe
      ensures State() == PolarizationUpdate(old(State()))
    {
      var aConst := ACoeff(t1e, t1n, c, alpha, beta, phi);
      var bConst := BCoeff(c, alpha, beta);
      var cConst := CCoeff(alpha, beta);
      var dConst := DCoeff(alpha, beta);
      var pnPrime := PnPrime(aConst, bConst, pnRaw, pe, t1e);
      var pePrime := PePrime(cConst, dConst, pnRaw, pe, pe0, t1e);
      pnRaw := Euler(pnRaw, pnPrime);
      pe := Euler(pe, pePrime);
    }

    /** Updates of temperature, phi, C, dose, the transition rates and the clock. */
    method EvolveEnvironment(tempSs: real, kPhi: real)
      requires tempSs == TempSteadyState(systemTemperature, beamCurrent) && kPhi == KPhi(beamCurrent)
      modifies this`pe0, this`temperature, this`phi, this`c, this`dose, this`alpha, this`beta, this`t
      ensures State() == EnvironmentUpdate(phys, old(State()))
    {
      var temp := temperature;
      SetTemperature(Relax(temp, K_TEMP, tempSs));
      phi := Relax(phi, kPhi, PHI_SS);
      c := Euler(c, CRate(beamCurrent));
      dose := Euler(dose, DoseRate(beamCurrent));
      CalcTransitionRates();
      t := t + DT;
    }

    method CalcTransitionRates()
      modifies this`alpha, this`beta
      ensures (alpha, beta) == phys.rates(freq, dose)
    {
      var rates := phys.rates(freq, dose);
      alpha := rates.0;
      beta := rates.1;
    }

    /** The next value of the random source. */
    method Random() returns (r: Unit)
      modifies this`drawn
      ensures r == noise(old(drawn)) && drawn == old(drawn) + 1
    {
      r := noise(drawn);
      drawn := drawn + 1;
    }

    /** A noisy reading of the raw polarization, from the next two draws. */
    method PnNoisy() returns (p: real)
      modifies this`drawn
      ensures drawn == old(drawn) + 2
      ensures p == NoisyPn(pnRaw, noise(old(drawn)), noise(old(drawn) + 1))
    {
      var r1 := Random();
      var thermalNoise := THERMAL_RANDOMNESS * (0.5 - r1 as real);
      var r2 := Random();
      var uniformNoise := BASE_RANDOMNESS * (0.5 - r2 as real);
      p := pnRaw * (1.0 + thermalNoise) + uniformNoise;
    }
  }

  /** An iterator over the data points of a run: each call to Next takes one time step. */
  class RunUntil {
    const sim: Simulation
    const tFinal: real

    constructor (sim: Simulation, tFinal: real)
      ensures this.sim == sim && this.tFinal == tFinal
    {
      this.sim := sim;
      this.tFinal := tFinal;
    }

    /**
     * While the clock is below tFinal, the data point from before the step,
     * followed by one time step; otherwise None and nothing changes.
     */
    method Next() returns (d: Option<SimData>)
      modifies sim
      ensures old(sim.t) < tFinal ==>
        d == Some(Snapshot(old(sim.State()))) && sim.State() == Step(sim.phys, sim.noise, old(sim.State()))
      ensures old(sim.t) >= tFinal ==> d == None && sim.State() == old(sim.State())
    {
      if sim.t < tFinal {
        var data := sim.TakeData();
        sim.TimeStep();
        d := Some(data);
      } else {
        d := None;
      }
    }

    /**
     * Consumes the iterator (`for _ in sim.run_until(..) {}`): the data
     * points are those at times t0, t0+1, ..., all below tFinal, and the
     * clock ends at or past tFinal.
     */
    method Drain() returns (ds: seq<SimData>)
      modifies sim
      ensures |ds| == StepsUntil(old(sim.t), tFinal)
      ensures sim.State() == Steps(sim.phys, sim.noise, old(sim.State()), |ds|)
      ensures sim.State() == RunTo(sim.phys, sim.noise, old(sim.State()), tFinal)
      ensures forall i :: 0 <= i < |ds| ==> ds[i] == Snapshot(Steps(sim.phys, sim.noise, old(sim.State()), i))
      ensures forall i :: 0 <= i < |ds| ==> ds[i].time == ClockAfter(old(sim.t), i) < tFinal
      ensures sim.t == ClockAfter(old(sim.t), |ds|) >= tFinal
    {
      ghost var s0 := sim.State();
      ghost var n := StepsUntil(s0.t, tFinal);
      ds := [];
      while true
        invariant |ds| <= n
        invariant sim.State() == Steps(sim.phys, sim.noise, s0, |ds|)
        invariant forall i :: 0 <= i < |ds| ==> ds[i] == Snapshot(Steps(sim.phys, sim.noise, s0, i))
        decreases n - |ds|
      {
        StepsUntilCounts(s0.t, tFinal, |ds|);
        StepsEffect(sim.phys, sim.noise, s0, |ds|);
        var d := Next();
        if d.None? {
          break;
        }
        ds := ds + [d.value];
      }
      StepsEffect(sim.phys, sim.noise, s0, |ds|);
      forall i | 0 <= i < |ds|
        ensures ds[i].time == ClockAfter(s0.t, i) < tFinal
      {
        StepsEffect(sim.phys, sim.noise, s0, i);
        StepsUntilCounts(s0.t, tFinal, i);
      }
    }
  }
}
