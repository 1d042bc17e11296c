/**
 * The standard hill-climbing frequency controller: a perturb-and-observe
 * state machine that measures the polarization growth rate from three data
 * points one time unit apart, reverses direction and shrinks its step when
 * the rate falls below the last rate, moves the microwave frequency one step
 * and lets the target settle.
 */
module Controller {
  import opened Base
  import Sim = Simulation

  /** The initial and smallest step sizes and the factor a step shrinks by on a reversal. */
  const INITIAL_STEP: real := 0.03
  const MIN_STEP: real := 0.001
  const STEP_DECAY: real := 0.8

  /** Time run before each of the second and third data points, and the settling time after a move, in whole time units. */
  const SAMPLE_TIME: nat := 1
  const SETTLE_TIME: nat := 5

  /** One record of the controller: the last data point before the move and the measured rate. */
  datatype ControllerData = ControllerData(simData: Sim.SimData, rate: real)

  /** The controller's own state: last rate, direction (`true` = up) and step size. */
  datatype Climb = Climb(lastRate: real, direction: bool, stepSize: real)

  /** The state a controller starts in. */
  function InitialClimb(): Climb
  {
    Climb(0.0, true, INITIAL_STEP)
  }

  /** The step size stays within [MIN_STEP, INITIAL_STEP]. */
  predicate InBounds(c: Climb)
  {
    MIN_STEP <= c.stepSize <= INITIAL_STEP
  }

  /**
   * The growth rate of pn between the midpoints of the two intervals
   * d1..d2 and d2..d3: the difference of the midpoint polarizations divided
   * by the difference of the midpoint times.
   */
  function MidpointRate(d1: Sim.SimData, d2: Sim.SimData, d3: Sim.SimData): real
  {
    var p1 := (d2.pn + d1.pn) / 2.0;
    var p2 := (d3.pn + d2.pn) / 2.0;
    var e1 := (d2.time + d1.time) / 2.0;
    var e2 := (d3.time + d2.time) / 2.0;
    Quot(p2 - p1, e2 - e1)
  }

  /**
   * The midpoint rate is the plain slope from the first to the third point,
   * over the time span between them (and 0.0 when that span is zero).
   */
  lemma MidpointRateSlope(d1: Sim.SimData, d2: Sim.SimData, d3: Sim.SimData, span: real)
    requires d3.time - d1.time == span
    ensures span != 0.0 ==> MidpointRate(d1, d2, d3) == (d3.pn - d1.pn) / span
    ensures span == 0.0 ==> MidpointRate(d1, d2, d3) == 0.0
  {
    var num := (d3.pn + d2.pn) / 2.0 - (d2.pn + d1.pn) / 2.0;
    var den := (d3.time + d2.time) / 2.0 - (d2.time + d1.time) / 2.0;
    assert num == (d3.pn - d1.pn) / 2.0;
    assert den == span / 2.0;
    if span != 0.0 {
      HalfQuotient(d3.pn - d1.pn, span);
    }
  }

  lemma HalfQuotient(a: real, b: real)
    requires b != 0.0
    ensures (a / 2.0) / (b / 2.0) == a / b
  {
  }

  /** The step size after one reversal: shrunk by STEP_DECAY but not below MIN_STEP. */
  function Decay(stepSize: real): real
  {
    var s := stepSize * STEP_DECAY;
    if s < MIN_STEP then MIN_STEP else s
  }

  /** The direction and step update of one control step, given the measured rate. */
  function Adjust(c: Climb, rate: real): Climb
  {
    if rate < c.lastRate then c.(direction := !c.direction, stepSize := Decay(c.stepSize)) else c
  }

  /** The signed frequency move for a state: up by the step size, or down. */
  function Move(c: Climb): real
  {
    if c.direction then c.stepSize else -c.stepSize
  }

  /**
   * The direction reverses exactly when the rate fell below the last rate,
   * and the step then becomes 0.8 of itself or MIN_STEP, whichever is
   * larger; otherwise the state is unchanged. The last rate is never updated.
   */
  lemma AdjustReverses(c: Climb, rate: real)
    ensures Adjust(c, rate).lastRate == c.lastRate
    ensures Adjust(c, rate).direction != c.direction <==> rate < c.lastRate
    ensures rate < c.lastRate ==> Adjust(c, rate).stepSize == Max(STEP_DECAY * c.stepSize, MIN_STEP)
    ensures !(rate < c.lastRate) ==> Adjust(c, rate) == c
    ensures Adjust(c, rate).stepSize < c.stepSize <==> rate < c.lastRate && c.stepSize > MIN_STEP
  {
  }

  function Max(a: real, b: real): real
  {
    if a < b then b else a
  }

  /** One adjustment keeps the step size in bounds and never increases it. */
  lemma AdjustInBounds(c: Climb, rate: real)
    requires InBounds(c)
    ensures InBounds(Adjust(c, rate))
    ensures Adjust(c, rate).stepSize <= c.stepSize
  {
  }

  /** The controller state after a run of control steps measuring the given rates. */
  function Climbs(c: Climb, rates: seq<real>): Climb
  {
    if rates == [] then c else Adjust(Climbs(c, rates[..|rates| - 1]), rates[|rates| - 1])
  }

  /** How many of the rates are below a threshold. */
  function Drops(rates: seq<real>, threshold: real): nat
  {
    if rates == [] then 0
    else Drops(rates[..|rates| - 1], threshold) + (if rates[|rates| - 1] < threshold then 1 else 0)
  }

  /**
   * Over any run of control steps the last rate stays what it was, the step
   * size stays in bounds and never grows, and the direction has reversed
   * once for every rate that fell below the last rate.
   */
  lemma {:induction false} ClimbsInvariant(c: Climb, rates: seq<real>)
    requires InBounds(c)
    ensures Climbs(c, rates).lastRate == c.lastRate
    ensures InBounds(Climbs(c, rates))
    ensures Climbs(c, rates).stepSize <= c.stepSize
    ensures Climbs(c, rates).direction == (c.direction != (Drops(rates, c.lastRate) % 2 == 1))
  {
    if rates != [] {
      var prefix := rates[..|rates| - 1];
      ClimbsInvariant(c, prefix);
      AdjustInBounds(Climbs(c, prefix), rates[|rates| - 1]);
      AdjustReverses(Climbs(c, prefix), rates[|rates| - 1]);
    }
  }

  /** From the initial state the comparison is always against 0.0: only falling polarization reverses. */
  lemma FromInitial(rates: seq<real>)
    ensures Climbs(InitialClimb(), rates).lastRate == 0.0
    ensures InBounds(Climbs(InitialClimb(), rates))
    ensures Climbs(InitialClimb(), rates).direction == (Drops(rates, 0.0) % 2 == 0)
  {
    ClimbsInvariant(InitialClimb(), rates);
  }

  /** What one call of `next` does to the simulation and the controller, and what it yields. */
  datatype Outcome = Outcome(state: Sim.SimState, climb: Climb, data: ControllerData)

  /** Running the simulation for d whole time units (`for _ in sim.run_for(d) {}`). */
  function RunFor(phys: Sim.Physics, noise: nat -> Unit, s: Sim.SimState, d: nat): Sim.SimState
  {
    Sim.RunTo(phys, noise, s, s.t + d as real)
  }

  /** A run of d whole time units moves the clock on by d and draws 2 * d values, at the same frequency. */
  lemma RunForClock(phys: Sim.Physics, noise: nat -> Unit, s: Sim.SimState, d: nat)
    ensures RunFor(phys, noise, s, d).t == s.t + d as real
    ensures RunFor(phys, noise, s, d).drawn == s.drawn + 2 * d
    ensures RunFor(phys, noise, s, d).freq == s.freq
  {
    Sim.RunForEffect(phys, noise, s, d);
  }

  /**
   * One control step from simulation state s: two runs of one time unit give
   * the second and third data points, the rate is measured, the direction and
   * step are adjusted, the frequency is moved from the third point's
   * frequency, and the target settles for five time units.
   */
  function ControlStep(phys: Sim.Physics, noise: nat -> Unit, s: Sim.SimState, c: Climb): Outcome
  {
    var d1 := Sim.Snapshot(s);
    var s2 := RunFor(phys, noise, s, SAMPLE_TIME);
    var d2 := Sim.Snapshot(s2);
    var s3 := RunFor(phys, noise, s2, SAMPLE_TIME);
    var d3 := Sim.Snapshot(s3);
    var rate := MidpointRate(d1, d2, d3);
    var climb := Adjust(c, rate);
    var s4 := Sim.WithFreq(phys, s3, d3.frequency + Move(climb));
    Outcome(RunFor(phys, noise, s4, SETTLE_TIME), climb, ControllerData(d3, rate))
  }

  /**
   * The record of a control step is the data point two time units in, its
   * rate is the slope of pn over those two units, and the controller state
   * after the step is the one adjusted by that rate.
   */
  lemma ControlStepRecord(phys: Sim.Physics, noise: nat -> Unit, s: Sim.SimState, c: Climb)
    ensures var o := ControlStep(phys, noise, s, c);
      && o.data.simData.time == s.t + 2.0
      && o.data.rate == (o.data.simData.pn - s.pn) / 2.0
      && o.climb == Adjust(c, o.data.rate)
  {
    var s2 := RunFor(phys, noise, s, SAMPLE_TIME);
    RunForClock(phys, noise, s, SAMPLE_TIME);
    var s3 := RunFor(phys, noise, s2, SAMPLE_TIME);
    RunForClock(phys, noise, s2, SAMPLE_TIME);
    MidpointRateSlope(Sim.Snapshot(s), Sim.Snapshot(s2), Sim.Snapshot(s3), 2.0);
  }

  /**
   * A control step takes 1 + 1 + 5 = 7 time steps (so 14 draws) and leaves
   * the simulation at the third data point's frequency moved by one step.
   */
  lemma ControlStepMove(phys: Sim.Physics, noise: nat -> Unit, s: Sim.SimState, c: Climb)
    ensures var o := ControlStep(phys, noise, s, c);
      && o.state.t == s.t + 7.0
      && o.state.drawn == s.drawn + 14
      && o.state.freq == o.data.simData.frequency + Move(o.climb)
  {
    var s2 := RunFor(phys, noise, s, SAMPLE_TIME);
    RunForClock(phys, noise, s, SAMPLE_TIME);
    var s3 := RunFor(phys, noise, s2, SAMPLE_TIME);
    RunForClock(phys, noise, s2, SAMPLE_TIME);
    var climb := ControlStep(phys, noise, s, c).climb;
    RunForClock(phys, noise, Sim.WithFreq(phys, s3, s3.freq + Move(climb)), SETTLE_TIME);
  }

  /**
   * Unfolds ControlStep for StdControlUntil.Next: ControlStep written in terms
   * of the intermediate states, the measured rate and the adjusted state that
   * Next computes along the way.
   */
  lemma ControlStepFrom(phys: Sim.Physics, noise: nat -> Unit, s: Sim.SimState, c: Climb,
                        s2: Sim.SimState, s3: Sim.SimState, rate: real, climb: Climb)
    requires s2 == RunFor(phys, noise, s, SAMPLE_TIME) && s3 == RunFor(phys, noise, s2, SAMPLE_TIME)
    requires rate == MidpointRate(Sim.Snapshot(s), Sim.Snapshot(s2), Sim.Snapshot(s3))
    requires climb == Adjust(c, rate)
    ensures ControlStep(phys, noise, s, c)
         == Outcome(RunFor(phys, noise, Sim.WithFreq(phys, s3, s3.freq + Move(climb)), SETTLE_TIME),
                    climb, ControllerData(Sim.Snapshot(s3), rate))
  {
  }

  /** Consumes a run of d whole time units (`for _ in sim.run_for(d) {}`). */
  method Run(sim: Sim.Simulation, d: nat)
    modifies sim
    ensures sim.State() == RunFor(sim.phys, sim.noise, old(sim.State()), d)
  {
    var run := sim.RunFor(d as real);
    var points := run.Drain();
  }

  /** The second and third data points: each taken after a run of SAMPLE_TIME. */
  method Sample(sim: Sim.Simulation) returns (d2: Sim.SimData, d3: Sim.SimData)
    modifies sim
    ensures var s2 := RunFor(sim.phys, sim.noise, old(sim.State()), SAMPLE_TIME);
      && d2 == Sim.Snapshot(s2)
      && sim.State() == RunFor(sim.phys, sim.noise, s2, SAMPLE_TIME)
      && d3 == Sim.Snapshot(sim.State())
  {
    Run(sim, SAMPLE_TIME);
    d2 := sim.TakeData();
    Run(sim, SAMPLE_TIME);
    d3 := sim.TakeData();
  }

  /** Moves the frequency by a step from the given one and lets the target settle. */
  method MoveAndSettle(sim: Sim.Simulation, freq: real, step: real)
    modifies sim
    ensures sim.State() == RunFor(sim.phys, sim.noise, Sim.WithFreq(sim.phys, old(sim.State()), freq + step), SETTLE_TIME)
  {
    sim.SetFreq(freq + step);
    Run(sim, SETTLE_TIME);
  }

  /** The controller: it owns a simulation and climbs its frequency. */
  class StdController {
    const sim: Sim.Simulation
    var lastRate: real
    var direction: bool
    var stepSize: real

    function Policy(): Climb
      reads this
    {
      Climb(lastRate, direction, stepSize)
    }

    /** A controller starting at zero last rate, moving up, with the largest step. */
    constructor (sim: Sim.Simulation)
      ensures this.sim == sim && Policy() == InitialClimb()
    {
      this.sim := sim;
      lastRate := 0.0;
      direction := true;
      stepSize := INITIAL_STEP;
    }

    /** On a drop of the rate below the last rate, reverses and shrinks the step, not below MIN_STEP. */
    method Adapt(rate: real)
      modifies this`direction, this`stepSize
      ensures Policy() == Adjust(old(Policy()), rate)
    {
      if rate < lastRate {
        direction := !direction;
        stepSize := stepSize * STEP_DECAY;
        if stepSize < MIN_STEP {
          stepSize := MIN_STEP;
        }
      }
    }

    /** An iterator of control steps that runs while the simulation time is at most tFinal. */
    method ControlUntil(tFinal: real) returns (it: StdControlUntil)
      ensures fresh(it) && it.controller == this && it.tFinal == tFinal
    {
      it := new StdControlUntil(this, tFinal);
    }
  }

  /** An iterator of control steps (`StdControlUntil`). */
  class StdControlUntil {
    const controller: StdController
    const tFinal: real

    constructor (controller: StdController, tFinal: real)
      ensures this.controller == controller && this.tFinal == tFinal
    {
      this.controller := controller;
      this.tFinal := tFinal;
    }

    /**
     * Once the simulation time is strictly past tFinal, None with nothing
     * changed; otherwise one control step. The last rate is outside the
     * frame: it is never written.
     */
    method Next() returns (d: Option<ControllerData>)
      modifies controller`direction, controller`stepSize, controller.sim
      ensures old(controller.sim.t) > tFinal ==>
        d == None && controller.sim.State() == old(controller.sim.State()) && controller.Policy() == old(controller.Policy())
      ensures old(controller.sim.t) <= tFinal ==>
        var o := ControlStep(controller.sim.phys, controller.sim.noise, old(controller.sim.State()), old(controller.Policy()));
        d == Some(o.data) && controller.sim.State() == o.state && controller.Policy() == o.climb
      ensures old(InBounds(controller.Policy())) ==> InBounds(controller.Policy())
    {
      var sim := controller.sim;
      ghost var c0 := controller.Policy();
      ghost var s0 := sim.State();
      var d1 := sim.TakeData();
      if d1.time > tFinal {
        return None;
      }
      ghost var s2 := RunFor(sim.phys, sim.noise, s0, SAMPLE_TIME);
      var d2, d3 := Sample(sim);
      ghost var s3 := sim.State();

      var rate := MidpointRate(d1, d2, d3);
      controller.Adapt(rate);
      assert sim.State() == s3;

      var step := if controller.direction then controller.stepSize else -controller.stepSize;
      assert d3.frequency + step == s3.freq + Move(controller.Policy());
      MoveAndSettle(sim, d3.frequency, step);
      assert sim.State() == RunFor(sim.phys, sim.noise, Sim.WithFreq(sim.phys, s3, s3.freq + Move(controller.Policy())), SETTLE_TIME);

      d := Some(ControllerData(d3, rate));
      ControlStepFrom(sim.phys, sim.noise, s0, c0, s2, s3, rate, controller.Policy());
      if InBounds(c0) {
        AdjustInBounds(c0, rate);
      }
    }
  }
}
