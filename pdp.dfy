/**
 * The PDP reading: every data point is the mean of a number of sweeps, each
 * of which advances the target by one sweep time and reads its nuclear
 * polarization with a uniform fuzz added.
 *
 * The simulation the PDP drives is seen through `Target`: a snapshot read
 * and an advance by a duration that never moves time backwards. The k-th
 * advance is given by an `Evolution`, so the model holds for every way the
 * underlying simulation may evolve.
 */
module Pdp {
  import opened Base
  import Sim = Simulation

  /** Length of one sweep in milliseconds. */
  const MS_PER_SWEEP: real := 64.0

  /** Fractional error in polarization per sweep. */
  const SWEEP_UNCERTAINTY: real := 0.04

  /** Duration of one sweep in time units, and the integration step a sweep asks for. */
  const SWEEP_TIME: real := MS_PER_SWEEP / 1000.0
  const SWEEP_DT: real := 0.001

  /**
   * How the target evolves on its k-th advance from a data point, given a
   * duration and a step: a non-negative duration never moves time backwards.
   */
  type Evolution = f: (nat, Sim.SimData, real, real) -> Sim.SimData
    | forall k: nat, d: Sim.SimData, time: real, dt: real ::
        0.0 <= time ==> d.time <= f(k, d, time, dt).time
    witness (k: nat, d: Sim.SimData, time: real, dt: real) => d

  /** The simulation as the PDP uses it: a current data point and an advance. */
  class Target {
    const evolve: Evolution
    var current: Sim.SimData
    /** Number of advances so far. */
    var advances: nat

    constructor (evolve: Evolution, current: Sim.SimData)
      ensures this.evolve == evolve && this.current == current && advances == 0
    {
      this.evolve := evolve;
      this.current := current;
      advances := 0;
    }

    function TakeData(): Sim.SimData
      reads this
    {
      current
    }

    /** Advances the target by time, integrating with step dt. */
    method RunFor(time: real, dt: real)
      modifies this
      ensures current == evolve(old(advances), old(current), time, dt)
      ensures advances == old(advances) + 1
      ensures 0.0 <= time ==> old(current).time <= current.time
    {
      current := evolve(advances, current, time, dt);
      advances := advances + 1;
    }
  }

  /** The fuzz added to one sweep's polarization, from one draw r in [0, 1). */
  function Fuzz(r: Unit): (f: real)
    ensures -SWEEP_UNCERTAINTY / 2.0 <= f < SWEEP_UNCERTAINTY / 2.0
  {
    SWEEP_UNCERTAINTY * (r - 0.5)
  }

  /** What a PDP changes: the target's data point and advance count, and the draws it consumed. */
  datatype PdpState = PdpState(data: Sim.SimData, advances: nat, drawn: nat)

  /** The state after one sweep: one advance of one sweep time, and one draw. */
  function SweepState(evolve: Evolution, st: PdpState): PdpState
  {
    PdpState(evolve(st.advances, st.data, SWEEP_TIME, SWEEP_DT), st.advances + 1, st.drawn + 1)
  }

  /** The state after n sweeps. */
  function AfterSweeps(evolve: Evolution, st: PdpState, n: nat): PdpState
  {
    if n == 0 then st else SweepState(evolve, AfterSweeps(evolve, st, n - 1))
  }

  /** The fuzzed polarization one sweep from st reads. */
  function SweepReading(evolve: Evolution, fuzz: nat -> Unit, st: PdpState): real
  {
    SweepState(evolve, st).data.pn + Fuzz(fuzz(st.drawn))
  }

  /** The fuzzed readings of n sweeps from st, in order. */
  function Readings(evolve: Evolution, fuzz: nat -> Unit, st: PdpState, n: nat): (r: seq<real>)
    ensures |r| == n
  {
    if n == 0 then []
    else Readings(evolve, fuzz, st, n - 1) + [SweepReading(evolve, fuzz, AfterSweeps(evolve, st, n - 1))]
  }

  /** The polarizations of the target after each of n sweeps from st, without fuzz. */
  function RawReadings(evolve: Evolution, st: PdpState, n: nat): (r: seq<real>)
    ensures |r| == n
  {
    if n == 0 then [] else RawReadings(evolve, st, n - 1) + [AfterSweeps(evolve, st, n).data.pn]
  }

  /** The data point `take_data` returns: the target's data after the sweeps, with the mean reading as pn. */
  function Reading(evolve: Evolution, fuzz: nat -> Unit, st: PdpState, n: nat): Sim.SimData
  {
    AfterSweeps(evolve, st, n).data.(pn := Mean(Readings(evolve, fuzz, st, n)))
  }

  /**
   * n sweeps make exactly n advances and n draws, and never move the
   * target's time backwards.
   */
  lemma {:induction false} SweepsCount(evolve: Evolution, st: PdpState, n: nat)
    ensures AfterSweeps(evolve, st, n).advances == st.advances + n
    ensures AfterSweeps(evolve, st, n).drawn == st.drawn + n
    ensures st.data.time <= AfterSweeps(evolve, st, n).data.time
  {
    if n > 0 {
      SweepsCount(evolve, st, n - 1);
      var p := AfterSweeps(evolve, st, n - 1);
      assert p.data.time <= evolve(p.advances, p.data, SWEEP_TIME, SWEEP_DT).time;
    }
  }

  /**
   * The i-th reading is the target's polarization after i + 1 sweeps plus
   * the fuzz of the i-th draw.
   */
  lemma {:induction false} ReadingsAre(evolve: Evolution, fuzz: nat -> Unit, st: PdpState, n: nat)
    ensures forall i :: 0 <= i < n ==>
      Readings(evolve, fuzz, st, n)[i] == RawReadings(evolve, st, n)[i] + Fuzz(fuzz(st.drawn + i))
  {
    if n > 0 {
      ReadingsAre(evolve, fuzz, st, n - 1);
      SweepsCount(evolve, st, n - 1);
    }
  }

  /**
   * The fuzz moves a sum of n readings by less than n times half the sweep
   * uncertainty, and by no more downwards.
   */
  lemma {:induction false} SumWithinFuzz(evolve: Evolution, fuzz: nat -> Unit, st: PdpState, n: nat)
    ensures var fuzzed := Sum(Readings(evolve, fuzz, st, n));
      var raw := Sum(RawReadings(evolve, st, n));
      && raw - 0.02 * n as real <= fuzzed
      && (n > 0 ==> fuzzed < raw + 0.02 * n as real)
  {
    if n > 0 {
      SumWithinFuzz(evolve, fuzz, st, n - 1);
      SweepsCount(evolve, st, n - 1);
      var readings := Readings(evolve, fuzz, st, n);
      var raw := RawReadings(evolve, st, n);
      assert readings[..n - 1] == Readings(evolve, fuzz, st, n - 1);
      assert raw[..n - 1] == RawReadings(evolve, st, n - 1);
      var f := Fuzz(fuzz(AfterSweeps(evolve, st, n - 1).drawn));
      assert readings[n - 1] == raw[n - 1] + f;
    }
  }

  /** Dividing bounds of width e * n by n > 0 gives bounds of width e. */
  lemma DivideBounds(raw: real, fuzzed: real, e: real, n: real)
    requires 0.0 < n
    requires raw - e * n <= fuzzed < raw + e * n
    ensures raw / n - e <= fuzzed / n < raw / n + e
  {
    var q := (fuzzed - raw) / n;
    assert fuzzed / n == raw / n + q;
    assert (q + e) * n == fuzzed - raw + e * n;
    assert (e - q) * n == raw + e * n - fuzzed;
  }

  /**
   * For at least one sweep the mean reading lies within half the sweep
   * uncertainty of the mean unfuzzed polarization m: in [m - 0.02, m + 0.02).
   */
  lemma MeanWithinFuzz(evolve: Evolution, fuzz: nat -> Unit, st: PdpState, n: nat)
    requires n > 0
    ensures var m := Mean(RawReadings(evolve, st, n));
      m - 0.02 <= Reading(evolve, fuzz, st, n).pn < m + 0.02
  {
    SumWithinFuzz(evolve, fuzz, st, n);
    DivideBounds(Sum(RawReadings(evolve, st, n)), Sum(Readings(evolve, fuzz, st, n)), 0.02, n as real);
  }

  /**
   * Apart from pn, the reading is the target's data after the last sweep,
   * which is exactly n_sweeps advances on and no earlier than before.
   */
  lemma ReadingFields(evolve: Evolution, fuzz: nat -> Unit, st: PdpState, n: nat)
    ensures var r := Reading(evolve, fuzz, st, n);
      var last := AfterSweeps(evolve, st, n);
      && r.(pn := last.data.pn) == last.data
      && last.advances == st.advances + n
      && st.data.time <= r.time
  {
    SweepsCount(evolve, st, n);
  }

  /** A PDP driving a target, averaging nSweeps sweeps per data point. */
  class Pdp {
    const target: Target
    const nSweeps: U32
    /** The random source: the draws in order. */
    const fuzz: nat -> Unit
    /** Number of draws consumed so far. */
    var drawn: nat

    constructor (target: Target, nSweeps: U32, fuzz: nat -> Unit)
      ensures this.target == target && this.nSweeps == nSweeps && this.fuzz == fuzz && drawn == 0
    {
      this.target := target;
      this.nSweeps := nSweeps;
      this.fuzz := fuzz;
      drawn := 0;
    }

    function State(): PdpState
      reads this, target
    {
      PdpState(target.current, target.advances, drawn)
    }

    /** The next value of the random source. */
    method Random() returns (r: Unit)
      modifies this`drawn
      ensures r == fuzz(old(drawn)) && drawn == old(drawn) + 1
    {
      r := fuzz(drawn);
      drawn := drawn + 1;
    }

    /** Advances the target by one sweep and returns its data with the polarization fuzzed. */
    method Sweep() returns (sweepData: Sim.SimData)
      modifies target, this`drawn
      ensures State() == SweepState(target.evolve, old(State()))
      ensures sweepData == target.current.(pn := SweepReading(target.evolve, fuzz, old(State())))
    {
      target.RunFor(SWEEP_TIME, SWEEP_DT);
      sweepData := target.TakeData();
      var r := Random();
      sweepData := sweepData.(pn := sweepData.pn + SWEEP_UNCERTAINTY * (r as real - 0.5));
    }

    /**
     * A data point from nSweeps sweeps: the target's data after the last
     * sweep, with pn the mean of the fuzzed sweep readings.
     */
    method TakeData() returns (data: Sim.SimData)
      modifies target, this`drawn
      ensures State() == AfterSweeps(target.evolve, old(State()), nSweeps)
      ensures data == Reading(target.evolve, fuzz, old(State()), nSweeps)
    {
      ghost var s0 := State();
      var pn := 0.0;
      for i := 0 to nSweeps
        invariant State() == AfterSweeps(target.evolve, s0, i)
        invariant pn == Sum(Readings(target.evolve, fuzz, s0, i))
      {
        var sweepData := Sweep();
        pn := pn + sweepData.pn;
      }
      pn := Quot(pn, nSweeps as real);

      data := target.TakeData();
      data := data.(pn := pn);
    }

    /** An iterator of data points while the target's time is below tFinal. */
    method RunUntilIter(tFinal: real) returns (it: RunUntil)
      ensures fresh(it) && it.pdp == this && it.tFinal == tFinal
    {
      it := new RunUntil(this, tFinal);
    }

    /** An iterator of data points for the given length of time from the target's current time. */
    method RunForIter(time: real) returns (it: RunUntil)
      ensures fresh(it) && it.pdp == this && it.tFinal == target.current.time + time
    {
      var t := target.TakeData().time;
      it := RunUntilIter(t + time);
    }
  }

  /** An iterator of PDP data points (`RunUntil`). */
  class RunUntil {
    const pdp: Pdp
    const tFinal: real

    constructor (pdp: Pdp, tFinal: real)
      ensures this.pdp == pdp && this.tFinal == tFinal
    {
      this.pdp := pdp;
      this.tFinal := tFinal;
    }

    /** While the target's time is below tFinal, one PDP data point; otherwise None and nothing changes. */
    method Next() returns (d: Option<Sim.SimData>)
      modifies pdp.target, pdp`drawn
      ensures old(pdp.target.current.time) < tFinal ==>
        && d == Some(Reading(pdp.target.evolve, pdp.fuzz, old(pdp.State()), pdp.nSweeps))
        && pdp.State() == AfterSweeps(pdp.target.evolve, old(pdp.State()), pdp.nSweeps)
      ensures old(pdp.target.current.time) >= tFinal ==> d == None && pdp.State() == old(pdp.State())
    {
      if pdp.target.TakeData().time < tFinal {
        var data := pdp.TakeData();
        d := Some(data);
      } else {
        d := None;
      }
    }
  }
}
