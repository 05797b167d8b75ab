/**
 * NVIDIA H100 PCIe (arch/cuda/h100_pcie.py). Besides the base attributes, the device keeps a
 * base and a maximum clock, a warp-scheduler count and an INT8 throughput derived from the
 * fp16 tensor-core throughput.
 *
 * `set_to_spec` sets the clock to 1.755 GHz and then overwrites it with `max_freq`, an attribute
 * that neither `Arch.__init__` nor `set_to_spec` defines: on a fresh object, and so in the
 * constructor, it raises `AttributeError` half-way. `AfterSetToSpec` models that behaviour as
 * written; `AfterSetToSpecCorrected` models the evident intent (the maximum clock is the
 * 1.755 GHz boost clock) and is what the class's constructor uses.
 */
module CudaH100Pcie {
  import opened Wrappers
  import opened BaseArch

  const SpecFreq: real := 1.755 * Giga
  const BaseFreq: real := 1.42 * Giga
  const MicrobenchFreq: real := 1.42 * Giga
  const NcuFreq: real := 1.06 * Giga
  const MicrobenchDdrBandwidth: real := 1864.22 * Giga
  const MicrobenchL2Bandwidth: real := 7598.48 * Giga
  const MicrobenchSmemBandwidth: real := 20720.6 * Giga

  /** The scalars of the specification table (with the clock of its first assignment). */
  const SpecInputs := Inputs(
    smCount := 114, freq := SpecFreq,
    ddrBandwidth := 2039.0 * Giga, ddrCapacity := 80 * GiB,
    l2Bandwidth := 7598.47 * Giga, l2Capacity := 50 * MiB, l2Partitions := 2,
    smSubPartitions := 4, l1SmemThroughputPerCycle := 128,
    configurableSmemCapacity := 228 * KiB, registerCapacityPerSm := 256 * KiB)

  const Fp16TensorCore := NewComputeUnit(instances := 4, shape := Some([8, 4, 16]), opsPerElement := 2)
  const Fp8TensorCore := NewComputeUnit(instances := 4, shape := Some([8, 4, 16]), opsPerElement := 2)
  const Fp32CudaCore := NewComputeUnit(instances := 128, shape := Some([]), opsPerElement := 2)
  const Int32CudaCore := NewComputeUnit(instances := 64, shape := Some([]), opsPerElement := 2)
  const Fp16CudaCore := NewComputeUnit(instances := 128, shape := Some([]), opsPerElement := 2)
  const Fp64CudaCore := NewComputeUnit(instances := 64, shape := Some([]), opsPerElement := 2)
  const Sfu := NewComputeUnit(instances := 16, shape := Some([]), opsPerElement := 2)

  /** The attributes of an `H100_PCIE` object; `None` is an attribute not defined yet. */
  datatype PcieState = PcieState(
    arch: ArchState,
    baseFreq: Option<real>,
    maxFreq: Option<real>,
    warpSchedulersPerSm: Option<int>,
    int8Flops: Option<real>)

  /** What `set_to_spec` leaves behind, and the exception it raised, if any. */
  datatype SpecOutcome = SpecOutcome(state: PcieState, raised: Option<Error>)

  /** The object after `Arch.__init__`, before the subclass configures anything. */
  function FreshPcie(): PcieState {
    PcieState(Fresh(), None, None, None, None)
  }

  /** `set_to_spec` up to its read of `max_freq`: the specification scalars, three slots and
      five derived fields reset, the caps at 0.9, the base clock at 1.42 GHz. */
  function SpecPrefix(p: PcieState): PcieState {
    p.(
      arch := p.arch.(
        core := Some("H100_PCIE"),
        inputs := SpecInputs,
        slots := p.arch.slots.(fp16TensorCoreUnit := None, fp32CudaCoreUnit := None, sfuUnit := None),
        derived := p.arch.derived.(
          fp16TensorFlops := 0.0, fp32CudaCoreFlops := 0.0, sfuFlops := 0.0,
          smemBandwidth := 0.0, registerBandwidth := 0.0),
        caps := UniformCaps(0.9)),
      baseFreq := Some(BaseFreq),
      warpSchedulersPerSm := Some(4))
  }

  /** The rest of `set_to_spec` once the clock `f` is known: seven slots, the caps, the metrics
      and the INT8 throughput. */
  function SpecFinish(q: PcieState, f: real): PcieState {
    var configured := q.arch.(
      inputs := q.arch.inputs.(freq := f),
      slots := q.arch.slots.(
        fp16TensorCoreUnit := Some(Fp16TensorCore),
        fp8TensorCoreUnit := Some(Fp8TensorCore),
        fp32CudaCoreUnit := Some(Fp32CudaCore),
        int32CudaCoreUnit := Some(Int32CudaCore),
        fp16CudaCoreUnit := Some(Fp16CudaCore),
        fp64CudaCoreUnit := Some(Fp64CudaCore),
        sfuUnit := Some(Sfu)),
      caps := UniformCaps(0.9));
    ComputeMetricsIdempotent(configured);
    var computed := AfterComputeMetrics(configured);
    q.(arch := computed, int8Flops := Some(computed.derived.fp16TensorFlops * 2.0))
  }

  /** `set_to_spec` as written. It raises exactly when `max_freq` is undefined, leaving the
      object half-configured; otherwise the clock ends at the prior `max_freq` (not at the
      table's 1.755 GHz), the metrics are consistent and INT8 is twice the fp16 tensor figure. */
  function AfterSetToSpec(p: PcieState): (r: SpecOutcome)
    ensures r.raised.Some? <==> p.maxFreq.None?
    ensures r.raised.Some? ==> r.raised.value == AttributeError("max_freq")
    ensures r.state.arch.core == Some("H100_PCIE") && r.state.arch.caps == UniformCaps(0.9)
    ensures r.state.baseFreq == Some(BaseFreq) && r.state.maxFreq == p.maxFreq
    ensures r.state.warpSchedulersPerSm == Some(4)
    ensures r.state.arch.slots.fp4TensorCoreUnit == p.arch.slots.fp4TensorCoreUnit
    ensures r.raised.Some? ==>
      r.state.arch.inputs == SpecInputs && r.state.int8Flops == p.int8Flops &&
      r.state.arch.slots.fp16TensorCoreUnit.None? && r.state.arch.slots.fp32CudaCoreUnit.None? &&
      r.state.arch.slots.sfuUnit.None? &&
      r.state.arch.derived.fp16TensorFlops == 0.0 && r.state.arch.derived.smemBandwidth == 0.0
    ensures r.raised.None? ==>
      r.state.arch.inputs == SpecInputs.(freq := p.maxFreq.value) && Consistent(r.state.arch) &&
      r.state.int8Flops == Some(2.0 * r.state.arch.derived.fp16TensorFlops)
  {
    var q := SpecPrefix(p);
    if p.maxFreq.None? then SpecOutcome(q, Some(AttributeError("max_freq")))
    else SpecOutcome(SpecFinish(q, p.maxFreq.value), None)
  }

  /** `set_to_spec` as evidently intended: the maximum clock is defined as the 1.755 GHz boost
      clock before it is read. It never fails, and whatever mode it is called from it brings
      the clock back to 1.755 GHz. */
  function AfterSetToSpecCorrected(p: PcieState): (r: PcieState)
    ensures r.arch.core == Some("H100_PCIE") && r.arch.caps == UniformCaps(0.9)
    ensures r.arch.inputs == SpecInputs && Consistent(r.arch)
    ensures r.baseFreq == Some(BaseFreq) && r.maxFreq == Some(SpecFreq)
    ensures r.warpSchedulersPerSm == Some(4)
    ensures r.int8Flops == Some(2.0 * r.arch.derived.fp16TensorFlops)
    ensures r.arch.slots.fp4TensorCoreUnit == p.arch.slots.fp4TensorCoreUnit
  {
    SpecFinish(SpecPrefix(p).(maxFreq := Some(SpecFreq)), SpecFreq)
  }

  /** `set_to_microbench`: the clocks drop to 1.42 GHz, the caps rise to 1.0 and the DRAM, L2
      and shared-memory bandwidths take measured values; then the metrics are recomputed and
      INT8 re-derived. */
  function AfterSetToMicrobench(p: PcieState): (r: PcieState)
    ensures r.arch.core == p.arch.core && r.arch.slots == p.arch.slots
    ensures r.arch.caps == UniformCaps(1.0)
    ensures r.arch.inputs == p.arch.inputs.(freq := MicrobenchFreq,
      ddrBandwidth := MicrobenchDdrBandwidth, l2Bandwidth := MicrobenchL2Bandwidth)
    ensures r.baseFreq == Some(MicrobenchFreq) && r.maxFreq == Some(MicrobenchFreq)
    ensures r.warpSchedulersPerSm == p.warpSchedulersPerSm
    ensures Consistent(r.arch) && r.int8Flops == Some(2.0 * r.arch.derived.fp16TensorFlops)
  {
    var configured := p.arch.(
      inputs := p.arch.inputs.(freq := MicrobenchFreq,
        ddrBandwidth := MicrobenchDdrBandwidth, l2Bandwidth := MicrobenchL2Bandwidth),
      caps := UniformCaps(1.0),
      derived := p.arch.derived.(smemBandwidth := MicrobenchSmemBandwidth));
    ComputeMetricsIdempotent(configured);
    var computed := AfterComputeMetrics(configured);
    p.(arch := computed, baseFreq := Some(MicrobenchFreq), maxFreq := Some(MicrobenchFreq),
       int8Flops := Some(computed.derived.fp16TensorFlops * 2.0))
  }

  /** `set_to_ncu`: the clocks drop to 1.06 GHz and the caps are reset to 0.9; the bandwidths
      the previous mode set are kept; then the metrics are recomputed and INT8 re-derived. */
  function AfterSetToNcu(p: PcieState): (r: PcieState)
    ensures r.arch.core == p.arch.core && r.arch.slots == p.arch.slots
    ensures r.arch.caps == UniformCaps(0.9)
    ensures r.arch.inputs == p.arch.inputs.(freq := NcuFreq)
    ensures r.baseFreq == Some(NcuFreq) && r.maxFreq == Some(NcuFreq)
    ensures r.warpSchedulersPerSm == p.warpSchedulersPerSm
    ensures Consistent(r.arch) && r.int8Flops == Some(2.0 * r.arch.derived.fp16TensorFlops)
  {
    var configured := p.arch.(inputs := p.arch.inputs.(freq := NcuFreq), caps := UniformCaps(0.9));
    ComputeMetricsIdempotent(configured);
    var computed := AfterComputeMetrics(configured);
    p.(arch := computed, baseFreq := Some(NcuFreq), maxFreq := Some(NcuFreq),
       int8Flops := Some(computed.derived.fp16TensorFlops * 2.0))
  }

  /** `H100_PCIE()` as written raises `AttributeError` on `max_freq`, and the half-configured
      object it abandons has stale metrics: the shared-memory bandwidth is still 0.0. */
  lemma ConstructionRaises()
    ensures AfterSetToSpec(FreshPcie()).raised == Some(AttributeError("max_freq"))
    ensures !Consistent(AfterSetToSpec(FreshPcie()).state.arch)
  {
    var a := AfterSetToSpec(FreshPcie()).state.arch;
    assert SmemBandwidth(a.inputs) > 0.0;
    assert AfterComputeMetrics(a).derived.smemBandwidth != a.derived.smemBandwidth;
  }

  /** Once another mode has defined `max_freq`, `set_to_spec` succeeds but keeps that mode's
      clock: 1.42 GHz after microbench, 1.06 GHz after NCU. */
  lemma SpecKeepsPriorModeClock(p: PcieState)
    ensures var r := AfterSetToSpec(AfterSetToMicrobench(p));
      r.raised.None? && r.state.arch.inputs.freq == MicrobenchFreq
    ensures var r := AfterSetToSpec(AfterSetToNcu(p));
      r.raised.None? && r.state.arch.inputs.freq == NcuFreq
  {
  }

  /** Spec-mode throughputs at clock `f`: fp16 tensor = 4 * 512 * 2 * 114 * f, fp8 tensor the
      same (its unit has the fp16 shape), INT8 twice that, fp4 tensor 0.0, the int32 cores
      64 * 2 * 114 * f (an empty shape counts as 1) and shared memory 114 * f * 128. */
  lemma SpecThroughput(p: PcieState)
    requires p.maxFreq.Some? && p.maxFreq.value > 0.0 && p.arch.slots.fp4TensorCoreUnit.None?
    ensures var r, f := AfterSetToSpec(p).state, p.maxFreq.value;
      r.arch.derived.fp16TensorFlops == 4.0 * 512.0 * 2.0 * 114.0 * f &&
      r.arch.derived.fp8TensorFlops == r.arch.derived.fp16TensorFlops &&
      r.int8Flops == Some(2.0 * 4.0 * 512.0 * 2.0 * 114.0 * f) &&
      r.arch.derived.fp4TensorFlops == 0.0 &&
      r.arch.derived.int32CudaCoreFlops == 64.0 * 2.0 * 114.0 * f &&
      r.arch.derived.smemBandwidth == 114.0 * f * 128.0
  {
  }

  /** The measured shared-memory bandwidth `set_to_microbench` assigns is overwritten by the
      metric pass that follows it: with the specification's SM count and bytes per cycle the
      field ends at 114 * 1.42 GHz * 128 B, which is not the measured 20720.6 GB/s. */
  lemma MicrobenchSmemOverwritten(p: PcieState)
    requires p.arch.inputs.smCount == 114 && p.arch.inputs.l1SmemThroughputPerCycle == 128
    ensures AfterSetToMicrobench(p).arch.derived.smemBandwidth == 114.0 * MicrobenchFreq * 128.0
    ensures AfterSetToMicrobench(p).arch.derived.smemBandwidth != MicrobenchSmemBandwidth
  {
  }

  /** NCU mode after microbench keeps the measured DRAM and L2 bandwidths. */
  lemma NcuKeepsPriorBandwidths(p: PcieState)
    ensures var r := AfterSetToNcu(AfterSetToMicrobench(p));
      r.arch.inputs.ddrBandwidth == MicrobenchDdrBandwidth &&
      r.arch.inputs.l2Bandwidth == MicrobenchL2Bandwidth &&
      r.arch.caps == UniformCaps(0.9)
  {
  }

  /** Calling `set_to_spec` as written twice in a row gives the outcome of calling it once,
      from any state: the second call raises again exactly when the first did, and changes
      nothing more. */
  lemma SpecIdempotent(p: PcieState)
    ensures AfterSetToSpec(AfterSetToSpec(p).state) == AfterSetToSpec(p)
  {
  }

  /** Calling `set_to_microbench` twice in a row leaves the state of calling it once. */
  lemma MicrobenchIdempotent(p: PcieState)
    ensures AfterSetToMicrobench(AfterSetToMicrobench(p)) == AfterSetToMicrobench(p)
  {
  }

  /** Calling `set_to_ncu` twice in a row leaves the state of calling it once. */
  lemma NcuIdempotent(p: PcieState)
    ensures AfterSetToNcu(AfterSetToNcu(p)) == AfterSetToNcu(p)
  {
  }

  /** The corrected `set_to_spec` is the as-written one run on an object whose `max_freq` is
      already the boost clock: the fix only defines the attribute. */
  lemma CorrectedAgreesOnceMaxFreqIsSet(p: PcieState)
    requires p.maxFreq == Some(SpecFreq)
    ensures AfterSetToSpec(p) == SpecOutcome(AfterSetToSpecCorrected(p), None)
  {
    assert SpecPrefix(p).(maxFreq := Some(SpecFreq)) == SpecPrefix(p);
  }

  /** The corrected `set_to_spec` forgets the mode it is called from: only the fp4 slot, which
      it never assigns, can tell two results apart. */
  lemma SpecCorrectedForgetsHistory(p: PcieState, q: PcieState)
    requires p.arch.slots.fp4TensorCoreUnit == q.arch.slots.fp4TensorCoreUnit
    ensures AfterSetToSpecCorrected(p) == AfterSetToSpecCorrected(q)
  {
    var sp, sq := SpecPrefix(p).(maxFreq := Some(SpecFreq)), SpecPrefix(q).(maxFreq := Some(SpecFreq));
    assert sp.arch.inputs == sq.arch.inputs && sp.arch.caps == sq.arch.caps && sp.arch.core == sq.arch.core;
    assert SpecFinish(sp, SpecFreq).arch == SpecFinish(sq, SpecFreq).arch;
  }

  /** Calling the corrected `set_to_spec` twice in a row leaves the state of calling it once. */
  lemma SpecCorrectedIdempotent(p: PcieState)
    ensures AfterSetToSpecCorrected(AfterSetToSpecCorrected(p)) == AfterSetToSpecCorrected(p)
  {
    SpecCorrectedForgetsHistory(AfterSetToSpecCorrected(p), p);
  }

  /** The corrected construction succeeds at 1.755 GHz: fp16 tensor = 4 * 512 * 2 * 114 * 1.755 GHz,
      and switching to NCU and back to spec restores it exactly. */
  lemma SpecCorrectedRunsAtSpecFreq()
    ensures var r := AfterSetToSpecCorrected(FreshPcie());
      r.arch.inputs.freq == SpecFreq &&
      r.arch.derived.fp16TensorFlops == 4.0 * 512.0 * 2.0 * 114.0 * SpecFreq
    ensures AfterSetToSpecCorrected(AfterSetToNcu(AfterSetToSpecCorrected(FreshPcie())))
         == AfterSetToSpecCorrected(FreshPcie())
  {
    SpecCorrectedForgetsHistory(AfterSetToNcu(AfterSetToSpecCorrected(FreshPcie())), FreshPcie());
  }

  /** The device object; the base `Arch` it extends is held in `arch`. */
  class H100Pcie {
    const arch: Arch
    var baseFreq: Option<real>
    var maxFreq: Option<real>
    var warpSchedulersPerSm: Option<int>
    var int8Flops: Option<real>

    /** The object's attributes as a value. */
    function State(): PcieState
      reads this, arch
    {
      PcieState(arch.State(), baseFreq, maxFreq, warpSchedulersPerSm, int8Flops)
    }

    /** The object as `Arch.__init__` leaves it, before `set_to_spec`. */
    constructor InitBase()
      ensures fresh(arch) && State() == FreshPcie()
    {
      arch := new Arch();
      baseFreq, maxFreq, warpSchedulersPerSm, int8Flops := None, None, None, None;
    }

    /** `H100_PCIE()` as written: `Arch.__init__` then `set_to_spec`, which raises; the
        half-configured object is returned beside the exception. */
    static method Construct() returns (p: H100Pcie, raised: Option<Error>)
      ensures fresh(p) && fresh(p.arch)
      ensures raised == Some(AttributeError("max_freq"))
      ensures p.State() == AfterSetToSpec(FreshPcie()).state
    {
      p := new H100Pcie.InitBase();
      raised := p.SetToSpec();
    }

    /** `H100_PCIE()` with the corrected `set_to_spec`. */
    constructor()
      ensures fresh(arch) && State() == AfterSetToSpecCorrected(FreshPcie())
    {
      arch := new Arch();
      baseFreq, maxFreq, warpSchedulersPerSm, int8Flops := None, None, None, None;
      new;
      SetToSpecCorrected();
    }

    /** `H100_PCIE.set_to_spec` as written, statement by statement; on success Python returns
        the object itself. */
    method SetToSpec() returns (raised: Option<Error>)
      modifies this, arch
      ensures State() == AfterSetToSpec(old(State())).state
      ensures raised == AfterSetToSpec(old(State())).raised
    {
      arch.core := Some("H100_PCIE");
      arch.inputs := arch.inputs.(smCount := 114);
      arch.inputs := arch.inputs.(freq := 1.755 * Giga);

      arch.inputs := arch.inputs.(ddrBandwidth := 2039.0 * Giga);
      arch.inputs := arch.inputs.(ddrCapacity := 80 * GiB);
      arch.inputs := arch.inputs.(l2Bandwidth := 7598.47 * Giga);
      arch.inputs := arch.inputs.(l2Capacity := 50 * MiB);
      arch.inputs := arch.inputs.(l2Partitions := 2);

      arch.inputs := arch.inputs.(smSubPartitions := 4);
      arch.inputs := arch.inputs.(l1SmemThroughputPerCycle := 128);
      arch.inputs := arch.inputs.(configurableSmemCapacity := 228 * KiB);
      arch.inputs := arch.inputs.(registerCapacityPerSm := 256 * KiB);
      warpSchedulersPerSm := Some(4);

      arch.slots := arch.slots.(fp16TensorCoreUnit := None);
      arch.slots := arch.slots.(fp32CudaCoreUnit := None);
      arch.slots := arch.slots.(sfuUnit := None);

      arch.derived := arch.derived.(fp16TensorFlops := 0.0);
      arch.derived := arch.derived.(fp32CudaCoreFlops := 0.0);
      arch.derived := arch.derived.(sfuFlops := 0.0);
      arch.derived := arch.derived.(smemBandwidth := 0.0);
      arch.derived := arch.derived.(registerBandwidth := 0.0);

      arch.caps := arch.caps.(ddrMaxUtil := 0.9);
      arch.caps := arch.caps.(l2MaxUtil := 0.9);
      arch.caps := arch.caps.(l1MaxUtil := 0.9);
      arch.caps := arch.caps.(computeMaxUtil := 0.9);

      arch.core := Some("H100_PCIE");
      arch.inputs := arch.inputs.(smCount := 114);
      baseFreq := Some(1.42 * Giga);
      if maxFreq.None? {
        raised := Some(AttributeError("max_freq"));
        return;
      }
      raised := None;
      Configure(maxFreq.value);
    }

    /** `H100_PCIE.set_to_spec` with `max_freq` defined as the boost clock before it is read. */
    method SetToSpecCorrected()
      modifies this, arch
      ensures State() == AfterSetToSpecCorrected(old(State()))
    {
      arch.core := Some("H100_PCIE");
      arch.inputs := SpecInputs;
      warpSchedulersPerSm := Some(4);
      arch.slots := arch.slots.(fp16TensorCoreUnit := None, fp32CudaCoreUnit := None, sfuUnit := None);
      arch.derived := arch.derived.(
        fp16TensorFlops := 0.0, fp32CudaCoreFlops := 0.0, sfuFlops := 0.0,
        smemBandwidth := 0.0, registerBandwidth := 0.0);
      arch.caps := UniformCaps(0.9);
      baseFreq := Some(1.42 * Giga);
      maxFreq := Some(1.755 * Giga);
      Configure(maxFreq.value);
    }

    /** The tail `set_to_spec` runs once the clock is known: clock, slots, caps, metrics, INT8. */
    method Configure(f: real)
      modifies this, arch
      ensures State() == SpecFinish(old(State()), f)
    {
      arch.inputs := arch.inputs.(freq := f);

      arch.slots := arch.slots.(fp16TensorCoreUnit := Some(Fp16TensorCore));
      arch.slots := arch.slots.(fp8TensorCoreUnit := Some(Fp8TensorCore));
      arch.slots := arch.slots.(fp32CudaCoreUnit := Some(Fp32CudaCore));
      arch.slots := arch.slots.(int32CudaCoreUnit := Some(Int32CudaCore));
      arch.slots := arch.slots.(fp16CudaCoreUnit := Some(Fp16CudaCore));
      arch.slots := arch.slots.(fp64CudaCoreUnit := Some(Fp64CudaCore));
      arch.slots := arch.slots.(sfuUnit := Some(Sfu));

      arch.caps := arch.caps.(ddrMaxUtil := 0.9);
      arch.caps := arch.caps.(l2MaxUtil := 0.9);
      arch.caps := arch.caps.(l1MaxUtil := 0.9);
      arch.caps := arch.caps.(computeMaxUtil := 0.9);

      var chained := arch.ComputeMetrics();
      int8Flops := Some(arch.derived.fp16TensorFlops * 2.0);
    }

    /** `H100_PCIE.set_to_microbench`; returns the object itself. */
    method SetToMicrobench() returns (r: H100Pcie)
      modifies this, arch
      ensures r == this
      ensures State() == AfterSetToMicrobench(old(State()))
    {
      baseFreq := Some(1.42 * Giga);
      maxFreq := Some(1.42 * Giga);
      arch.inputs := arch.inputs.(freq := 1.42 * Giga);

      arch.caps := arch.caps.(ddrMaxUtil := 1.0);
      arch.caps := arch.caps.(l2MaxUtil := 1.0);
      arch.caps := arch.caps.(l1MaxUtil := 1.0);
      arch.caps := arch.caps.(computeMaxUtil := 1.0);

      arch.inputs := arch.inputs.(ddrBandwidth := 1864.22 * Giga);
      arch.inputs := arch.inputs.(l2Bandwidth := 7598.48 * Giga);
      arch.derived := arch.derived.(smemBandwidth := 20720.6 * Giga);

      var chained := arch.ComputeMetrics();
      int8Flops := Some(arch.derived.fp16TensorFlops * 2.0);
      r := this;
    }

    /** `H100_PCIE.set_to_ncu`; returns the object itself. */
    method SetToNcu() returns (r: H100Pcie)
      modifies this, arch
      ensures r == this
      ensures State() == AfterSetToNcu(old(State()))
    {
      baseFreq := Some(1.06 * Giga);
      maxFreq := Some(1.06 * Giga);
      arch.inputs := arch.inputs.(freq := 1.06 * Giga);

      arch.caps := arch.caps.(ddrMaxUtil := 0.9);
      arch.caps := arch.caps.(l2MaxUtil := 0.9);
      arch.caps := arch.caps.(l1MaxUtil := 0.9);
      arch.caps := arch.caps.(computeMaxUtil := 0.9);

      var chained := arch.ComputeMetrics();
      int8Flops := Some(arch.derived.fp16TensorFlops * 2.0);
      r := this;
    }
  }
}
