/**
 * AMD MI250X (arch/rocm/mi250x.py). Unlike the other devices, its microbenchmark mode writes
 * measured throughputs straight into four derived fields and never recomputes the metrics,
 * so the derived fields it does not write keep the values of the previous clock.
 */
module RocmMi250x {
  import opened Wrappers
  import opened BaseArch

  const SpecFreq: real := 2.1 * Giga
  const MicrobenchFreq: real := 1.36 * Giga
  const NcuFreq: real := 1.06 * Giga
  const MicrobenchDdrBandwidth: real := 1654.81 * Giga
  const MicrobenchL2Bandwidth: real := 3234.77 * Giga
  const MicrobenchSmemBandwidth: real := 19491.0 * Giga
  const MicrobenchVectorFlops: real := 19.017181 * Tera
  const MicrobenchTensorFlops: real := 298.951 * Tera

  /** The scalars `set_to_spec` assigns, all eleven of them. */
  const SpecInputs := Inputs(
    smCount := 110, freq := SpecFreq,
    ddrBandwidth := 1600.0 * Giga, ddrCapacity := 64 * GiB,
    l2Bandwidth := 3200.0 * Giga, l2Capacity := 8 * MiB, l2Partitions := 1,
    smSubPartitions := 4, l1SmemThroughputPerCycle := 128,
    configurableSmemCapacity := 164 * KiB, registerCapacityPerSm := 256 * KiB)

  const Fp16TensorCore := NewComputeUnit(instances := 4, shape := Some([8, 4, 8]), opsPerElement := 2)
  const Fp32CudaCore := NewComputeUnit(instances := 64, shape := Some([1]), opsPerElement := 2)
  const Fp16CudaCore := NewComputeUnit(instances := 64, shape := Some([1]), opsPerElement := 2)
  const Fp64CudaCore := NewComputeUnit(instances := 32, shape := Some([1]), opsPerElement := 2)
  const Sfu := NewComputeUnit(instances := 16, shape := Some([1]), opsPerElement := 2)

  /** `set_to_spec`: every scalar and five slots are overwritten, the caps reset to 0.9 and the
      metrics recomputed. The fp8, fp4 and int32 slots are never assigned. */
  function AfterSetToSpec(s: ArchState): (r: ArchState)
    ensures r.core == Some("MI250X") && r.inputs == SpecInputs && r.caps == UniformCaps(0.9)
    ensures r.slots.fp8TensorCoreUnit == s.slots.fp8TensorCoreUnit
    ensures r.slots.fp4TensorCoreUnit == s.slots.fp4TensorCoreUnit
    ensures r.slots.int32CudaCoreUnit == s.slots.int32CudaCoreUnit
    ensures Consistent(r)
  {
    var configured := s.(
      core := Some("MI250X"),
      inputs := SpecInputs,
      slots := s.slots.(
        fp16TensorCoreUnit := Some(Fp16TensorCore),
        fp32CudaCoreUnit := Some(Fp32CudaCore),
        fp16CudaCoreUnit := Some(Fp16CudaCore),
        fp64CudaCoreUnit := Some(Fp64CudaCore),
        sfuUnit := Some(Sfu)),
      caps := UniformCaps(0.9));
    ComputeMetricsIdempotent(configured);
    AfterComputeMetrics(configured)
  }

  /** `MI250X()`: `Arch.__init__`, then `set_to_spec`. */
  function Constructed(): ArchState {
    AfterSetToSpec(Fresh())
  }

  /** `set_to_microbench`: a lower clock, caps at 1.0, measured DRAM and L2 bandwidths, and four
      measured derived values written directly; no metric is recomputed, so every other derived
      field keeps its prior value. */
  function AfterSetToMicrobench(s: ArchState): (r: ArchState)
    ensures r.core == s.core && r.slots == s.slots && r.caps == UniformCaps(1.0)
    ensures r.inputs == s.inputs.(freq := MicrobenchFreq,
      ddrBandwidth := MicrobenchDdrBandwidth, l2Bandwidth := MicrobenchL2Bandwidth)
    ensures r.derived == s.derived.(
      smemBandwidth := MicrobenchSmemBandwidth,
      fp32CudaCoreFlops := MicrobenchVectorFlops,
      fp16CudaCoreFlops := MicrobenchVectorFlops,
      fp16TensorFlops := MicrobenchTensorFlops)
  {
    s.(
      inputs := s.inputs.(freq := MicrobenchFreq,
        ddrBandwidth := MicrobenchDdrBandwidth, l2Bandwidth := MicrobenchL2Bandwidth),
      caps := UniformCaps(1.0),
      derived := s.derived.(
        smemBandwidth := MicrobenchSmemBandwidth,
        fp32CudaCoreFlops := MicrobenchVectorFlops,
        fp16CudaCoreFlops := MicrobenchVectorFlops,
        fp16TensorFlops := MicrobenchTensorFlops))
  }

  /** `set_to_ncu`: the clock drops to 1.06 GHz, the caps are reset to 0.9 and every derived
      field is recomputed; the bandwidths the previous mode set are kept. */
  function AfterSetToNcu(s: ArchState): (r: ArchState)
    ensures r.core == s.core && r.slots == s.slots && r.caps == UniformCaps(0.9)
    ensures r.inputs == s.inputs.(freq := NcuFreq)
    ensures Consistent(r)
  {
    var configured := s.(inputs := s.inputs.(freq := NcuFreq), caps := UniformCaps(0.9));
    ComputeMetricsIdempotent(configured);
    AfterComputeMetrics(configured)
  }

  /** The spec-mode figures: fp16 tensor = 4 * (8 * 4 * 8) * 2 * 110 * 2.1 GHz, fp32 cores
      64 * 2 * 110 * 2.1 GHz, register file 110 * 2.1 GHz * 4 * 32 * 4 B, and 0.0 for the
      three kinds of unit an MI250X does not have. */
  lemma SpecThroughput(s: ArchState)
    requires s.slots.fp8TensorCoreUnit.None? && s.slots.fp4TensorCoreUnit.None?
    requires s.slots.int32CudaCoreUnit.None?
    ensures var d := AfterSetToSpec(s).derived;
      d.fp16TensorFlops == 4.0 * 256.0 * 2.0 * 110.0 * SpecFreq &&
      d.fp32CudaCoreFlops == 64.0 * 2.0 * 110.0 * SpecFreq &&
      d.registerBandwidth == 110.0 * SpecFreq * 4.0 * 128.0 &&
      d.smemBandwidth == 110.0 * SpecFreq * 128.0 &&
      d.fp8TensorFlops == 0.0 && d.fp4TensorFlops == 0.0 && d.int32CudaCoreFlops == 0.0
  {
  }

  /** `set_to_spec` forgets the mode it is called from: only the slots it never assigns can
      tell two results apart. */
  lemma SpecForgetsHistory(s: ArchState, t: ArchState)
    requires s.slots.fp8TensorCoreUnit == t.slots.fp8TensorCoreUnit
    requires s.slots.fp4TensorCoreUnit == t.slots.fp4TensorCoreUnit
    requires s.slots.int32CudaCoreUnit == t.slots.int32CudaCoreUnit
    ensures AfterSetToSpec(s) == AfterSetToSpec(t)
  {
    var slotsOf := (x: ArchState) => x.slots.(
      fp16TensorCoreUnit := Some(Fp16TensorCore),
      fp32CudaCoreUnit := Some(Fp32CudaCore),
      fp16CudaCoreUnit := Some(Fp16CudaCore),
      fp64CudaCoreUnit := Some(Fp64CudaCore),
      sfuUnit := Some(Sfu));
    assert slotsOf(s) == slotsOf(t);
  }

  /** Calling `set_to_spec` twice in a row leaves the state of calling it once, from any state. */
  lemma SpecIdempotent(s: ArchState)
    ensures AfterSetToSpec(AfterSetToSpec(s)) == AfterSetToSpec(s)
  {
    SpecForgetsHistory(AfterSetToSpec(s), s);
  }

  /** Calling `set_to_microbench` twice in a row leaves the state of calling it once: it only
      assigns constants. */
  lemma MicrobenchIdempotent(s: ArchState)
    ensures AfterSetToMicrobench(AfterSetToMicrobench(s)) == AfterSetToMicrobench(s)
  {
  }

  /** Calling `set_to_ncu` twice in a row leaves the state of calling it once, from any state. */
  lemma NcuIdempotent(s: ArchState)
    ensures AfterSetToNcu(AfterSetToNcu(s)) == AfterSetToNcu(s)
  {
  }

  /** After microbench from the constructed device the metrics are no longer consistent with
      the configuration: fp64, SFU and register-file figures are still those of 2.1 GHz while
      the clock is 1.36 GHz. */
  lemma MicrobenchLeavesStaleFields()
    ensures var c, m := Constructed(), AfterSetToMicrobench(Constructed());
      m.inputs.freq == MicrobenchFreq &&
      m.derived.fp64CudaCoreFlops == c.derived.fp64CudaCoreFlops &&
      m.derived.sfuFlops == c.derived.sfuFlops &&
      m.derived.registerBandwidth == c.derived.registerBandwidth &&
      m.derived.registerBandwidth == 110.0 * SpecFreq * 4.0 * 128.0 &&
      !Consistent(m)
  {
    var m := AfterSetToMicrobench(Constructed());
    assert RegisterBandwidth(m.inputs) == 110.0 * MicrobenchFreq * 4.0 * 32.0 * 4.0;
    assert AfterComputeMetrics(m).derived.registerBandwidth != m.derived.registerBandwidth;
  }

  /** NCU mode overwrites every figure microbench wrote, so switching through microbench only
      leaves its DRAM and L2 bandwidths behind. */
  lemma NcuDiscardsMicrobench(s: ArchState)
    ensures AfterSetToNcu(AfterSetToMicrobench(s)) ==
            AfterSetToNcu(s.(inputs := s.inputs.(
              ddrBandwidth := MicrobenchDdrBandwidth, l2Bandwidth := MicrobenchL2Bandwidth)))
  {
    var a := AfterSetToMicrobench(s);
    var b := s.(inputs := s.inputs.(ddrBandwidth := MicrobenchDdrBandwidth, l2Bandwidth := MicrobenchL2Bandwidth));
    ComputeMetricsIgnoresPriorDerived(
      a.(inputs := a.inputs.(freq := NcuFreq), caps := UniformCaps(0.9)),
      b.(inputs := b.inputs.(freq := NcuFreq), caps := UniformCaps(0.9)));
  }

  /** Spec after any sequence of the other two modes restores the constructed device. */
  lemma SpecRestoresConstruction()
    ensures AfterSetToSpec(AfterSetToMicrobench(Constructed())) == Constructed()
    ensures AfterSetToSpec(AfterSetToNcu(AfterSetToMicrobench(Constructed()))) == Constructed()
  {
    SpecForgetsHistory(AfterSetToMicrobench(Constructed()), Fresh());
    SpecForgetsHistory(AfterSetToNcu(AfterSetToMicrobench(Constructed())), Fresh());
  }

  /** The device object; the base `Arch` it extends is held in `arch`. */
  class Mi250x {
    const arch: Arch

    /** `MI250X.__init__`. */
    constructor()
      ensures fresh(arch) && arch.State() == Constructed()
    {
      arch := new Arch();
      new;
      var same := SetToSpec();
    }

    /** `MI250X.set_to_spec`; returns the object itself. */
    method SetToSpec() returns (r: Mi250x)
      modifies arch
      ensures r == this
      ensures arch.State() == AfterSetToSpec(old(arch.State()))
    {
      arch.core := Some("MI250X");
      arch.inputs := arch.inputs.(smCount := 110);
      arch.inputs := arch.inputs.(freq := 2.1 * Giga);

      arch.inputs := arch.inputs.(ddrBandwidth := 1600.0 * Giga);
      arch.inputs := arch.inputs.(ddrCapacity := 64 * GiB);
      arch.inputs := arch.inputs.(l2Bandwidth := 3200.0 * Giga);
      arch.inputs := arch.inputs.(l2Capacity := 8 * MiB);
      arch.inputs := arch.inputs.(l2Partitions := 1);

      arch.inputs := arch.inputs.(smSubPartitions := 4);
      arch.inputs := arch.inputs.(l1SmemThroughputPerCycle := 128);
      arch.inputs := arch.inputs.(configurableSmemCapacity := 164 * KiB);
      arch.inputs := arch.inputs.(registerCapacityPerSm := 256 * KiB);

      arch.slots := arch.slots.(fp16TensorCoreUnit := Some(Fp16TensorCore));
      arch.slots := arch.slots.(fp32CudaCoreUnit := Some(Fp32CudaCore));
      arch.slots := arch.slots.(fp16CudaCoreUnit := Some(Fp16CudaCore));
      arch.slots := arch.slots.(fp64CudaCoreUnit := Some(Fp64CudaCore));
      arch.slots := arch.slots.(sfuUnit := Some(Sfu));

      arch.caps := arch.caps.(ddrMaxUtil := 0.9);
      arch.caps := arch.caps.(l2MaxUtil := 0.9);
      arch.caps := arch.caps.(l1MaxUtil := 0.9);
      arch.caps := arch.caps.(computeMaxUtil := 0.9);

      var chained := arch.ComputeMetrics();
      r := this;
    }

    /** `MI250X.set_to_microbench`; returns the object itself. */
    method SetToMicrobench() returns (r: Mi250x)
      modifies arch
      ensures r == this
      ensures arch.State() == AfterSetToMicrobench(old(arch.State()))
    {
      arch.inputs := arch.inputs.(freq := 1.36 * Giga);

      arch.caps := arch.caps.(ddrMaxUtil := 1.0);
      arch.caps := arch.caps.(l2MaxUtil := 1.0);
      arch.caps := arch.caps.(l1MaxUtil := 1.0);
      arch.caps := arch.caps.(computeMaxUtil := 1.0);

      arch.inputs := arch.inputs.(ddrBandwidth := 1654.81 * Giga);
      arch.inputs := arch.inputs.(l2Bandwidth := 3234.77 * Giga);
      arch.derived := arch.derived.(smemBandwidth := 19491.0 * Giga);

      arch.derived := arch.derived.(fp32CudaCoreFlops := 19.017181 * Tera);
      arch.derived := arch.derived.(fp16CudaCoreFlops := 19.017181 * Tera);
      arch.derived := arch.derived.(fp16TensorFlops := 298.951 * Tera);
      r := this;
    }

    /** `MI250X.set_to_ncu`; returns the object itself. */
    method SetToNcu() returns (r: Mi250x)
      modifies arch
      ensures r == this
      ensures arch.State() == AfterSetToNcu(old(arch.State()))
    {
      arch.inputs := arch.inputs.(freq := 1.06 * Giga);

      arch.caps := arch.caps.(ddrMaxUtil := 0.9);
      arch.caps := arch.caps.(l2MaxUtil := 0.9);
      arch.caps := arch.caps.(l1MaxUtil := 0.9);
      arch.caps := arch.caps.(computeMaxUtil := 0.9);

      var chained := arch.ComputeMetrics();
      r := this;
    }
  }
}
