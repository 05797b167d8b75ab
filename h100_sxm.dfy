/**
 * NVIDIA H100 SXM (arch/cuda/h100_sxm.py): the vendor-specification table, a microbenchmark
 * mode that changes nothing yet, and the profiler-observed (NCU) mode, which lowers the clock
 * and recomputes every derived field.
 */
module CudaH100Sxm {
  import opened Wrappers
  import opened BaseArch

  const SpecFreq: real := 1.83 * Giga
  const NcuFreq: real := 1.44 * Giga

  /** The scalars `set_to_spec` assigns, all eleven of them. */
  const SpecInputs := Inputs(
    smCount := 132, freq := SpecFreq,
    ddrBandwidth := 3352.32 * Giga, ddrCapacity := 90 * GiB,
    l2Bandwidth := 8748.0 * Giga, l2Capacity := 50 * MiB, l2Partitions := 2,
    smSubPartitions := 4, l1SmemThroughputPerCycle := 128,
    configurableSmemCapacity := 228 * KiB, registerCapacityPerSm := 256 * KiB)

  const Fp16TensorCore := NewComputeUnit(instances := 4, shape := Some([8, 4, 16]), opsPerElement := 2)
  const Fp8TensorCore := NewComputeUnit(instances := 4, shape := Some([8, 4, 32]), opsPerElement := 2)
  const Fp32CudaCore := NewComputeUnit(instances := 128, shape := Some([1]), opsPerElement := 2)
  const Fp16CudaCore := NewComputeUnit(instances := 128, shape := Some([1]), opsPerElement := 2)
  const Fp64CudaCore := NewComputeUnit(instances := 64, shape := Some([1]), opsPerElement := 2)
  const Sfu := NewComputeUnit(instances := 16, shape := Some([1]), opsPerElement := 2)

  /** `set_to_spec`: every scalar and six slots are overwritten, the caps reset to 0.9 and the
      metrics recomputed. The fp4-tensor and int32-core slots are never assigned. */
  function AfterSetToSpec(s: ArchState): (r: ArchState)
    ensures r.core == Some("H100_SXM") && r.inputs == SpecInputs && r.caps == UniformCaps(0.9)
    ensures r.slots.fp4TensorCoreUnit == s.slots.fp4TensorCoreUnit
    ensures r.slots.int32CudaCoreUnit == s.slots.int32CudaCoreUnit
    ensures Consistent(r)
  {
    var configured := s.(
      core := Some("H100_SXM"),
      inputs := SpecInputs,
      slots := s.slots.(
        fp16TensorCoreUnit := Some(Fp16TensorCore),
        fp8TensorCoreUnit := Some(Fp8TensorCore),
        fp32CudaCoreUnit := Some(Fp32CudaCore),
        fp16CudaCoreUnit := Some(Fp16CudaCore),
        fp64CudaCoreUnit := Some(Fp64CudaCore),
        sfuUnit := Some(Sfu)),
      caps := UniformCaps(0.9));
    ComputeMetricsIdempotent(configured);
    AfterComputeMetrics(configured)
  }

  /** `H100_SXM()`: `Arch.__init__`, then `set_to_spec`. */
  function Constructed(): ArchState {
    AfterSetToSpec(Fresh())
  }

  /** `set_to_ncu`: the clock drops to 1.44 GHz, the caps are reset to 0.9 and every derived
      field is recomputed; SM count, bandwidths, capacities and slots are left as they were. */
  function AfterSetToNcu(s: ArchState): (r: ArchState)
    ensures r.core == s.core && r.slots == s.slots && r.caps == UniformCaps(0.9)
    ensures r.inputs == s.inputs.(freq := NcuFreq)
    ensures Consistent(r)
  {
    var configured := s.(inputs := s.inputs.(freq := NcuFreq), caps := UniformCaps(0.9));
    ComputeMetricsIdempotent(configured);
    AfterComputeMetrics(configured)
  }

  /** The spec-mode throughputs: fp16 tensor = 4 * 512 * 2 * 132 * 1.83 GHz, fp8 tensor twice
      that (its K extent doubles), fp4 tensor and int32 core 0.0 (their slots are empty on every
      H100 SXM), and the two bandwidths at 128 bytes per SM cycle and 4 * 128 bytes per SM cycle. */
  lemma SpecThroughput(s: ArchState)
    requires s.slots.fp4TensorCoreUnit.None? && s.slots.int32CudaCoreUnit.None?
    ensures var d := AfterSetToSpec(s).derived;
      d.fp16TensorFlops == 4.0 * 512.0 * 2.0 * 132.0 * SpecFreq &&
      d.fp8TensorFlops == 2.0 * d.fp16TensorFlops &&
      d.fp4TensorFlops == 0.0 && d.int32CudaCoreFlops == 0.0 &&
      d.smemBandwidth == 132.0 * SpecFreq * 128.0 &&
      d.registerBandwidth == 132.0 * SpecFreq * 4.0 * 128.0
  {
    assert Fp8TensorCore == Fp16TensorCore.(shape := Fp16TensorCore.shape[..2] + [2 * Fp16TensorCore.shape[2]]);
    CalculateFlopsScalesWithLastExtent(Fp16TensorCore, 2, 132, SpecFreq);
  }

  /** `set_to_spec` forgets the mode it is called from: only the two slots it never assigns
      can tell two results apart. */
  lemma SpecForgetsHistory(s: ArchState, t: ArchState)
    requires s.slots.fp4TensorCoreUnit == t.slots.fp4TensorCoreUnit
    requires s.slots.int32CudaCoreUnit == t.slots.int32CudaCoreUnit
    ensures AfterSetToSpec(s) == AfterSetToSpec(t)
  {
    var slotsOf := (x: ArchState) => x.slots.(
      fp16TensorCoreUnit := Some(Fp16TensorCore),
      fp8TensorCoreUnit := Some(Fp8TensorCore),
      fp32CudaCoreUnit := Some(Fp32CudaCore),
      fp16CudaCoreUnit := Some(Fp16CudaCore),
      fp64CudaCoreUnit := Some(Fp64CudaCore),
      sfuUnit := Some(Sfu));
    assert slotsOf(s) == slotsOf(t);
  }

  /** Switching to NCU and back to spec restores exactly the freshly constructed state, and
      calling `set_to_spec` again changes nothing. */
  lemma SpecAfterNcuRestoresConstruction()
    ensures AfterSetToSpec(AfterSetToNcu(Constructed())) == Constructed()
    ensures AfterSetToSpec(Constructed()) == Constructed()
  {
    SpecForgetsHistory(AfterSetToNcu(Constructed()), Fresh());
    SpecForgetsHistory(Constructed(), Fresh());
  }

  /** Calling `set_to_spec` twice in a row leaves the state of calling it once, from any state. */
  lemma SpecIdempotent(s: ArchState)
    ensures AfterSetToSpec(AfterSetToSpec(s)) == AfterSetToSpec(s)
  {
    SpecForgetsHistory(AfterSetToSpec(s), s);
  }

  /** Calling `set_to_ncu` twice in a row leaves the state of calling it once, from any state. */
  lemma NcuIdempotent(s: ArchState)
    ensures AfterSetToNcu(AfterSetToNcu(s)) == AfterSetToNcu(s)
  {
  }

  /** From the constructed state NCU mode recomputes the tensor-core throughput and the
      register bandwidth at 1.44 GHz while keeping the DRAM and L2 bandwidths of the spec. */
  lemma NcuThroughput()
    ensures var r := AfterSetToNcu(Constructed());
      r.derived.fp16TensorFlops == 4.0 * 512.0 * 2.0 * 132.0 * NcuFreq &&
      r.derived.registerBandwidth == 132.0 * NcuFreq * 4.0 * 128.0 &&
      r.inputs.ddrBandwidth == 3352.32 * Giga && r.inputs.l2Bandwidth == 8748.0 * Giga
  {
  }

  /** The device object; the base `Arch` it extends is held in `arch`. */
  class H100Sxm {
    const arch: Arch

    /** `H100_SXM.__init__`. */
    constructor()
      ensures fresh(arch) && arch.State() == Constructed()
    {
      arch := new Arch();
      new;
      var same := SetToSpec();
    }

    /** `H100_SXM.set_to_spec`; returns the object itself. */
    method SetToSpec() returns (r: H100Sxm)
      modifies arch
      ensures r == this
      ensures arch.State() == AfterSetToSpec(old(arch.State()))
    {
      arch.core := Some("H100_SXM");
      arch.inputs := arch.inputs.(smCount := 132);
      arch.inputs := arch.inputs.(freq := 1.83 * Giga);

      arch.inputs := arch.inputs.(ddrBandwidth := 3352.32 * Giga);
      arch.inputs := arch.inputs.(ddrCapacity := 90 * GiB);
      arch.inputs := arch.inputs.(l2Bandwidth := 8748.0 * Giga);
      arch.inputs := arch.inputs.(l2Capacity := 50 * MiB);
      arch.inputs := arch.inputs.(l2Partitions := 2);

      arch.inputs := arch.inputs.(smSubPartitions := 4);
      arch.inputs := arch.inputs.(l1SmemThroughputPerCycle := 128);
      arch.inputs := arch.inputs.(configurableSmemCapacity := 228 * KiB);
      arch.inputs := arch.inputs.(registerCapacityPerSm := 256 * KiB);

      arch.slots := arch.slots.(fp16TensorCoreUnit := Some(Fp16TensorCore));
      arch.slots := arch.slots.(fp8TensorCoreUnit := Some(Fp8TensorCore));
      arch.slots := arch.slots.(fp32CudaCoreUnit := Some(Fp32CudaCore));
      arch.slots := arch.slots.(fp16CudaCoreUnit := Some(Fp16CudaCore));
      arch.slots := arch.slots.(fp64CudaCoreUnit := Some(Fp64CudaCore));
      arch.slots := arch.slots.(sfuUnit := Some(Sfu));

      arch.caps := arch.caps.(ddrMaxUtil := 0.9);
      arch.caps := arch.caps.(l2MaxUtil := 0.9);
      arch.caps := arch.caps.(l1MaxUtil := 0.9);
      arch.caps := arch.caps.(computeMaxUtil := 0.9);

      var chained := arch.ComputeMetrics();
      r := this;
    }

    /** `H100_SXM.set_to_microbench` has no microbenchmark data yet: it returns the object
        itself and changes nothing. */
    method SetToMicrobench() returns (r: H100Sxm)
      ensures r == this
    {
      r := this;
    }

    /** `H100_SXM.set_to_ncu`; returns the object itself. */
    method SetToNcu() returns (r: H100Sxm)
      modifies arch
      ensures r == this
      ensures arch.State() == AfterSetToNcu(old(arch.State()))
    {
      arch.inputs := arch.inputs.(freq := 1.44 * Giga);

      arch.caps := arch.caps.(ddrMaxUtil := 0.9);
      arch.caps := arch.caps.(l2MaxUtil := 0.9);
      arch.caps := arch.caps.(l1MaxUtil := 0.9);
      arch.caps := arch.caps.(computeMaxUtil := 0.9);

      var chained := arch.ComputeMetrics();
      r := this;
    }
  }
}
