/**
 * The roofline hardware model of tilesight (arch/base_arch.py): a compute unit and its
 * peak-throughput formula, the architecture record with its optional compute-unit slots,
 * and the two passes that derive FLOPs/s and bytes/s from the current configuration.
 *
 * The record is given twice: as the value `ArchState`, on which the pure functions
 * `AfterComputeFlops`, `AfterComputeBandwidth` and `AfterComputeMetrics` say what each pass
 * leaves behind, and as the class `Arch`, whose fields the methods overwrite in place and
 * whose `State()` each method ties to those functions.
 */
module BaseArch {
  import opened Wrappers

  /** Unit multipliers of the device tables. */
  const Giga: real := 1000000000.0
  const Tera: real := 1000000000000.0
  const KiB: int := 1024
  const MiB: int := 1024 * 1024
  const GiB: int := 1024 * 1024 * 1024

  // ---------------------------------------------------------------------------
  // ComputeUnit
  // ---------------------------------------------------------------------------

  /** One kind of execution unit, replicated `instances` times in every SM. The tags
      `unit_type` and `dtype` take part in no computation and are not modelled. */
  datatype ComputeUnit = ComputeUnit(instances: int, shape: seq<int>, opsPerElement: int)

  /** What the `ComputeUnit` docstring describes (base_arch.py:12-23), though the constructor
      checks none of it: at least one instance per SM, at least one operation per element,
      and positive tile extents. */
  predicate ValidUnit(u: ComputeUnit) {
    u.instances >= 1 && u.opsPerElement >= 1 &&
    forall i :: 0 <= i < |u.shape| ==> u.shape[i] > 0
  }

  /** The constructor `ComputeUnit(unit_type, dtype, instances=1, shape=None, ops_per_element=2)`:
      an omitted shape is stored as the empty list. */
  function NewComputeUnit(instances: int := 1, shape: Option<seq<int>> := None, opsPerElement: int := 2): (u: ComputeUnit)
    ensures u.instances == instances && u.opsPerElement == opsPerElement
    ensures shape.None? ==> u.shape == []
    ensures shape.Some? ==> u.shape == shape.value
  {
    ComputeUnit(instances, if shape.Some? then shape.value else [], opsPerElement)
  }

  /** `math.prod` over integers; the product of no factors is 1. */
  function Prod(xs: seq<int>): int {
    if xs == [] then 1 else xs[0] * Prod(xs[1..])
  }

  /** `ComputeUnit.calculate_flops`: operations per second of this unit over all SMs. */
  function CalculateFlops(u: ComputeUnit, smCount: int, freqHz: real): (r: real)
    ensures smCount <= 0 || freqHz <= 0.0 ==> r == 0.0
  {
    if smCount <= 0 || freqHz <= 0.0 then 0.0
    else
      var shapeProduct := if u.shape != [] then Prod(u.shape) else 1;
      var opsPerSmPerCycle := u.instances * shapeProduct * u.opsPerElement;
      (opsPerSmPerCycle * smCount) as real * freqHz
  }

  /** The peak formula as the comments of `calculate_flops` state it (base_arch.py:45-53),
      instances * prod(shape) * ops_per_element * sm_count * freq, where the product of an
      empty shape is 1, with no special case for an empty shape. */
  function PeakFlops(u: ComputeUnit, smCount: int, freqHz: real): real {
    (u.instances * Prod(u.shape) * u.opsPerElement * smCount) as real * freqHz
  }

  lemma CalculateFlopsIsPeak(u: ComputeUnit, smCount: int, freqHz: real)
    ensures CalculateFlops(u, smCount, freqHz)
         == if smCount > 0 && freqHz > 0.0 then PeakFlops(u, smCount, freqHz) else 0.0
  {
  }

  /** A scalar unit may be written with shape `[]` or `[1]`: the two give the same throughput. */
  lemma EmptyShapeIsUnitShape(u: ComputeUnit, smCount: int, freqHz: real)
    ensures CalculateFlops(u.(shape := []), smCount, freqHz) == CalculateFlops(u.(shape := [1]), smCount, freqHz)
  {
  }

  lemma {:induction false} ProdPositive(xs: seq<int>)
    requires forall i :: 0 <= i < |xs| ==> xs[i] > 0
    ensures Prod(xs) > 0
  {
    if xs != [] {
      ProdPositive(xs[1..]);
      MulPositive(xs[0], Prod(xs[1..]));
    }
  }

  lemma MulPositive(a: int, b: int)
    requires a > 0 && b > 0
    ensures a * b > 0
  {
  }

  /** Multiplying the last extent of a shape by `c` multiplies the product by `c`. */
  lemma {:induction false} ProdScalesLast(front: seq<int>, k: int, c: int)
    ensures Prod(front + [c * k]) == c * Prod(front + [k])
  {
    if front == [] {
      assert [] + [c * k] == [c * k] && [] + [k] == [k];
    } else {
      assert (front + [c * k])[1..] == front[1..] + [c * k];
      assert (front + [k])[1..] == front[1..] + [k];
      ProdScalesLast(front[1..], k, c);
      var x, p := front[0], Prod(front[1..] + [k]);
      assert x * (c * p) == c * (x * p);
    }
  }

  /** A unit whose last tile extent is `c` times another's delivers `c` times its throughput
      (the fp8 tensor core of a device against its fp16 one). */
  lemma CalculateFlopsScalesWithLastExtent(u: ComputeUnit, c: int, smCount: int, freqHz: real)
    requires |u.shape| > 0
    ensures var n := |u.shape|;
      CalculateFlops(u.(shape := u.shape[..n - 1] + [c * u.shape[n - 1]]), smCount, freqHz)
      == c as real * CalculateFlops(u, smCount, freqHz)
  {
    var n := |u.shape|;
    var front, k := u.shape[..n - 1], u.shape[n - 1];
    assert u.shape == front + [k];
    ProdScalesLast(front, k, c);
    if smCount > 0 && freqHz > 0.0 {
      var p := Prod(front + [k]);
      var i, o := u.instances, u.opsPerElement;
      assert i * (c * p) * o * smCount == c * (i * p * o * smCount);
      CastMul(c, i * p * o * smCount);
    }
  }

  lemma CastMul(a: int, b: int)
    ensures (a * b) as real == a as real * b as real
  {
  }

  /** Peak throughput is never negative, and it is zero exactly when the SM count or the
      frequency is not positive. */
  lemma CalculateFlopsPositive(u: ComputeUnit, smCount: int, freqHz: real)
    requires ValidUnit(u)
    ensures CalculateFlops(u, smCount, freqHz) >= 0.0
    ensures CalculateFlops(u, smCount, freqHz) > 0.0 <==> smCount > 0 && freqHz > 0.0
  {
    if smCount > 0 && freqHz > 0.0 {
      var shapeProduct := if u.shape != [] then Prod(u.shape) else 1;
      ProdPositive(u.shape);
      MulPositive(u.instances, shapeProduct);
      MulPositive(u.instances * shapeProduct, u.opsPerElement);
      MulPositive(u.instances * shapeProduct * u.opsPerElement, smCount);
      var ops := u.instances * shapeProduct * u.opsPerElement * smCount;
      assert ops as real > 0.0;
      assert ops as real * freqHz > 0.0;
    }
  }

  // ---------------------------------------------------------------------------
  // Arch as a value
  // ---------------------------------------------------------------------------

  /** The topology and memory-hierarchy scalars: what configuration writes and metric
      computation reads. Frequencies and bandwidths are in Hz and bytes/s, capacities in bytes. */
  datatype Inputs = Inputs(
    smCount: int,
    freq: real,
    ddrBandwidth: real,
    ddrCapacity: int,
    l2Bandwidth: real,
    l2Capacity: int,
    l2Partitions: int,
    smSubPartitions: int,
    l1SmemThroughputPerCycle: int,
    configurableSmemCapacity: int,
    registerCapacityPerSm: int)

  /** The four utilisation ceilings, read only by downstream analysis. */
  datatype Caps = Caps(ddrMaxUtil: real, l2MaxUtil: real, l1MaxUtil: real, computeMaxUtil: real)

  /** The eight compute-unit slots; `None` stands both for an attribute set to `None` and for
      one that was never defined. */
  datatype Slots = Slots(
    fp16TensorCoreUnit: Option<ComputeUnit>,
    fp8TensorCoreUnit: Option<ComputeUnit>,
    fp4TensorCoreUnit: Option<ComputeUnit>,
    fp32CudaCoreUnit: Option<ComputeUnit>,
    fp16CudaCoreUnit: Option<ComputeUnit>,
    fp64CudaCoreUnit: Option<ComputeUnit>,
    int32CudaCoreUnit: Option<ComputeUnit>,
    sfuUnit: Option<ComputeUnit>)

  /** The fields metric computation writes: FLOPs/s per slot, then bytes/s of shared memory
      and of the register file. */
  datatype Derived = Derived(
    fp16TensorFlops: real,
    fp8TensorFlops: real,
    fp4TensorFlops: real,
    fp32CudaCoreFlops: real,
    fp16CudaCoreFlops: real,
    fp64CudaCoreFlops: real,
    int32CudaCoreFlops: real,
    sfuFlops: real,
    smemBandwidth: real,
    registerBandwidth: real)

  datatype ArchState = ArchState(core: Option<string>, inputs: Inputs, caps: Caps, slots: Slots, derived: Derived)

  function UniformCaps(x: real): Caps {
    Caps(x, x, x, x)
  }

  const NoSlots := Slots(None, None, None, None, None, None, None, None)

  const ZeroDerived := Derived(0.0, 0.0, 0.0, 0.0, 0.0, 0.0, 0.0, 0.0, 0.0, 0.0)

  /** The state `Arch.__init__` leaves. */
  function Fresh(): ArchState {
    ArchState(None, Inputs(0, 0.0, 0.0, 0, 0.0, 0, 1, 0, 0, 0, 0), UniformCaps(0.9), NoSlots, ZeroDerived)
  }

  predicate ValidSlots(s: Slots) {
    (s.fp16TensorCoreUnit.Some? ==> ValidUnit(s.fp16TensorCoreUnit.value)) &&
    (s.fp8TensorCoreUnit.Some? ==> ValidUnit(s.fp8TensorCoreUnit.value)) &&
    (s.fp4TensorCoreUnit.Some? ==> ValidUnit(s.fp4TensorCoreUnit.value)) &&
    (s.fp32CudaCoreUnit.Some? ==> ValidUnit(s.fp32CudaCoreUnit.value)) &&
    (s.fp16CudaCoreUnit.Some? ==> ValidUnit(s.fp16CudaCoreUnit.value)) &&
    (s.fp64CudaCoreUnit.Some? ==> ValidUnit(s.fp64CudaCoreUnit.value)) &&
    (s.int32CudaCoreUnit.Some? ==> ValidUnit(s.int32CudaCoreUnit.value)) &&
    (s.sfuUnit.Some? ==> ValidUnit(s.sfuUnit.value))
  }

  /** One branch of `compute_flops`: the slot's throughput when it holds a unit and the SM
      count and the frequency are positive, 0.0 otherwise. */
  function SlotFlops(slot: Option<ComputeUnit>, smCount: int, freq: real): real {
    if slot.Some? && smCount > 0 && freq > 0.0 then CalculateFlops(slot.value, smCount, freq) else 0.0
  }

  /** A slot contributes nothing: it is empty, or the SM count or the frequency is not positive. */
  predicate Unusable(slot: Option<ComputeUnit>, smCount: int, freq: real) {
    slot.None? || smCount <= 0 || freq <= 0.0
  }

  /** An empty slot and an unusable configuration give the same 0.0; a usable slot holding a
      valid unit gives a positive throughput, so 0.0 signals "nothing to compute". */
  lemma SlotFlopsZeroExactlyWhenUnusable(slot: Option<ComputeUnit>, smCount: int, freq: real)
    requires slot.Some? ==> ValidUnit(slot.value)
    ensures SlotFlops(slot, smCount, freq) >= 0.0
    ensures SlotFlops(slot, smCount, freq) == 0.0 <==> Unusable(slot, smCount, freq)
  {
    if slot.Some? {
      CalculateFlopsPositive(slot.value, smCount, freq);
    }
  }

  /** `Arch.compute_flops`: every FLOPs field is reassigned, and nothing else changes. */
  function AfterComputeFlops(s: ArchState): (r: ArchState)
    ensures r.core == s.core && r.inputs == s.inputs && r.caps == s.caps && r.slots == s.slots
    ensures r.derived.smemBandwidth == s.derived.smemBandwidth
    ensures r.derived.registerBandwidth == s.derived.registerBandwidth
  {
    var n, f := s.inputs.smCount, s.inputs.freq;
    s.(derived := s.derived.(
      fp16TensorFlops := SlotFlops(s.slots.fp16TensorCoreUnit, n, f),
      fp8TensorFlops := SlotFlops(s.slots.fp8TensorCoreUnit, n, f),
      fp4TensorFlops := SlotFlops(s.slots.fp4TensorCoreUnit, n, f),
      fp32CudaCoreFlops := SlotFlops(s.slots.fp32CudaCoreUnit, n, f),
      fp16CudaCoreFlops := SlotFlops(s.slots.fp16CudaCoreUnit, n, f),
      fp64CudaCoreFlops := SlotFlops(s.slots.fp64CudaCoreUnit, n, f),
      int32CudaCoreFlops := SlotFlops(s.slots.int32CudaCoreUnit, n, f),
      sfuFlops := SlotFlops(s.slots.sfuUnit, n, f)))
  }

  /** Shared-memory bandwidth: SM count * frequency * bytes per cycle per SM, floored to 0.0
      unless all three are positive. */
  function SmemBandwidth(inputs: Inputs): (r: real)
    ensures r >= 0.0
    ensures r > 0.0 <==> inputs.smCount > 0 && inputs.freq > 0.0 && inputs.l1SmemThroughputPerCycle > 0
  {
    if inputs.smCount > 0 && inputs.freq > 0.0 && inputs.l1SmemThroughputPerCycle > 0 then
      PositiveProduct(inputs.smCount as real, inputs.freq, inputs.l1SmemThroughputPerCycle as real);
      inputs.smCount as real * inputs.freq * inputs.l1SmemThroughputPerCycle as real
    else
      0.0
  }

  /** Register bandwidth: SM count * frequency * sub-partitions * 32 lanes * 4 bytes, floored
      to 0.0 unless all three are positive. */
  function RegisterBandwidth(inputs: Inputs): (r: real)
    ensures r >= 0.0
    ensures r > 0.0 <==> inputs.smCount > 0 && inputs.freq > 0.0 && inputs.smSubPartitions > 0
  {
    if inputs.smCount > 0 && inputs.freq > 0.0 && inputs.smSubPartitions > 0 then
      PositiveProduct(inputs.smCount as real, inputs.freq, inputs.smSubPartitions as real);
      inputs.smCount as real * inputs.freq * inputs.smSubPartitions as real * 32.0 * 4.0
    else
      0.0
  }

  lemma PositiveProduct(a: real, b: real, c: real)
    requires a > 0.0 && b > 0.0 && c > 0.0
    ensures a * b * c > 0.0
  {
    assert a * b > 0.0;
  }

  /** `Arch.compute_bandwidth`: the two derived bandwidths are reassigned, nothing else changes;
      the DRAM and L2 bandwidths are inputs and are not derived. */
  function AfterComputeBandwidth(s: ArchState): (r: ArchState)
    ensures r.core == s.core && r.inputs == s.inputs && r.caps == s.caps && r.slots == s.slots
    ensures r.derived.(smemBandwidth := 0.0, registerBandwidth := 0.0)
         == s.derived.(smemBandwidth := 0.0, registerBandwidth := 0.0)
  {
    s.(derived := s.derived.(smemBandwidth := SmemBandwidth(s.inputs), registerBandwidth := RegisterBandwidth(s.inputs)))
  }

  /** `Arch.compute_metrics`: the FLOPs pass, then the bandwidth pass. Only derived fields change. */
  function AfterComputeMetrics(s: ArchState): (r: ArchState)
    ensures r.core == s.core && r.inputs == s.inputs && r.caps == s.caps && r.slots == s.slots
  {
    AfterComputeBandwidth(AfterComputeFlops(s))
  }

  /** Every derived field is what metric computation gives for the current inputs and slots. */
  predicate Consistent(s: ArchState) {
    AfterComputeMetrics(s) == s
  }

  /** Metric computation never reads a derived field: two states that agree on inputs and
      slots end with the same derived fields, whatever they held before. */
  lemma ComputeMetricsIgnoresPriorDerived(s: ArchState, t: ArchState)
    requires s.inputs == t.inputs && s.slots == t.slots
    ensures AfterComputeMetrics(s).derived == AfterComputeMetrics(t).derived
  {
  }

  /** Running `compute_metrics` twice gives the state of running it once, and that state is
      consistent. */
  lemma ComputeMetricsIdempotent(s: ArchState)
    ensures AfterComputeMetrics(AfterComputeMetrics(s)) == AfterComputeMetrics(s)
    ensures Consistent(AfterComputeMetrics(s))
  {
    ComputeMetricsIgnoresPriorDerived(AfterComputeMetrics(s), s);
  }

  /** Each FLOPs field after `compute_metrics` is the commented peak formula for its slot, or
      0.0 when the slot is empty or the SM count or the frequency is not positive. */
  function ExpectedFlops(slot: Option<ComputeUnit>, smCount: int, freq: real): real {
    if Unusable(slot, smCount, freq) then 0.0 else PeakFlops(slot.value, smCount, freq)
  }

  lemma ComputeMetricsFlopsArePeak(s: ArchState)
    ensures var d, n, f := AfterComputeMetrics(s).derived, s.inputs.smCount, s.inputs.freq;
      d.fp16TensorFlops == ExpectedFlops(s.slots.fp16TensorCoreUnit, n, f) &&
      d.fp8TensorFlops == ExpectedFlops(s.slots.fp8TensorCoreUnit, n, f) &&
      d.fp4TensorFlops == ExpectedFlops(s.slots.fp4TensorCoreUnit, n, f) &&
      d.fp32CudaCoreFlops == ExpectedFlops(s.slots.fp32CudaCoreUnit, n, f) &&
      d.fp16CudaCoreFlops == ExpectedFlops(s.slots.fp16CudaCoreUnit, n, f) &&
      d.fp64CudaCoreFlops == ExpectedFlops(s.slots.fp64CudaCoreUnit, n, f) &&
      d.int32CudaCoreFlops == ExpectedFlops(s.slots.int32CudaCoreUnit, n, f) &&
      d.sfuFlops == ExpectedFlops(s.slots.sfuUnit, n, f)
  {
  }

  /** A FLOPs field that is never negative and is 0.0 exactly when its slot is unusable. */
  predicate FlopsFieldSound(x: real, slot: Option<ComputeUnit>, smCount: int, freq: real) {
    x >= 0.0 && (x == 0.0 <==> Unusable(slot, smCount, freq))
  }

  /** With valid units every derived field is non-negative, and a FLOPs field is 0.0 exactly
      when its slot is empty or the SM count or frequency is not positive. */
  lemma ComputeMetricsZeroExactlyWhenUnusable(s: ArchState)
    requires ValidSlots(s.slots)
    ensures var d, n, f := AfterComputeMetrics(s).derived, s.inputs.smCount, s.inputs.freq;
      d.smemBandwidth >= 0.0 && d.registerBandwidth >= 0.0 &&
      FlopsFieldSound(d.fp16TensorFlops, s.slots.fp16TensorCoreUnit, n, f) &&
      FlopsFieldSound(d.fp8TensorFlops, s.slots.fp8TensorCoreUnit, n, f) &&
      FlopsFieldSound(d.fp4TensorFlops, s.slots.fp4TensorCoreUnit, n, f) &&
      FlopsFieldSound(d.fp32CudaCoreFlops, s.slots.fp32CudaCoreUnit, n, f) &&
      FlopsFieldSound(d.fp16CudaCoreFlops, s.slots.fp16CudaCoreUnit, n, f) &&
      FlopsFieldSound(d.fp64CudaCoreFlops, s.slots.fp64CudaCoreUnit, n, f) &&
      FlopsFieldSound(d.int32CudaCoreFlops, s.slots.int32CudaCoreUnit, n, f) &&
      FlopsFieldSound(d.sfuFlops, s.slots.sfuUnit, n, f)
  {
    var n, f := s.inputs.smCount, s.inputs.freq;
    var d := AfterComputeMetrics(s).derived;
    SlotFlopsZeroExactlyWhenUnusable(s.slots.fp16TensorCoreUnit, n, f);
    assert FlopsFieldSound(d.fp16TensorFlops, s.slots.fp16TensorCoreUnit, n, f);
    SlotFlopsZeroExactlyWhenUnusable(s.slots.fp8TensorCoreUnit, n, f);
    assert FlopsFieldSound(d.fp8TensorFlops, s.slots.fp8TensorCoreUnit, n, f);
    SlotFlopsZeroExactlyWhenUnusable(s.slots.fp4TensorCoreUnit, n, f);
    assert FlopsFieldSound(d.fp4TensorFlops, s.slots.fp4TensorCoreUnit, n, f);
    SlotFlopsZeroExactlyWhenUnusable(s.slots.fp32CudaCoreUnit, n, f);
    assert FlopsFieldSound(d.fp32CudaCoreFlops, s.slots.fp32CudaCoreUnit, n, f);
    SlotFlopsZeroExactlyWhenUnusable(s.slots.fp16CudaCoreUnit, n, f);
    assert FlopsFieldSound(d.fp16CudaCoreFlops, s.slots.fp16CudaCoreUnit, n, f);
    SlotFlopsZeroExactlyWhenUnusable(s.slots.fp64CudaCoreUnit, n, f);
    assert FlopsFieldSound(d.fp64CudaCoreFlops, s.slots.fp64CudaCoreUnit, n, f);
    SlotFlopsZeroExactlyWhenUnusable(s.slots.int32CudaCoreUnit, n, f);
    assert FlopsFieldSound(d.int32CudaCoreFlops, s.slots.int32CudaCoreUnit, n, f);
    SlotFlopsZeroExactlyWhenUnusable(s.slots.sfuUnit, n, f);
    assert FlopsFieldSound(d.sfuFlops, s.slots.sfuUnit, n, f);
  }

  /** A zero (or negative) SM count or frequency zeroes every derived field at once. */
  lemma DegenerateTopologyZeroesAll(s: ArchState)
    requires s.inputs.smCount <= 0 || s.inputs.freq <= 0.0
    ensures AfterComputeMetrics(s).derived == ZeroDerived
  {
  }

  /** A fresh record is already consistent: computing its metrics leaves every derived field 0.0. */
  lemma FreshMetricsAllZero()
    ensures Fresh().derived == ZeroDerived && Fresh().slots == NoSlots
    ensures AfterComputeMetrics(Fresh()) == Fresh()
  {
  }

  // ---------------------------------------------------------------------------
  // Arch as an object
  // ---------------------------------------------------------------------------

  /** The exceptions the configuration methods raise. */
  datatype Error = NotImplementedError(operation: string) | AttributeError(attribute: string)

  /**
   * The Python object. Its attributes are kept in the core name and four record-valued fields
   * (inputs, caps, slots, derived), following the
   * groups of the value model (an assignment `self.sm_count = v` is `inputs := inputs.(smCount := v)`);
   * the methods overwrite them in place.
   */
  class Arch {
    var core: Option<string>
    var inputs: Inputs
    var caps: Caps
    var slots: Slots
    var derived: Derived

    /** The object's attributes as a value. */
    function State(): ArchState
      reads this
    {
      ArchState(core, inputs, caps, slots, derived)
    }

    /** `Arch.__init__`. */
    constructor()
      ensures State() == Fresh()
    {
      core := None;
      inputs := Inputs(
        smCount := 0, freq := 0.0,
        ddrBandwidth := 0.0, ddrCapacity := 0,
        l2Bandwidth := 0.0, l2Capacity := 0, l2Partitions := 1,
        smSubPartitions := 0, l1SmemThroughputPerCycle := 0,
        configurableSmemCapacity := 0, registerCapacityPerSm := 0);
      slots := NoSlots;
      derived := ZeroDerived;
      caps := Caps(ddrMaxUtil := 0.9, l2MaxUtil := 0.9, l1MaxUtil := 0.9, computeMaxUtil := 0.9);
    }

    /** `Arch.compute_flops`, slot by slot in the source's order (`SlotFlops` is the guarded
        branch each slot repeats); returns the object itself. */
    method ComputeFlops() returns (r: Arch)
      modifies this
      ensures r == this
      ensures State() == AfterComputeFlops(old(State()))
    {
      derived := derived.(fp16TensorFlops := SlotFlops(slots.fp16TensorCoreUnit, inputs.smCount, inputs.freq));
      derived := derived.(fp8TensorFlops := SlotFlops(slots.fp8TensorCoreUnit, inputs.smCount, inputs.freq));
      derived := derived.(fp4TensorFlops := SlotFlops(slots.fp4TensorCoreUnit, inputs.smCount, inputs.freq));
      derived := derived.(fp32CudaCoreFlops := SlotFlops(slots.fp32CudaCoreUnit, inputs.smCount, inputs.freq));
      derived := derived.(fp16CudaCoreFlops := SlotFlops(slots.fp16CudaCoreUnit, inputs.smCount, inputs.freq));
      derived := derived.(fp64CudaCoreFlops := SlotFlops(slots.fp64CudaCoreUnit, inputs.smCount, inputs.freq));
      derived := derived.(int32CudaCoreFlops := SlotFlops(slots.int32CudaCoreUnit, inputs.smCount, inputs.freq));
      derived := derived.(sfuFlops := SlotFlops(slots.sfuUnit, inputs.smCount, inputs.freq));
      r := this;
    }

    /** `Arch.compute_bandwidth`; returns the object itself. */
    method ComputeBandwidth() returns (r: Arch)
      modifies this
      ensures r == this
      ensures State() == AfterComputeBandwidth(old(State()))
    {
      var n, f := inputs.smCount, inputs.freq;
      if n > 0 && f > 0.0 && inputs.l1SmemThroughputPerCycle > 0 {
        derived := derived.(smemBandwidth := n as real * f * inputs.l1SmemThroughputPerCycle as real);
      } else {
        derived := derived.(smemBandwidth := 0.0);
      }
      if n > 0 && f > 0.0 && inputs.smSubPartitions > 0 {
        derived := derived.(registerBandwidth := n as real * f * inputs.smSubPartitions as real * 32.0 * 4.0);
      } else {
        derived := derived.(registerBandwidth := 0.0);
      }
      r := this;
    }

    /** `Arch.compute_metrics`; returns the object itself so that configuration code can chain. */
    method ComputeMetrics() returns (r: Arch)
      modifies this
      ensures r == this
      ensures State() == AfterComputeMetrics(old(State()))
    {
      r := ComputeFlops();
      r := ComputeBandwidth();
    }

    /** The base `set_to_spec` raises `NotImplementedError` and changes nothing. */
    method SetToSpec() returns (raised: Error)
      ensures raised == NotImplementedError("set_to_spec")
    {
      raised := NotImplementedError("set_to_spec");
    }

    /** The base `set_to_microbench` raises `NotImplementedError` and changes nothing. */
    method SetToMicrobench() returns (raised: Error)
      ensures raised == NotImplementedError("set_to_microbench")
    {
      raised := NotImplementedError("set_to_microbench");
    }

    /** The base `set_to_ncu` raises `NotImplementedError` and changes nothing. */
    method SetToNcu() returns (raised: Error)
      ensures raised == NotImplementedError("set_to_ncu")
    {
      raised := NotImplementedError("set_to_ncu");
    }
  }
}
