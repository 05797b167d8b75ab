# tilesight hardware roofline model in Dafny

tilesight's `arch` package describes a GPU the way a roofline analysis needs it. It records:

- the streaming-multiprocessor (SM) count and the clock;
- the DRAM and L2 bandwidths and capacities;
- the shared-memory and register-file parameters;
- up to eight *compute-unit slots* (fp16/fp8/fp4 tensor cores, fp32/fp16/fp64/int32 vector cores, special-function units).

From these it derives peak FLOPs/s per slot and bytes/s for shared memory and the register file. Each concrete device can be switched between three operating modes: vendor **spec**, **microbench**(mark)-observed, and profiler-observed (**NCU**). This project models:

- the base (`ComputeUnit`, `Arch`);
- the H100 SXM, H100 PCIe and MI250X devices;
- the mode methods, statement by statement.

It then proves what the derived figures are and how the modes interact.

Files and modules:

| file | module | contents |
|---|---|---|
| `wrappers.dfy` | `Wrappers` | `Option`, used both for an attribute set to `None` and for one that was never defined |
| `base_arch.dfy` | `BaseArch` | `ComputeUnit` and `calculate_flops`; the record `ArchState`; the pure passes `AfterComputeFlops`, `AfterComputeBandwidth` and `AfterComputeMetrics`; the class `Arch` whose methods update it in place |
| `h100_sxm.dfy` | `CudaH100Sxm` | H100 SXM: spec table, no-op microbench, NCU mode |
| `h100_pcie.dfy` | `CudaH100Pcie` | H100 PCIe: extra clock attributes, INT8 throughput, the failing `set_to_spec` as written, and its corrected form |
| `mi250x.dfy` | `RocmMi250x` | MI250X: spec table, a microbench mode that writes derived fields directly, NCU mode |

Every state-changing Python method is a Dafny `method` on a class. Each one is tied by its postcondition to a pure function of the previous state, for example `State() == AfterComputeMetrics(old(State()))`. The properties are proved about those functions.

The object's attributes are kept in the core name `core` and four record-valued fields:

- `inputs`: topology and memory scalars;
- `caps`: utilisation ceilings;
- `slots`;
- `derived`: the computed figures.

A Python assignment `self.sm_count = 132` is written `arch.inputs := arch.inputs.(smCount := 132)`. A device subclass holds its base `Arch` in a `const arch` field instead of inheriting from it.

The state invariant that matters is `Consistent(s)`: every derived field is what `compute_metrics` computes from the current inputs and slots.

- Every mode that ends in `compute_metrics` establishes it.
- MI250X microbench breaks it.
- The half-configured object left behind by the failing H100 PCIe construction breaks it.

Two places where the code does not do what its own comments describe; the model follows the code:

- The docstring of `compute_metrics` asks subclasses to call it after all parameters are set (base_arch.py:183-186), and every other mode that changes a parameter does. `MI250X.set_to_microbench` does not: it writes four derived fields and leaves the rest stale (`RocmMi250x.MicrobenchLeavesStaleFields`).
- The H100 PCIe spec table assigns a 1.755 GHz clock (h100_pcie.py:22), but `H100_PCIE.set_to_spec` then overwrites it with `max_freq`, so it either raises or keeps the previous mode's clock (see Findings).

## Model

| member | source | states |
|---|---|---|
| BaseArch.NewComputeUnit | tilelang/tools/tilesight/arch/base_arch.py:6-28 | the unit stores its instance count and ops per element; an omitted shape is stored as the empty list |
| BaseArch.CalculateFlops | tilelang/tools/tilesight/arch/base_arch.py:42-43 | a non-positive SM count or frequency gives 0.0 FLOPs/s |
| BaseArch.CalculateFlopsIsPeak | tilelang/tools/tilesight/arch/base_arch.py:30-55 | for positive SM count and clock the result is instances * prod(shape) * ops_per_element * sm_count * freq, with prod(empty) = 1; otherwise 0.0 |
| BaseArch.EmptyShapeIsUnitShape | tilelang/tools/tilesight/arch/base_arch.py:47 | a scalar unit written with shape `[]` and one written with `[1]` deliver the same throughput |
| BaseArch.ProdPositive | tilelang/tools/tilesight/arch/base_arch.py:47 | the product of positive tile extents is positive |
| BaseArch.ProdScalesLast | tilelang/tools/tilesight/arch/base_arch.py:47 | multiplying the last extent by c multiplies the product by c |
| BaseArch.CalculateFlopsScalesWithLastExtent | tilelang/tools/tilesight/arch/base_arch.py:47-55 | a unit whose last tile extent is c times larger delivers c times the FLOPs/s |
| BaseArch.CalculateFlopsPositive | tilelang/tools/tilesight/arch/base_arch.py:42-55 | for a well-formed unit the throughput is never negative and is positive exactly when SM count and clock are both positive |
| BaseArch.SlotFlopsZeroExactlyWhenUnusable | tilelang/tools/tilesight/arch/base_arch.py:106-110 | one slot's figure is never negative and is 0.0 exactly when the slot is empty or the SM count or clock is not positive |
| BaseArch.AfterComputeFlops | tilelang/tools/tilesight/arch/base_arch.py:100-160 | `compute_flops` changes no input, cap, slot or bandwidth field |
| BaseArch.SmemBandwidth | tilelang/tools/tilesight/arch/base_arch.py:169-172 | shared-memory bytes/s are never negative and are positive exactly when SM count, clock and bytes per cycle are all positive |
| BaseArch.RegisterBandwidth | tilelang/tools/tilesight/arch/base_arch.py:175-178 | register-file bytes/s are never negative and are positive exactly when SM count, clock and sub-partition count are all positive |
| BaseArch.AfterComputeBandwidth | tilelang/tools/tilesight/arch/base_arch.py:162-180 | `compute_bandwidth` changes only the two derived bandwidths |
| BaseArch.AfterComputeMetrics | tilelang/tools/tilesight/arch/base_arch.py:182-189 | `compute_metrics` changes only derived fields |
| BaseArch.ComputeMetricsIgnoresPriorDerived | tilelang/tools/tilesight/arch/base_arch.py:100-180 | the derived fields afterwards depend only on inputs and slots, not on their previous values |
| BaseArch.ComputeMetricsIdempotent | tilelang/tools/tilesight/arch/base_arch.py:182-189 | running `compute_metrics` twice equals running it once, and its result is consistent |
| BaseArch.ComputeMetricsFlopsArePeak | tilelang/tools/tilesight/arch/base_arch.py:100-158 | each FLOPs field equals the peak formula for its slot, or 0.0 when the slot is unusable |
| BaseArch.ComputeMetricsZeroExactlyWhenUnusable | tilelang/tools/tilesight/arch/base_arch.py:100-180 | with well-formed units every derived field is non-negative, and each FLOPs field is 0.0 exactly when its slot is empty or SM count or clock is not positive |
| BaseArch.DegenerateTopologyZeroesAll | tilelang/tools/tilesight/arch/base_arch.py:100-180 | a non-positive SM count or clock zeroes every derived field |
| BaseArch.FreshMetricsAllZero | tilelang/tools/tilesight/arch/base_arch.py:60-98 | a freshly initialised record has no units, all-zero figures, and is already consistent |
| BaseArch.Arch.constructor | tilelang/tools/tilesight/arch/base_arch.py:60-98 | `Arch.__init__` leaves the zeroed state `Fresh()` |
| BaseArch.Arch.ComputeFlops | tilelang/tools/tilesight/arch/base_arch.py:100-160 | the object afterwards is `AfterComputeFlops` of its previous state, and the object itself is returned |
| BaseArch.Arch.ComputeBandwidth | tilelang/tools/tilesight/arch/base_arch.py:162-180 | the object afterwards is `AfterComputeBandwidth` of its previous state, and the object itself is returned |
| BaseArch.Arch.ComputeMetrics | tilelang/tools/tilesight/arch/base_arch.py:182-189 | the object afterwards is `AfterComputeMetrics` of its previous state, and the object itself is returned |
| BaseArch.Arch.SetToSpec | tilelang/tools/tilesight/arch/base_arch.py:192-199 | the base configuration method raises NotImplementedError and changes nothing |
| BaseArch.Arch.SetToMicrobench | tilelang/tools/tilesight/arch/base_arch.py:201-208 | the base configuration method raises NotImplementedError and changes nothing |
| BaseArch.Arch.SetToNcu | tilelang/tools/tilesight/arch/base_arch.py:210-217 | the base configuration method raises NotImplementedError and changes nothing |
| CudaH100Sxm.AfterSetToSpec | tilelang/tools/tilesight/arch/cuda/h100_sxm.py:11-78 | spec mode sets the core name, the eleven table scalars and caps of 0.9; it keeps the fp4 and int32 slots and leaves the metrics consistent |
| CudaH100Sxm.AfterSetToNcu | tilelang/tools/tilesight/arch/cuda/h100_sxm.py:86-100 | NCU mode changes only the clock (to 1.44 GHz), the caps (to 0.9) and the derived fields, and leaves the metrics consistent |
| CudaH100Sxm.SpecThroughput | tilelang/tools/tilesight/arch/cuda/h100_sxm.py:17-76 | in spec mode fp16 tensor = 4*512*2*132*1.83 GHz, fp8 tensor is twice that, fp4 and int32 are 0.0, shared memory = 132*f*128 B/s and register file = 132*f*4*128 B/s |
| CudaH100Sxm.SpecForgetsHistory | tilelang/tools/tilesight/arch/cuda/h100_sxm.py:11-78 | spec mode gives the same state from any two states that agree on the two slots it never assigns |
| CudaH100Sxm.SpecAfterNcuRestoresConstruction | tilelang/tools/tilesight/arch/cuda/h100_sxm.py:6-9 | NCU then spec restores the constructed state; spec on the constructed state changes nothing |
| CudaH100Sxm.SpecIdempotent | tilelang/tools/tilesight/arch/cuda/h100_sxm.py:11-78 | calling spec mode twice from any state gives the state of calling it once |
| CudaH100Sxm.NcuIdempotent | tilelang/tools/tilesight/arch/cuda/h100_sxm.py:86-100 | calling NCU mode twice from any state gives the state of calling it once |
| CudaH100Sxm.NcuThroughput | tilelang/tools/tilesight/arch/cuda/h100_sxm.py:86-100 | from construction, NCU mode recomputes fp16 tensor as 4*512*2*132*1.44 GHz and the register file as 132*1.44 GHz*4*128, keeping the spec DRAM and L2 bandwidths |
| CudaH100Sxm.H100Sxm.constructor | tilelang/tools/tilesight/arch/cuda/h100_sxm.py:6-9 | the new device is in the constructed spec state |
| CudaH100Sxm.H100Sxm.SetToSpec | tilelang/tools/tilesight/arch/cuda/h100_sxm.py:11-78 | the object afterwards is `AfterSetToSpec` of its previous state, and the object itself is returned |
| CudaH100Sxm.H100Sxm.SetToMicrobench | tilelang/tools/tilesight/arch/cuda/h100_sxm.py:80-84 | microbench returns the object itself and changes nothing |
| CudaH100Sxm.H100Sxm.SetToNcu | tilelang/tools/tilesight/arch/cuda/h100_sxm.py:86-100 | the object afterwards is `AfterSetToNcu` of its previous state, and the object itself is returned |
| CudaH100Pcie.AfterSetToSpec | tilelang/tools/tilesight/arch/cuda/h100_pcie.py:15-124 | spec mode raises AttributeError("max_freq") exactly when `max_freq` is undefined, leaving the table scalars set and three slots cleared. Otherwise the clock ends at the prior `max_freq`, the metrics are consistent and INT8 = 2 * fp16 tensor. Caps, base clock, warp schedulers and the fp4 slot are stated on both paths |
| CudaH100Pcie.AfterSetToSpecCorrected | tilelang/tools/tilesight/arch/cuda/h100_pcie.py:20-58 | with `max_freq` defined as 1.755 GHz before it is read, spec mode never fails, sets the full table including its clock, is consistent, and has INT8 = 2 * fp16 tensor |
| CudaH100Pcie.AfterSetToMicrobench | tilelang/tools/tilesight/arch/cuda/h100_pcie.py:126-152 | microbench sets clocks of 1.42 GHz, caps of 1.0 and the measured DRAM and L2 bandwidths; slots and other inputs are kept, the metrics are consistent and INT8 = 2 * fp16 tensor |
| CudaH100Pcie.AfterSetToNcu | tilelang/tools/tilesight/arch/cuda/h100_pcie.py:154-171 | NCU mode sets clocks of 1.06 GHz and caps of 0.9 and keeps all other inputs; the metrics are consistent and INT8 = 2 * fp16 tensor |
| CudaH100Pcie.ConstructionRaises | tilelang/tools/tilesight/arch/cuda/h100_pcie.py:6-13 | construction raises AttributeError on `max_freq` and abandons an inconsistent object |
| CudaH100Pcie.SpecKeepsPriorModeClock | tilelang/tools/tilesight/arch/cuda/h100_pcie.py:58 | spec mode after microbench runs at 1.42 GHz and after NCU at 1.06 GHz, without raising |
| CudaH100Pcie.SpecThroughput | tilelang/tools/tilesight/arch/cuda/h100_pcie.py:58-123 | at clock f, fp16 tensor = 4*512*2*114*f, fp8 tensor the same, INT8 twice that, fp4 0.0, int32 = 64*2*114*f and shared memory = 114*f*128 |
| CudaH100Pcie.MicrobenchSmemOverwritten | tilelang/tools/tilesight/arch/cuda/h100_pcie.py:144-150 | the measured shared-memory bandwidth microbench writes is replaced by the formula value 114*1.42 GHz*128, which differs from it |
| CudaH100Pcie.NcuKeepsPriorBandwidths | tilelang/tools/tilesight/arch/cuda/h100_pcie.py:154-171 | NCU after microbench keeps the measured DRAM and L2 bandwidths |
| CudaH100Pcie.SpecIdempotent | tilelang/tools/tilesight/arch/cuda/h100_pcie.py:15-124 | calling spec mode as written twice from any state gives the outcome of calling it once, including the same exception |
| CudaH100Pcie.MicrobenchIdempotent | tilelang/tools/tilesight/arch/cuda/h100_pcie.py:126-152 | calling microbench twice from any state gives the state of calling it once |
| CudaH100Pcie.NcuIdempotent | tilelang/tools/tilesight/arch/cuda/h100_pcie.py:154-171 | calling NCU mode twice from any state gives the state of calling it once |
| CudaH100Pcie.CorrectedAgreesOnceMaxFreqIsSet | tilelang/tools/tilesight/arch/cuda/h100_pcie.py:58 | when `max_freq` is already 1.755 GHz the as-written and corrected spec modes coincide and nothing is raised |
| CudaH100Pcie.SpecCorrectedForgetsHistory | tilelang/tools/tilesight/arch/cuda/h100_pcie.py:15-124 | the corrected spec mode gives the same state from any two states with the same fp4 slot |
| CudaH100Pcie.SpecCorrectedIdempotent | tilelang/tools/tilesight/arch/cuda/h100_pcie.py:15-124 | calling the corrected spec mode twice from any state gives the state of calling it once |
| CudaH100Pcie.SpecCorrectedRunsAtSpecFreq | tilelang/tools/tilesight/arch/cuda/h100_pcie.py:22 | the corrected construction runs at 1.755 GHz with fp16 tensor = 4*512*2*114*1.755 GHz, and NCU then spec restores it |
| CudaH100Pcie.H100Pcie.InitBase | tilelang/tools/tilesight/arch/cuda/h100_pcie.py:11 | the object after `Arch.__init__` alone, with no subclass attribute defined |
| CudaH100Pcie.H100Pcie.Construct | tilelang/tools/tilesight/arch/cuda/h100_pcie.py:6-13 | construction as written returns AttributeError("max_freq") and the half-configured object |
| CudaH100Pcie.H100Pcie.constructor | tilelang/tools/tilesight/arch/cuda/h100_pcie.py:6-13 | construction with the corrected spec mode |
| CudaH100Pcie.H100Pcie.SetToSpec | tilelang/tools/tilesight/arch/cuda/h100_pcie.py:15-124 | the object afterwards is the state, and the result the exception, of `AfterSetToSpec` of its previous state |
| CudaH100Pcie.H100Pcie.SetToSpecCorrected | tilelang/tools/tilesight/arch/cuda/h100_pcie.py:20-124 | the object afterwards is `AfterSetToSpecCorrected` of its previous state |
| CudaH100Pcie.H100Pcie.Configure | tilelang/tools/tilesight/arch/cuda/h100_pcie.py:58-123 | the tail of spec mode for a known clock: slots, caps, metrics and INT8 |
| CudaH100Pcie.H100Pcie.SetToMicrobench | tilelang/tools/tilesight/arch/cuda/h100_pcie.py:126-152 | the object afterwards is `AfterSetToMicrobench` of its previous state, and the object itself is returned |
| CudaH100Pcie.H100Pcie.SetToNcu | tilelang/tools/tilesight/arch/cuda/h100_pcie.py:154-171 | the object afterwards is `AfterSetToNcu` of its previous state, and the object itself is returned |
| RocmMi250x.AfterSetToSpec | tilelang/tools/tilesight/arch/rocm/mi250x.py:11-73 | spec mode sets the core name, the eleven table scalars and caps of 0.9; it keeps the fp8, fp4 and int32 slots and leaves the metrics consistent |
| RocmMi250x.AfterSetToMicrobench | tilelang/tools/tilesight/arch/rocm/mi250x.py:75-96 | microbench changes the clock, caps, DRAM and L2 bandwidths and exactly four derived fields; every other field keeps its value |
| RocmMi250x.AfterSetToNcu | tilelang/tools/tilesight/arch/rocm/mi250x.py:98-112 | NCU mode changes only the clock (to 1.06 GHz), the caps (to 0.9) and the derived fields, and leaves the metrics consistent |
| RocmMi250x.SpecThroughput | tilelang/tools/tilesight/arch/rocm/mi250x.py:14-71 | in spec mode fp16 tensor = 4*256*2*110*2.1 GHz, fp32 = 64*2*110*2.1 GHz, register file = 110*2.1 GHz*4*128, shared memory = 110*2.1 GHz*128, and fp8, fp4 and int32 are 0.0 |
| RocmMi250x.SpecForgetsHistory | tilelang/tools/tilesight/arch/rocm/mi250x.py:11-73 | spec mode gives the same state from any two states that agree on the three slots it never assigns |
| RocmMi250x.SpecIdempotent | tilelang/tools/tilesight/arch/rocm/mi250x.py:11-73 | calling spec mode twice from any state gives the state of calling it once |
| RocmMi250x.MicrobenchIdempotent | tilelang/tools/tilesight/arch/rocm/mi250x.py:75-96 | calling microbench twice from any state gives the state of calling it once |
| RocmMi250x.NcuIdempotent | tilelang/tools/tilesight/arch/rocm/mi250x.py:98-112 | calling NCU mode twice from any state gives the state of calling it once |
| RocmMi250x.MicrobenchLeavesStaleFields | tilelang/tools/tilesight/arch/rocm/mi250x.py:75-96 | after microbench from construction, the fp64, SFU and register-file figures are still those of 2.1 GHz while the clock is 1.36 GHz, so the state is not consistent |
| RocmMi250x.NcuDiscardsMicrobench | tilelang/tools/tilesight/arch/rocm/mi250x.py:98-112 | NCU after microbench equals NCU on the prior state with only the DRAM and L2 bandwidths replaced |
| RocmMi250x.SpecRestoresConstruction | tilelang/tools/tilesight/arch/rocm/mi250x.py:6-9 | spec after microbench, or after microbench then NCU, restores the constructed state |
| RocmMi250x.Mi250x.constructor | tilelang/tools/tilesight/arch/rocm/mi250x.py:6-9 | the new device is in the constructed spec state |
| RocmMi250x.Mi250x.SetToSpec | tilelang/tools/tilesight/arch/rocm/mi250x.py:11-73 | the object afterwards is `AfterSetToSpec` of its previous state, and the object itself is returned |
| RocmMi250x.Mi250x.SetToMicrobench | tilelang/tools/tilesight/arch/rocm/mi250x.py:75-96 | the object afterwards is `AfterSetToMicrobench` of its previous state, and the object itself is returned |
| RocmMi250x.Mi250x.SetToNcu | tilelang/tools/tilesight/arch/rocm/mi250x.py:98-112 | the object afterwards is `AfterSetToNcu` of its previous state, and the object itself is returned |

## Left out

- `unit_type` and `dtype` of a compute unit are descriptive tags that no computation reads; they are not stored.
- Floating point: frequencies, bandwidths and FLOPs/s are exact `real`s. IEEE-754 rounding of products such as `1.83 * 1e9` is not modelled. Counts are unbounded `int`s, as Python's are.
- Attributes that `Arch.__init__` does not define behave differently in Python. An undefined slot (tested with `hasattr`) is `None` in the model. An undefined derived FLOPs field (fp8, fp4, fp16/fp64/int32 core) is 0.0 in the model; Python would raise on reading it before the first `compute_flops`. Every modelled path writes these fields before reading them.
- `ValidUnit` (positive instances, ops per element and tile extents) is only a hypothesis of the lemmas. The source validates no argument, and the functions accept any unit.
- Exceptions are modelled by returned `Error` values that carry the exception type and the operation or attribute name, not the message text.
- CudaH100Pcie.H100Pcie.SetToSpec: returns only the raised exception; on success Python returns the object itself, which the model does not return.
- CudaH100Pcie.AfterSetToSpec: states the half-configured state on the failing path only partly in its postcondition (scalars, three cleared slots, two zeroed figures, untouched INT8). The function body and the method `CudaH100Pcie.H100Pcie.SetToSpec` give the whole state.
- Subclassing is modelled by composition: each device object holds its base `Arch` in `arch`. The H100 PCIe-only attributes (`base_freq`, `max_freq`, `warp_schedulers_per_sm`, `int8_flops`) are fields of the device class.
- `utils/device_factory.py` is not part of this model. It is a fixed table from five device names to device classes (lines 23-35), plus a lookup that raises `ValueError` for an unknown name and otherwise constructs the class (lines 54-66). It reads no environment. Its second `None` check (line 62) can never fire, because line 55 already raised. Two of its five classes lie outside the three devices modelled here.
- `utils/get_device_name.py` is not part of this model: it asks the TVM runtime which CUDA or ROCm device is present.
- `carver/arch/driver/hip_driver.py` is not part of this model: it calls the `libamdhip64` HIP library through ctypes.
- The package `__init__` files only re-export names.

## Findings

| source | as written | input that shows it | evidently intended | confidence | as-written member | corrected member |
|---|---|---|---|---|---|---|
| tilelang/tools/tilesight/arch/cuda/h100_pcie.py:58 | `set_to_spec` reads `max_freq`, which neither `Arch.__init__` nor `set_to_spec` defines. On a fresh object it raises AttributeError; after another mode it silently keeps that mode's clock | `H100_PCIE()`: construction always raises, so no object survives it. The second effect (`set_to_ncu()` then `set_to_spec()` runs at 1.06 GHz) shows only on an object that skipped `__init__` or had `max_freq` set by hand | spec mode runs at the table's 1.755 GHz clock (line 22), with `max_freq` defined as that boost clock before it is read | high that construction fails on a fresh object; medium for the intended clock; not executed | CudaH100Pcie.ConstructionRaises | CudaH100Pcie.SpecCorrectedRunsAtSpecFreq |
