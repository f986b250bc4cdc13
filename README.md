# DataBuffer: a verified model of PennyLane Lightning GPU's device buffer

This project models `Pennylane::CUDA::DataBuffer`, the class that owns one
block of CUDA device memory in PennyLane Lightning GPU. A buffer has three
fields: its element count (`length_`), its device tag (device id and stream),
and its device pointer (`gpu_buffer_`). The model covers:
- the three constructors;
- copy- and move-assignment, which rebind the buffer to the device that is
  current at the time of the call;
- the copy primitives `CopyGpuDataToGpu` (both overloads),
  `CopyHostDataToGpu` and `CopyGpuDataToHost`.

The size guards are encoded exactly as the code writes them. Their
consequences are then proved, including those that contradict the guards'
own messages.

Modules:
- `DevTags` (`dev_tag.dfy`): the device tag as a value (device id, stream id).
- `DataBufferSpec` (`data_buffer_spec.dfy`): the value-level semantics.
  - `BufferState` holds the length, the tag and the contents of the
    allocation. The allocation is `None` for a null pointer, and its size is
    kept apart from `length`.
  - One function per operation, with the properties stated in their
    contracts and in lemmas.
- `CudaDataBuffer` (`data_buffer.dfy`): the class `DataBuffer<T>`.
  - Its fields are `length`, `devTag`, and `gpuBuffer: array?<T>`.
  - Each method's postcondition ties the new state (`State()`) to the
    matching `DataBufferSpec` function of the old state.
- `DataBufferFindings` (`findings.dfy`): the behaviour that the guard
  messages describe, with the properties the code as written lacks.

Conventions:
- **Failed guard.** A failing `PL_ABORT_IF_NOT` ends the operation. The model
  returns `Status.Abort` with the state reached at that point, and no later
  statement of the operation runs.
- **Out-of-bounds transfer.** A transfer that would read or write outside an
  allocation is undefined behaviour in the code. The model refuses it and
  reports `Status.Fault`.
- **Current device.** The device that `cudaGetDevice` would report is the
  parameter `currentDevice`.
- **Self-assignment.** Taking the address of `other` and comparing it with
  `this` becomes Dafny reference equality.

## Model

| member | source | states |
|---|---|---|
| `DataBufferSpec.SameTypeHostGuards` | pennylane_lightning_gpu/src/util/DataBuffer.hpp:147-148 | with equal host and device element sizes, the host-to-device byte guard holds iff the buffer is strictly shorter than the host length; the device-to-host guard (line 170) holds iff it is strictly longer |
| `DataBufferSpec.Transfer` | pennylane_lightning_gpu/src/util/DataBuffer.hpp:121-129 | a memcpy of `n` elements: the destination keeps its size, its first `n` elements come from the source, and the rest are untouched |
| `DataBufferSpec.CopyToDevice` | pennylane_lightning_gpu/src/util/DataBuffer.hpp:115-130 | aborts iff `getLength() < length` is false; otherwise it faults iff `getLength()` elements do not fit in both allocations, and else overwrites exactly the first `getLength()` elements with the source's prefix; length and tag never change; the state does not change unless the copy succeeds |
| `DataBufferSpec.CopyToHost` | pennylane_lightning_gpu/src/util/DataBuffer.hpp:166-182 | aborts iff `getLength() > length` is false; otherwise it faults iff the transfer leaves the device or host allocation, and else writes the first `getLength()` device elements into the host array and leaves the rest of the array as it was |
| `DataBufferSpec.CopyToHostOverrunsHost` | pennylane_lightning_gpu/src/util/DataBuffer.hpp:169-180 | a host array passed with its own size is never filled: the copy either aborts or faults, and it faults exactly when the buffer is longer than the array |
| `DataBufferSpec.NoHostRoundTrip` | pennylane_lightning_gpu/src/util/DataBuffer.hpp:145-182 | no host array passed with its own size can be uploaded to a buffer and then downloaded into an array of the same size: the two guards exclude each other |
| `DataBufferSpec.CopyToDeviceKeepsSized` | pennylane_lightning_gpu/src/util/DataBuffer.hpp:115-130 | a copy into a buffer whose memory is null or exactly `length` elements keeps it so |
| `DataBufferSpec.CopyAssignDistinct` | pennylane_lightning_gpu/src/util/DataBuffer.hpp:60-70 | copy-assignment between distinct buffers always aborts; it first sets the length to the source's and the tag to (current device, source stream), and the destination keeps its old memory |
| `DataBufferSpec.MoveAssignDistinct` | pennylane_lightning_gpu/src/util/DataBuffer.hpp:72-90 | between distinct buffers, a move succeeds iff the current device is the source's device, and otherwise aborts; either way the destination takes the source's length and stream and is bound to the current device; on success the destination has a null pointer and the source has length 0 with its tag and pointer unchanged; on abort the source is untouched and the destination keeps its memory |
| `DataBufferSpec.MoveAssignBreaksSized` | pennylane_lightning_gpu/src/util/DataBuffer.hpp:76-87 | a same-device move from a non-empty allocated buffer leaves the source with all of its memory but length 0, and the destination with a length larger than its (null) memory |
| `DataBufferSpec.Apply` | pennylane_lightning_gpu/src/util/DataBuffer.hpp:60-182 | one call on a buffer (a copy in, a copy out, a copy- or move-assignment from a distinct buffer): it never allocates; the buffer keeps memory of its capacity or has none, and copy-assignment aborts |
| `DataBufferSpec.Run` | pennylane_lightning_gpu/src/util/DataBuffer.hpp:60-182 | over any sequence of such calls, ended by the first abort or fault, the buffer ends with memory of the capacity it started with, or none; once without memory it never regains any; any sequence containing a copy-assignment does not complete |
| `CudaDataBuffer.Memcpy` | pennylane_lightning_gpu/src/util/DataBuffer.hpp:121-129 | `cudaMemcpy` and `cudaMemcpyAsync` with the same immediate effect: `Ok` iff `n` elements fit in source and destination, with the destination then equal to `Transfer`; otherwise `Fault` and nothing written |
| `CudaDataBuffer.DataBuffer.constructor` | pennylane_lightning_gpu/src/util/DataBuffer.hpp:28-36 | records `length` and the tag `(device_id, stream_id)`; memory is allocated, freshly and with exactly `length` elements, iff `alloc_memory && length > 0`, and is null otherwise |
| `CudaDataBuffer.DataBuffer.FromTag` | pennylane_lightning_gpu/src/util/DataBuffer.hpp:38-56 | the same for a given `DevTag`, passed by reference or moved in |
| `CudaDataBuffer.DataBuffer.GetData` | pennylane_lightning_gpu/src/util/DataBuffer.hpp:98-99 | returns the device pointer and reads nothing but the buffer object's fields |
| `CudaDataBuffer.DataBuffer.GetLength` | pennylane_lightning_gpu/src/util/DataBuffer.hpp:100 | returns the recorded length and reads nothing but the buffer object's fields |
| `CudaDataBuffer.DataBuffer.GetStream` | pennylane_lightning_gpu/src/util/DataBuffer.hpp:107-109 | returns the tag's stream and reads nothing but the buffer object's fields |
| `CudaDataBuffer.DataBuffer.CopyGpuDataToGpu` | pennylane_lightning_gpu/src/util/DataBuffer.hpp:115-130 | status and new state are `CopyToDevice` of the old state and the source pointer's contents, whether `async` is set or not; only the buffer's memory may change |
| `CudaDataBuffer.DataBuffer.CopyGpuDataToGpuBuffer` | pennylane_lightning_gpu/src/util/DataBuffer.hpp:136-138 | exactly the pointer form with `buffer.getData()` and `buffer.getLength()` |
| `CudaDataBuffer.DataBuffer.CopyHostDataToGpu` | pennylane_lightning_gpu/src/util/DataBuffer.hpp:145-160 | status and new state are `CopyToDevice` of the old state and the host data, with either `async`; length, tag and pointer are unchanged |
| `CudaDataBuffer.DataBuffer.CopyGpuDataToHost` | pennylane_lightning_gpu/src/util/DataBuffer.hpp:166-182 | status and new host contents are `CopyToHost` of the old state, with either `async`; the buffer's state is unchanged, as the `const` qualifier promises |
| `CudaDataBuffer.DataBuffer.CopyAssign` | pennylane_lightning_gpu/src/util/DataBuffer.hpp:60-70 | self-assignment changes nothing and returns `Ok`; otherwise status and new state are `CopyAssignDistinct`, and `other` is unchanged |
| `CudaDataBuffer.DataBuffer.MoveAssign` | pennylane_lightning_gpu/src/util/DataBuffer.hpp:72-90 | self-move changes nothing; otherwise status and both new states are `MoveAssignDistinct`; on success this buffer's pointer is null while `other` keeps its own; on abort `other` is untouched |
| `DataBufferFindings.CorrectedCopyToDevice` | pennylane_lightning_gpu/src/util/DataBuffer.hpp:117-120 | the copy with the size check its message describes: aborts iff the lengths differ, and otherwise copies as `CopyToDevice` does |
| `DataBufferFindings.CorrectedCopyToHost` | pennylane_lightning_gpu/src/util/DataBuffer.hpp:169-172 | the device-to-host copy aborting iff the lengths differ |
| `DataBufferFindings.CorrectedHostRoundTrip` | pennylane_lightning_gpu/src/util/DataBuffer.hpp:145-182 | with matching-size checks, host data uploaded to a buffer of exactly its size and read back comes back identical |
| `DataBufferFindings.CorrectedCopyAssign` | pennylane_lightning_gpu/src/util/DataBuffer.hpp:60-70 | copy-assignment over the corrected copy: takes the source's length and is bound to (current device, source stream) |
| `DataBufferFindings.CorrectedCopyAssignCopies` | pennylane_lightning_gpu/src/util/DataBuffer.hpp:60-70 | with the corrected check, assignment into memory as large as the source's length completes, and the destination then holds the source's contents |
| `DataBufferFindings.CorrectedMoveAssign` | pennylane_lightning_gpu/src/util/DataBuffer.hpp:72-90 | the move with line 87 clearing the source's pointer: the source ends with length 0 and no memory |
| `DataBufferFindings.CorrectedMoveTransfersOwnership` | pennylane_lightning_gpu/src/util/DataBuffer.hpp:72-90 | the corrected move hands the source's memory itself to the destination on the same device, or a copy across devices; both buffers keep the documented shape |

## Left out

- CUDA runtime calls are not modelled as such (`cudaMalloc`, `cudaMemcpy(Async)`, `cudaFree`, `cudaGetDevice`):
  - allocation is `new T[length]`, whose contents are left unconstrained;
  - copies are `Memcpy`;
  - the current device is a parameter.
- Driver failures checked by `PL_CUDA_IS_SUCCESS` are assumed away, including a failing allocation.
- Streams and asynchrony: an async copy takes effect immediately, exactly like a sync copy. Enqueue order and waiting on the stream are not modelled.
- Mixed `HostDataT`/`GPUDataT` copies are not modelled:
  - the host copies are modelled only for host elements of the device type, the template's default;
  - `SameTypeHostGuards` shows that under this restriction the byte guards reduce to element counts;
  - copies that reinterpret bytes between different element types are left out.
- DataBufferSpec.SameTypeHostGuards: lengths and byte counts are unbounded integers, whereas `length_`, `length` and the products `n * sizeof(T)` at lines 34, 123, 148 and 170 are `std::size_t` and wrap modulo 2^64. The model assumes that no element count times the element size ever wraps. For example, with 16-byte elements and `length == 2^60`, the product at line 148 wraps to 0 and the copy aborts, while the model lets it proceed.
- The destructor, the default constructor, and freeing memory (lines 58, 96):
  - the fields of a default-constructed buffer are uninitialised in the code;
  - an unallocated pointer is modelled as null;
  - leaks are not tracked: in a same-device move the destination's own earlier allocation is overwritten at line 79 without `cudaFree` and is lost (the pointer nulled at line 87 is still held, and later freed, by `other`).
- The deleted copy constructor (line 94): the class simply has no constructor that takes another buffer.
- Default arguments (`device_id = 0`, `stream_id = 0`, `alloc_memory = true`, `async = false`): Dafny's constructors and methods take every argument explicitly.
- DevTag.hpp is not part of this model:
  - the tag is a (device id, stream id) pair;
  - the value-initialised tag `{}` is taken to be device 0 on stream 0;
  - a moved-from tag is taken to keep its value.
- Control flow after an abort: whether `PL_ABORT_IF_NOT` ends the process or throws is not visible here. The model only stops the operation, so on the cross-device move path lines 84, 86 and 87 are never reached.
- `CudaDataBuffer.DataBuffer.CopyGpuDataToHost`: its precondition that the host array is not the buffer's own device memory reflects the separate host and device address spaces. Unified memory is not modelled.
- The state-vector engine, the gate-matrix cache and the bit-indexed kernel are only included by the code here, not present, so they are not part of this model. The same holds for the floating-point gate tests in `Test_StateVectorCudaRaw_Param.cpp` and the Python re-export list in `module_bindings.py`.

## Findings

| source | as written | input that shows it | evidently intended | confidence | as-written member | corrected member |
|---|---|---|---|---|---|---|
| pennylane_lightning_gpu/src/util/DataBuffer.hpp:117-118 | the copy proceeds only if `getLength() < length`, although the message asks that the source be no larger than the destination; copy-assignment sets `length_ = other.length_` just before calling it | any two distinct buffers, e.g. both of length 4: copy-assignment always aborts | the copy proceeds when the sizes match | high (not executed) | `DataBufferSpec.CopyAssignDistinct` | `DataBufferFindings.CorrectedCopyAssignCopies` |
| pennylane_lightning_gpu/src/util/DataBuffer.hpp:147-148 | host-to-device proceeds only if the buffer is strictly shorter than the host data | a buffer of length 4 and 4 host elements: aborts; with the download guard, no equal-size round trip exists | the copy proceeds when the sizes match | high (not executed) | `DataBufferSpec.NoHostRoundTrip` | `DataBufferFindings.CorrectedHostRoundTrip` |
| pennylane_lightning_gpu/src/util/DataBuffer.hpp:169-170 | device-to-host proceeds only if the buffer is strictly longer than the host array, and then writes `getLength()` elements into it | a buffer of length 3 and a host array of 2: the write overruns the array by one element | the copy proceeds when the sizes match | high (not executed) | `DataBufferSpec.CopyToHostOverrunsHost` | `DataBufferFindings.CorrectedHostRoundTrip` |
| pennylane_lightning_gpu/src/util/DataBuffer.hpp:87 | `gpu_buffer_ = nullptr` clears the destination's pointer right after it took the source's | a same-device move from an allocated buffer of length 2: the destination has length 2 and no memory, the source length 0 and all its memory | `other.gpu_buffer_ = nullptr` | high (not executed) | `DataBufferSpec.MoveAssignBreaksSized` | `DataBufferFindings.CorrectedMoveTransfersOwnership` |

The class `CudaDataBuffer.DataBuffer` follows the code as written: it is the
model of that code. The corrected definitions stand beside it in
`DataBufferFindings`.
