/**
 * `Pennylane::CUDA::DataBuffer` as a class: an owned block of device memory
 * (an array, or null when nothing is allocated), the element count `length_`
 * and the device tag.  Every operation is proved against its counterpart in
 * DataBufferSpec.  The active device that `cudaGetDevice` would report is a
 * parameter; the CUDA runtime calls themselves are modelled by `Memcpy` and by
 * array allocation, with driver failures assumed away.
 */
module CudaDataBuffer {
  import opened DevTags
  import opened DataBufferSpec

  /** The elements a device or host pointer addresses; a null pointer addresses none. */
  function Pointee<T>(p: array?<T>): seq<T>
    reads p
  {
    if p == null then [] else p[..]
  }

  /**
   * `cudaMemcpy` / `cudaMemcpyAsync` of `n` elements from `src` to `dst`.
   * Stream ordering is not modelled, so both take effect at once.  A transfer
   * that would leave either allocation is refused with `Fault`.
   */
  method Memcpy<T>(dst: array?<T>, src: seq<T>, n: nat) returns (status: Status)
    modifies dst
    ensures status == (if Fits(n, |src|, |old(Pointee(dst))|) then Ok else Fault)
    ensures status == Ok && dst != null ==> dst[..] == Transfer(old(dst[..]), src, n)
    ensures status != Ok && dst != null ==> dst[..] == old(dst[..])
  {
    if !Fits(n, |src|, if dst == null then 0 else dst.Length) {
      return Fault;
    }
    if dst != null {
      ghost var before := dst[..];
      forall i | 0 <= i < n {
        dst[i] := src[i];
      }
      assert dst[..] == Transfer(before, src, n);
    }
    return Ok;
  }

  class DataBuffer<T(0)> {
    var length: nat
    var devTag: DevTag
    var gpuBuffer: array?<T>

    /** The buffer's observable state: length, tag and the contents of its memory. */
    function State(): BufferState<T>
      reads this, gpuBuffer
    {
      BufferState(length, devTag, if gpuBuffer == null then None else Some(gpuBuffer[..]))
    }

    /**
     * `DataBuffer(length, device_id, stream_id, alloc_memory)`: records the
     * length and the tag, and allocates exactly `length` elements iff
     * `alloc_memory && length > 0`.
     */
    constructor (length: nat, deviceId: int, streamId: StreamId, allocMemory: bool)
      ensures State().length == length && State().tag == DevTag(deviceId, streamId)
      ensures State().storage.Some? <==> allocMemory && length > 0
      ensures Capacity(State()) == (if allocMemory && length > 0 then length else 0)
      ensures Sized(State())
      ensures gpuBuffer != null ==> fresh(gpuBuffer)
    {
      this.length := length;
      devTag := DevTag(deviceId, streamId);
      if allocMemory && length > 0 {
        gpuBuffer := new T[length];
      } else {
        gpuBuffer := null;
      }
    }

    /**
     * `DataBuffer(length, dev, alloc_memory)`, for a tag passed by reference
     * or moved in: the same as above with the given tag.
     */
    constructor FromTag(length: nat, dev: DevTag, allocMemory: bool)
      ensures State().length == length && State().tag == dev
      ensures State().storage.Some? <==> allocMemory && length > 0
      ensures Capacity(State()) == (if allocMemory && length > 0 then length else 0)
      ensures Sized(State())
      ensures gpuBuffer != null ==> fresh(gpuBuffer)
    {
      this.length := length;
      devTag := dev;
      if allocMemory && length > 0 {
        gpuBuffer := new T[length];
      } else {
        gpuBuffer := null;
      }
    }

    /** `getData()` (both overloads): the device pointer, read from this object alone. */
    function GetData(): (p: array?<T>)
      reads this
      ensures p == gpuBuffer
    {
      gpuBuffer
    }

    /** `getLength()`: the recorded element count, read from this object alone. */
    function GetLength(): (n: nat)
      reads this
      ensures n == length
    {
      length
    }

    /** `getStream()`: the stream of the device tag, read from this object alone. */
    function GetStream(): (s: StreamId)
      reads this
      ensures s == devTag.streamId
    {
      devTag.streamId
    }

    /**
     * `CopyGpuDataToGpu(gpu_in, length, async)`: aborts unless
     * `getLength() < length`, then copies `getLength()` elements from
     * `gpuIn`.  Only the memory changes, and `async` makes no difference.
     */
    method CopyGpuDataToGpu(gpuIn: array?<T>, length: nat, async: bool) returns (status: Status)
      modifies gpuBuffer
      ensures (status, State()) == CopyToDevice(old(State()), old(Pointee(gpuIn)), length)
      ensures gpuBuffer == old(gpuBuffer)
    {
      if !DeviceCopyGuard(GetLength(), length) {
        return Abort;
      }
      var src := Pointee(gpuIn);
      if async {
        status := Memcpy(GetData(), src, GetLength());
      } else {
        status := Memcpy(GetData(), src, GetLength());
      }
    }

    /**
     * `CopyGpuDataToGpu(buffer, async)`: exactly the pointer form called with
     * `buffer.getData()` and `buffer.getLength()`.
     */
    method CopyGpuDataToGpuBuffer(buffer: DataBuffer<T>, async: bool) returns (status: Status)
      modifies gpuBuffer
      ensures (status, State()) == CopyToDevice(old(State()), old(Pointee(buffer.gpuBuffer)), old(buffer.length))
      ensures gpuBuffer == old(gpuBuffer)
    {
      status := CopyGpuDataToGpu(buffer.GetData(), buffer.GetLength(), async);
    }

    /**
     * `CopyHostDataToGpu(host_in, length, async)` with the host element type
     * equal to the device one: aborts unless `getLength() < length` (the byte
     * guard reduces to this, see SameTypeHostGuards), then copies
     * `getLength()` elements from the host data.
     */
    method CopyHostDataToGpu(hostIn: seq<T>, length: nat, async: bool) returns (status: Status)
      modifies gpuBuffer
      ensures (status, State()) == CopyToDevice(old(State()), hostIn, length)
      ensures gpuBuffer == old(gpuBuffer)
    {
      if !(GetLength() < length) {
        return Abort;
      }
      if async {
        status := Memcpy(GetData(), hostIn, GetLength());
      } else {
        status := Memcpy(GetData(), hostIn, GetLength());
      }
    }

    /**
     * `CopyGpuDataToHost(host_out, length, async) const` with equal element
     * types: aborts unless `getLength() > length`, then writes `getLength()`
     * elements into `hostOut`.  Host memory is not device memory, and the
     * buffer is left exactly as it was.
     */
    method CopyGpuDataToHost(hostOut: array<T>, length: nat, async: bool) returns (status: Status)
      requires hostOut != gpuBuffer
      modifies hostOut
      ensures (status, hostOut[..]) == CopyToHost(old(State()), old(hostOut[..]), length)
      ensures State() == old(State())
    {
      if !(GetLength() > length) {
        return Abort;
      }
      var src := Pointee(GetData());
      if !async {
        status := Memcpy(hostOut, src, GetLength());
      } else {
        status := Memcpy(hostOut, src, GetLength());
      }
    }

    /**
     * `operator=(const DataBuffer&)`, with `currentDevice` what
     * `cudaGetDevice` reports.  Self-assignment changes nothing; otherwise
     * the length and tag are rebound and the copy is attempted, which aborts.
     */
    method CopyAssign(other: DataBuffer<T>, currentDevice: int) returns (status: Status)
      modifies this, gpuBuffer
      ensures other == this ==> status == Ok && unchanged(this) && State() == old(State())
      ensures other != this ==>
                (status, State()) == CopyAssignDistinct(old(State()), old(other.State()), currentDevice)
      ensures other != this ==> other.State() == old(other.State())
      ensures gpuBuffer == old(gpuBuffer)
    {
      if this != other {
        var localDevId := currentDevice;
        length := other.length;
        devTag := DevTag(localDevId, other.devTag.streamId);
        status := CopyGpuDataToGpu(other.gpuBuffer, other.length, false);
      } else {
        status := Ok;
      }
    }

    /**
     * `operator=(DataBuffer&&)`, with `currentDevice` what `cudaGetDevice`
     * reports.  Self-move changes nothing.  On the same device the pointer is
     * handed over and then this object's own pointer is set to null, while
     * `other` keeps its pointer; on another device the copy is attempted, and
     * it aborts before `other` is reset.
     */
    method MoveAssign(other: DataBuffer<T>, currentDevice: int) returns (status: Status)
      modifies this, other, gpuBuffer
      ensures other == this ==> status == Ok && unchanged(this) && State() == old(State())
      ensures other != this ==>
                (status, State(), other.State()) ==
                MoveAssignDistinct(old(State()), old(other.State()), currentDevice)
      ensures other != this && status == Ok ==> gpuBuffer == null && other.gpuBuffer == old(other.gpuBuffer)
      ensures status != Ok ==> gpuBuffer == old(gpuBuffer) && unchanged(other)
    {
      status := Ok;
      if this != other {
        var localDevId := currentDevice;
        length := other.length;
        var sameDevice := localDevId == other.devTag.deviceId;
        if sameDevice {
          devTag := other.devTag;
          gpuBuffer := other.gpuBuffer;
        } else {
          devTag := DevTag(localDevId, other.devTag.streamId);
          status := CopyGpuDataToGpu(other.gpuBuffer, other.length, false);
          if status != Ok {
            return;
          }
        }
        // Line 84 resets `other`'s tag on the cross-device path once its copy
        // is done.  As written that copy always aborts (MoveAssignDistinct), so
        // the `else` arm is unreachable; it is kept to mirror lines 84 and 86.
        // A moved-from tag is otherwise left as it was.
        other.devTag := if sameDevice then other.devTag else DefaultTag;
        other.length := 0;
        gpuBuffer := null;
      }
    }
  }
}
