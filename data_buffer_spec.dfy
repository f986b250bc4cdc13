/**
 * Value-level semantics of `Pennylane::CUDA::DataBuffer`: what each operation
 * does to the buffer's recorded length, its device tag and the contents of its
 * device allocation, with the size guards encoded exactly as the code writes
 * them.  The class in CudaDataBuffer is proved against these functions.
 *
 * A failing `PL_ABORT_IF_NOT` leaves the operation at once (nothing after it
 * runs); it is reported as `Abort`, together with the state reached at that
 * point.  A transfer that would read or write outside an allocation is
 * undefined behaviour (or a driver error) in the code; the model refuses to
 * perform it and reports `Fault`.
 */
module DataBufferSpec {
  import opened DevTags

  datatype Option<T> = None | Some(value: T)

  datatype Status = Ok | Abort | Fault

  /**
   * The observable state of one buffer: `length_`, `dev_tag_`, and the
   * contents of the allocation `gpu_buffer_` points to (None for a null
   * pointer).  The allocation's size is kept apart from `length`, because the
   * assignment operators change `length_` without reallocating.
   */
  datatype BufferState<T> = BufferState(length: nat, tag: DevTag, storage: Option<seq<T>>)

  /** Number of elements the allocation holds; a null pointer holds none. */
  function Capacity<T>(b: BufferState<T>): nat {
    if b.storage.Some? then |b.storage.value| else 0
  }

  /** Elements a pointer to this buffer's memory can be read from. */
  function Contents<T>(b: BufferState<T>): seq<T> {
    if b.storage.Some? then b.storage.value else []
  }

  /**
   * The documented invariant of a buffer: its memory is either unallocated
   * or exactly `length` elements large.
   */
  predicate Sized<T>(b: BufferState<T>) {
    b.storage.None? || |b.storage.value| == b.length
  }

  // ---------------------------------------------------------------------
  // Guards, as written
  // ---------------------------------------------------------------------

  /** Device-to-device guard: the copy proceeds only if `getLength() < length`. */
  predicate DeviceCopyGuard(dstLength: nat, srcLength: nat) {
    dstLength < srcLength
  }

  /** Host-to-device guard, in bytes: `getLength()*sizeof(GPUDataT) < length*sizeof(HostDataT)`. */
  predicate HostToDeviceGuard(gpuLength: nat, gpuSize: nat, hostLength: nat, hostSize: nat) {
    gpuLength * gpuSize < hostLength * hostSize
  }

  /** Device-to-host guard, in bytes: `getLength()*sizeof(GPUDataT) > length*sizeof(HostDataT)`. */
  predicate DeviceToHostGuard(gpuLength: nat, gpuSize: nat, hostLength: nat, hostSize: nat) {
    gpuLength * gpuSize > hostLength * hostSize
  }

  /**
   * When the host and device element types are the same, the byte guards
   * compare element counts: host-to-device proceeds only if the buffer is
   * strictly shorter than the host array, device-to-host only if it is
   * strictly longer.
   */
  lemma SameTypeHostGuards(gpuLength: nat, hostLength: nat, size: nat)
    requires size > 0
    ensures HostToDeviceGuard(gpuLength, size, hostLength, size) <==> gpuLength < hostLength
    ensures DeviceToHostGuard(gpuLength, size, hostLength, size) <==> gpuLength > hostLength
  {
  }

  // ---------------------------------------------------------------------
  // One memcpy
  // ---------------------------------------------------------------------

  /** A transfer of `n` elements stays inside both the source and the destination. */
  predicate Fits(n: nat, srcSize: nat, dstSize: nat) {
    n <= srcSize && n <= dstSize
  }

  /** The destination after the first `n` elements of `src` are copied over it. */
  function Transfer<T>(dst: seq<T>, src: seq<T>, n: nat): (r: seq<T>)
    requires Fits(n, |src|, |dst|)
    ensures |r| == |dst|
    ensures forall i :: 0 <= i < n ==> r[i] == src[i]
    ensures forall i :: n <= i < |dst| ==> r[i] == dst[i]
  {
    src[..n] + dst[n..]
  }

  // ---------------------------------------------------------------------
  // The copy primitives
  // ---------------------------------------------------------------------

  /**
   * `CopyGpuDataToGpu(gpu_in, length)` and, for equal element types,
   * `CopyHostDataToGpu(host_in, length)`: `src` is what the source pointer
   * addresses and `length` the element count the caller passes.  It aborts
   * unless the buffer is strictly shorter than `length`, then copies
   * `getLength()` elements -- the destination's own length -- from the front
   * of the source.  The length and the tag never change.
   */
  function CopyToDevice<T>(b: BufferState<T>, src: seq<T>, length: nat): (r: (Status, BufferState<T>))
    ensures r.0 == Abort <==> !DeviceCopyGuard(b.length, length)
    ensures r.0 == Fault <==> DeviceCopyGuard(b.length, length) && !Fits(b.length, |src|, Capacity(b))
    ensures r.1.length == b.length && r.1.tag == b.tag
    ensures r.1.storage.Some? == b.storage.Some? && Capacity(r.1) == Capacity(b)
    ensures r.0 != Ok ==> r.1 == b
    ensures r.0 == Ok ==>
              (forall i :: 0 <= i < b.length ==> Contents(r.1)[i] == src[i]) &&
              (forall i :: b.length <= i < Capacity(b) ==> Contents(r.1)[i] == Contents(b)[i])
  {
    if !DeviceCopyGuard(b.length, length) then (Abort, b)
    else if !Fits(b.length, |src|, Capacity(b)) then (Fault, b)
    else match b.storage
      case None => (Ok, b)
      case Some(d) => (Ok, b.(storage := Some(Transfer(d, src, b.length))))
  }

  /**
   * `CopyGpuDataToHost(host_out, length)` for equal element types: `host` is
   * the host array before the call, `length` the count the caller passes.  It
   * aborts unless the buffer is strictly longer than `length`, then writes
   * `getLength()` elements into the host array.  The buffer itself is not
   * part of the result: the operation is `const`.
   */
  function CopyToHost<T>(b: BufferState<T>, host: seq<T>, length: nat): (r: (Status, seq<T>))
    ensures |r.1| == |host|
    ensures r.0 == Abort <==> !(b.length > length)
    ensures r.0 == Fault <==> b.length > length && !Fits(b.length, Capacity(b), |host|)
    ensures r.0 != Ok ==> r.1 == host
    ensures r.0 == Ok ==>
              (forall i :: 0 <= i < b.length ==> r.1[i] == Contents(b)[i]) &&
              (forall i :: b.length <= i < |host| ==> r.1[i] == host[i])
  {
    if !(b.length > length) then (Abort, host)
    else if !Fits(b.length, Capacity(b), |host|) then (Fault, host)
    else (Ok, Transfer(host, Contents(b), b.length))
  }

  /**
   * A host array whose size is the `length` passed with it is never filled
   * by `CopyGpuDataToHost`: the guard lets through only buffers longer than
   * the array, and then the write of `getLength()` elements leaves the array.
   */
  lemma CopyToHostOverrunsHost<T>(b: BufferState<T>, host: seq<T>)
    ensures CopyToHost(b, host, |host|).0 != Ok
    ensures CopyToHost(b, host, |host|).0 == Fault <==> b.length > |host|
  {
  }

  /**
   * One host array of `n` elements, passed with its own size, can never be
   * both uploaded to a buffer and downloaded from it: the two guards demand
   * `getLength() < n` and `getLength() > n`.
   */
  lemma NoHostRoundTrip<T>(b: BufferState<T>, hostIn: seq<T>, hostOut: seq<T>)
    requires |hostIn| == |hostOut|
    ensures var up := CopyToDevice(b, hostIn, |hostIn|);
            !(up.0 == Ok && CopyToHost(up.1, hostOut, |hostOut|).0 == Ok)
  {
  }

  /** Copying into a buffer of the documented shape keeps that shape. */
  lemma CopyToDeviceKeepsSized<T>(b: BufferState<T>, src: seq<T>, length: nat)
    requires Sized(b)
    ensures Sized(CopyToDevice(b, src, length).1)
  {
  }

  // ---------------------------------------------------------------------
  // The assignment operators
  // ---------------------------------------------------------------------

  /**
   * `operator=(const DataBuffer&)` between two distinct buffers, with
   * `currentDevice` the result of `cudaGetDevice`.  The length is set to the
   * source's and the tag to (current device, source stream) before the copy
   * is attempted; the copy is then asked for `other.length_` elements into a
   * buffer whose length is already `other.length_`, so the strict guard
   * always fails: the assignment always aborts, the destination keeps its old
   * memory, and never receives the source's contents.
   */
  function CopyAssignDistinct<T>(dst: BufferState<T>, src: BufferState<T>, currentDevice: int): (r: (Status, BufferState<T>))
    ensures r.0 == Abort
    ensures r.1.length == src.length
    ensures r.1.tag == DevTag(currentDevice, src.tag.streamId)
    ensures r.1.storage == dst.storage
  {
    var rebound := BufferState(src.length, DevTag(currentDevice, src.tag.streamId), dst.storage);
    CopyToDevice(rebound, Contents(src), src.length)
  }

  /**
   * `operator=(DataBuffer&&)` between two distinct buffers, giving the status
   * and the new states of the destination and of the source.
   *
   * Same device: the destination takes the source's length and tag, takes
   * the pointer and then sets its own pointer to null; the source's length
   * becomes 0 while it keeps its pointer.
   * Another device: the destination's length and tag are rebound and the
   * copy is attempted, which always aborts (as in copy-assignment), so the
   * resets that follow are never reached.
   */
  function MoveAssignDistinct<T>(dst: BufferState<T>, src: BufferState<T>, currentDevice: int)
    : (r: (Status, BufferState<T>, BufferState<T>))
    ensures r.0 == Ok <==> currentDevice == src.tag.deviceId
    ensures r.0 != Ok ==> r.0 == Abort
    ensures r.1.length == src.length
    ensures r.1.tag.deviceId == currentDevice && r.1.tag.streamId == src.tag.streamId
    ensures r.0 == Ok ==> r.1.tag == src.tag && r.1.storage.None?
    ensures r.0 == Ok ==> r.2.length == 0 && r.2.tag == src.tag && r.2.storage == src.storage
    ensures r.0 == Abort ==> r.1.storage == dst.storage && r.2 == src
  {
    if currentDevice == src.tag.deviceId then
      var taken := BufferState(src.length, src.tag, src.storage);
      (Ok, taken.(storage := None), src.(length := 0))
    else
      var rebound := BufferState(src.length, DevTag(currentDevice, src.tag.streamId), dst.storage);
      var (status, copied) := CopyToDevice(rebound, Contents(src), src.length);
      if status != Ok then (status, copied, src)
      // Unreachable as written (the copy above always aborts); kept to mirror
      // lines 84, 86 and 87.
      else (Ok, copied.(storage := None), MovedFrom(src))
  }

  /**
   * The source after lines 84 and 86 of the cross-device path: length 0,
   * default tag.  Only the unreachable arm of MoveAssignDistinct uses it.
   */
  function MovedFrom<T>(b: BufferState<T>): BufferState<T> {
    BufferState(0, DefaultTag, b.storage)
  }

  /**
   * A same-device move from an allocated, non-empty buffer of the documented
   * shape breaks that shape: the source still holds all of its memory but
   * records length 0, and the destination records the length with no memory.
   */
  lemma MoveAssignBreaksSized<T>(dst: BufferState<T>, src: BufferState<T>, currentDevice: int)
    requires Sized(src) && src.storage.Some? && src.length > 0
    requires currentDevice == src.tag.deviceId
    ensures var (status, d, s) := MoveAssignDistinct(dst, src, currentDevice);
            status == Ok && !Sized(s) && d.length > Capacity(d)
  {
  }

  // ---------------------------------------------------------------------
  // Programs over one buffer
  // ---------------------------------------------------------------------

  /** One call a program makes on a buffer it holds. */
  datatype Operation<T> =
    | CopyIn(src: seq<T>, length: nat)                          // CopyGpuDataToGpu, CopyHostDataToGpu
    | CopyOut(host: seq<T>, length: nat)                        // CopyGpuDataToHost
    | CopyAssignFrom(other: BufferState<T>, currentDevice: int) // *this = other, other distinct
    | MoveAssignFrom(other: BufferState<T>, currentDevice: int) // *this = std::move(other), other distinct

  /** The status of one call and the buffer's state after it. */
  function Apply<T>(b: BufferState<T>, op: Operation<T>): (r: (Status, BufferState<T>))
    ensures Capacity(r.1) == Capacity(b) || r.1.storage.None?
    ensures b.storage.None? ==> r.1.storage.None?
    ensures op.CopyAssignFrom? ==> r.0 == Abort
  {
    match op
    case CopyIn(src, length) => CopyToDevice(b, src, length)
    case CopyOut(host, length) => (CopyToHost(b, host, length).0, b)
    case CopyAssignFrom(other, device) => CopyAssignDistinct(b, other, device)
    case MoveAssignFrom(other, device) =>
      var (status, d, _) := MoveAssignDistinct(b, other, device);
      (status, d)
  }

  /**
   * A program's calls on one buffer, in order; the first abort or fault ends
   * it.  No program ever gives a buffer new memory: at the end the buffer has
   * the memory of its construction, of the same size, or none, and a buffer
   * without memory never regains any.  A program that copy-assigns into the
   * buffer never runs to completion.
   */
  function Run<T>(b: BufferState<T>, ops: seq<Operation<T>>): (r: (Status, BufferState<T>))
    ensures Capacity(r.1) == Capacity(b) || r.1.storage.None?
    ensures b.storage.None? ==> r.1.storage.None?
    ensures (exists i :: 0 <= i < |ops| && ops[i].CopyAssignFrom?) ==> r.0 != Ok
    decreases |ops|
  {
    if ops == [] then (Ok, b)
    else
      var (status, next) := Apply(b, ops[0]);
      if status != Ok then (status, next)
      else
        assert forall i :: 1 <= i < |ops| ==> ops[i] == ops[1..][i - 1];
        Run(next, ops[1..])
  }
}
