/**
 * The behaviour the abort messages of DataBuffer.hpp describe ("sizes do not
 * match"), next to the code as written in DataBufferSpec: copies that demand
 * equal sizes, and a move that empties the source instead of the destination.
 * Each is proved to do what the as-written code cannot.
 */
module DataBufferFindings {
  import opened DevTags
  import opened DataBufferSpec

  /** The size check the messages describe: source and destination sizes match. */
  predicate MatchingSizes(dstLength: nat, srcLength: nat) {
    dstLength == srcLength
  }

  /** A copy into device memory guarded by `MatchingSizes` instead of `<`. */
  function CorrectedCopyToDevice<T>(b: BufferState<T>, src: seq<T>, length: nat): (r: (Status, BufferState<T>))
    ensures r.0 == Abort <==> !MatchingSizes(b.length, length)
    ensures r.0 == Fault <==> MatchingSizes(b.length, length) && !Fits(b.length, |src|, Capacity(b))
    ensures r.1.length == b.length && r.1.tag == b.tag
    ensures r.1.storage.Some? == b.storage.Some? && Capacity(r.1) == Capacity(b)
    ensures r.0 != Ok ==> r.1 == b
    ensures r.0 == Ok ==>
              (forall i :: 0 <= i < b.length ==> Contents(r.1)[i] == src[i]) &&
              (forall i :: b.length <= i < Capacity(b) ==> Contents(r.1)[i] == Contents(b)[i])
  {
    if !MatchingSizes(b.length, length) then (Abort, b)
    else if !Fits(b.length, |src|, Capacity(b)) then (Fault, b)
    else match b.storage
      case None => (Ok, b)
      case Some(d) => (Ok, b.(storage := Some(Transfer(d, src, b.length))))
  }

  /** A copy to the host guarded by `MatchingSizes` instead of `>`. */
  function CorrectedCopyToHost<T>(b: BufferState<T>, host: seq<T>, length: nat): (r: (Status, seq<T>))
    ensures |r.1| == |host|
    ensures r.0 == Abort <==> !MatchingSizes(b.length, length)
    ensures r.0 == Fault <==> MatchingSizes(b.length, length) && !Fits(b.length, Capacity(b), |host|)
    ensures r.0 != Ok ==> r.1 == host
    ensures r.0 == Ok ==>
              (forall i :: 0 <= i < b.length ==> r.1[i] == Contents(b)[i]) &&
              (forall i :: b.length <= i < |host| ==> r.1[i] == host[i])
  {
    if !MatchingSizes(b.length, length) then (Abort, host)
    else if !Fits(b.length, Capacity(b), |host|) then (Fault, host)
    else (Ok, Transfer(host, Contents(b), b.length))
  }

  /**
   * With matching sizes, host data written to a buffer whose memory holds
   * exactly its length and read back into a host array of the same size
   * comes back unchanged.
   */
  lemma CorrectedHostRoundTrip<T>(b: BufferState<T>, hostIn: seq<T>, hostOut: seq<T>)
    requires Capacity(b) == b.length
    requires |hostIn| == b.length && |hostOut| == b.length
    ensures var up := CorrectedCopyToDevice(b, hostIn, |hostIn|);
            var down := CorrectedCopyToHost(up.1, hostOut, |hostOut|);
            up.0 == Ok && down.0 == Ok && down.1 == hostIn
  {
    var up := CorrectedCopyToDevice(b, hostIn, |hostIn|);
    assert Contents(up.1) == hostIn;
  }

  /** Copy-assignment whose copy is guarded by `MatchingSizes`. */
  function CorrectedCopyAssign<T>(dst: BufferState<T>, src: BufferState<T>, currentDevice: int): (r: (Status, BufferState<T>))
    ensures r.1.length == src.length
    ensures r.1.tag == DevTag(currentDevice, src.tag.streamId)
    ensures r.1.storage.Some? == dst.storage.Some?
  {
    var rebound := BufferState(src.length, DevTag(currentDevice, src.tag.streamId), dst.storage);
    CorrectedCopyToDevice(rebound, Contents(src), src.length)
  }

  /**
   * With matching sizes, assigning a buffer to another whose memory is as
   * large as the source's length completes, and the destination then holds a
   * copy of the source's contents, on the current device.
   */
  lemma CorrectedCopyAssignCopies<T>(dst: BufferState<T>, src: BufferState<T>, currentDevice: int)
    requires Capacity(dst) == src.length && Capacity(src) == src.length
    ensures var (status, d) := CorrectedCopyAssign(dst, src, currentDevice);
            status == Ok && Contents(d) == Contents(src) && Sized(d) &&
            d.tag == DevTag(currentDevice, src.tag.streamId)
  {
    var (status, d) := CorrectedCopyAssign(dst, src, currentDevice);
    assert Contents(d) == Contents(src);
  }

  /**
   * Move-assignment with line 87 clearing the source's pointer: the
   * destination keeps the pointer it took (or the memory it copied into), and
   * the source is left empty.
   */
  function CorrectedMoveAssign<T>(dst: BufferState<T>, src: BufferState<T>, currentDevice: int)
    : (r: (Status, BufferState<T>, BufferState<T>))
    ensures r.1.length == src.length
    ensures r.1.tag.deviceId == currentDevice && r.1.tag.streamId == src.tag.streamId
    ensures r.0 != Ok ==> r.2 == src
    ensures r.0 == Ok ==> r.2.length == 0 && r.2.storage.None?
  {
    if currentDevice == src.tag.deviceId then
      (Ok, BufferState(src.length, src.tag, src.storage), src.(length := 0, storage := None))
    else
      var rebound := BufferState(src.length, DevTag(currentDevice, src.tag.streamId), dst.storage);
      var (status, copied) := CorrectedCopyToDevice(rebound, Contents(src), src.length);
      if status != Ok then (status, copied, src)
      else (Ok, copied, BufferState(0, DefaultTag, None))
  }

  /**
   * The corrected move transfers ownership: on the same device the
   * destination takes the source's memory itself; across devices (into
   * memory of the right size) it receives a copy.  Either way both buffers
   * keep the documented shape and the source is emptied.
   */
  lemma CorrectedMoveTransfersOwnership<T>(dst: BufferState<T>, src: BufferState<T>, currentDevice: int)
    requires Capacity(src) == src.length
    requires currentDevice != src.tag.deviceId ==> Capacity(dst) == src.length
    ensures var (status, d, s) := CorrectedMoveAssign(dst, src, currentDevice);
            status == Ok && Contents(d) == Contents(src) && Sized(d) && Sized(s) &&
            s.length == 0 && s.storage.None? &&
            (currentDevice == src.tag.deviceId ==> d.storage == src.storage)
  {
    if currentDevice != src.tag.deviceId {
      var rebound := BufferState(src.length, DevTag(currentDevice, src.tag.streamId), dst.storage);
      var (status, copied) := CorrectedCopyToDevice(rebound, Contents(src), src.length);
      assert Contents(copied) == Contents(src);
    }
  }
}
