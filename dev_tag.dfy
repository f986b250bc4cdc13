/**
 * The device tag a DataBuffer carries: which CUDA device its memory lives on
 * and which stream its asynchronous copies are enqueued on.  DevTag.hpp is not
 * part of this model, so the tag is a plain value pair.
 */
module DevTags {

  /** A CUDA stream handle; 0 stands for the default stream. */
  type StreamId = nat

  datatype DevTag = DevTag(deviceId: int, streamId: StreamId)

  /**
   * The value-initialised tag (`DevTag<DevTagT>{}`).  Its contents are not
   * visible here; it is taken to be device 0 on the default stream, the same
   * defaults the DataBuffer constructor uses.  No property below depends on it.
   */
  const DefaultTag: DevTag := DevTag(0, 0)
}
