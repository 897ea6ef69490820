/** Map descriptors (`allocation::map_t`) and the operations a batch call applies to them. */
module Descriptors {

  /** A local address in the calling process; 0 is the null pointer. */
  type Address = nat

  const Null: Address := 0

  /** The per-descriptor `error_code`: clear, or the reason the entry failed. */
  datatype ErrorCode = NoError | OutOfRange | OutOfMemory | NotMapped

  /** One entry of a batch: `addr` and `ec` are written by the callee, `offset` and `length` are read. */
  datatype MapT = MapT(addr: Address, offset: nat, length: nat, ec: ErrorCode)

  /** `map_t()`: null address, empty range, clear error. */
  function DefaultMapT(): MapT {
    MapT(Null, 0, 0, NoError)
  }

  /** `map_t(offset, length)`: null address, the given range, clear error. */
  function RangeMapT(offset: nat, length: nat): MapT {
    MapT(Null, offset, length, NoError)
  }

  /** The four batch virtuals of `allocation`, all of the same shape. */
  datatype Op = MapOp | UnmapOp | PrefaultOp | DiscardOp

  /** The number of entries whose error is clear, that is, the entries a batch call counts as done. */
  function Successes(ds: seq<MapT>): (r: nat)
    ensures r <= |ds|
    ensures r == |ds| <==> forall k :: 0 <= k < |ds| ==> ds[k].ec == NoError
  {
    if ds == [] then 0
    else Successes(ds[..|ds| - 1]) + (if ds[|ds| - 1].ec == NoError then 1 else 0)
  }
}
