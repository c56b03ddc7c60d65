/** A buffer that hands its contents to a sink in chunks. */
module Streaming {
  import opened Sequences

  /** A chunk size below one still delivers, one element at a time. */
  function EffectiveSize(chunkSize: int): nat {
    if chunkSize < 1 then 1 else chunkSize
  }

  class ChunkedSink<T> {
    const chunkSize: int
    var buffer: seq<T>
    /** The calls made to the sink. */
    var delivered: seq<seq<T>>

    predicate Valid()
      reads this
    {
      && |buffer| < EffectiveSize(chunkSize)
      && forall k :: 0 <= k < |delivered| ==> 0 < |delivered[k]| <= EffectiveSize(chunkSize)
    }

    /** Everything pushed so far, in order. */
    function Contents(): seq<T>
      reads this
    {
      Concat(delivered) + buffer
    }

    constructor (chunkSize: int)
      ensures Valid() && Contents() == [] && delivered == [] && this.chunkSize == chunkSize
    {
      this.chunkSize := chunkSize;
      buffer, delivered := [], [];
    }

    /** Only full chunks are delivered while pushing. */
    method Push(x: T)
      requires Valid()
      modifies this
      ensures Valid() && Contents() == old(Contents()) + [x]
      ensures delivered == old(delivered) ||
              (delivered == old(delivered) + [old(buffer) + [x]] && |old(buffer)| + 1 == EffectiveSize(chunkSize)
                  && buffer == [])
    {
      buffer := buffer + [x];
      if |buffer| >= chunkSize {
        assert (delivered + [buffer])[..|delivered|] == delivered;
        delivered := delivered + [buffer];
        buffer := [];
      }
    }

    /** After the flush at the end, the sink has received everything. */
    method Flush()
      requires Valid()
      modifies this
      ensures Valid() && Contents() == old(Contents()) && Concat(delivered) == Contents() && buffer == []
    {
      if buffer != [] {
        assert (delivered + [buffer])[..|delivered|] == delivered;
        delivered := delivered + [buffer];
        buffer := [];
      }
    }
  }
}
