/** The reply of the registered batch handler, as the controller gets it from another locality. */
module Replies {
  import opened Wrappers
  import opened Bytes
  import opened Texts
  import opened NestedCodec
  import opened BatchCodec
  import opened Controller

  function Item<T>(result: Result<T, string>): ItemReply<T> {
    match result
    case Ok(value) => Done(value)
    case Err(message) => Failed(message)
  }

  /** The handler calls the action on every item and keeps each error as a text. */
  function HandlerReply<A, T>(f: A -> Result<T, string>, chunk: Chunk<A>): BatchReply<T> {
    BatchReply(chunk.start, seq(|chunk.items|, k requires 0 <= k < |chunk.items| => Item(f(chunk.items[k]))))
  }

  /** What the codec delivers to the controller is the handler's reply with its texts cut, item by item as the
      controller expects it. */
  lemma RepliesSayWhatTheHandlerSaid<A, T>(c: Codec<T>, u: Utf8, f: A -> Result<T, string>, chunk: Chunk<A>)
    returns (results: seq<Result<T, string>>)
    requires u.Good() && chunk.start < U64 && |chunk.items| <= MaxBatchItems
    requires forall k :: 0 <= k < |chunk.items| && f(chunk.items[k]).Ok? ==> c.Keeps(f(chunk.items[k]).value)
    ensures EncodeReply(c, u, HandlerReply(f, chunk)).Ok? && |results| == |chunk.items|
    ensures DecodeReply(c, u, EncodeReply(c, u, HandlerReply(f, chunk)).value)
         == Ok(BatchReply(chunk.start, seq(|results|, k requires 0 <= k < |results| => Item(results[k]))))
    ensures forall k :: 0 <= k < |results| ==> Says((text: string) => Shortened(u, text), f(chunk.items[k]), results[k])
  {
    var reply := HandlerReply(f, chunk);
    ReplyRoundTrip(c, u, reply);
    results := seq(|chunk.items|, k requires 0 <= k < |chunk.items| =>
      match f(chunk.items[k]) case Ok(value) => Ok(value) case Err(message) => Err(Shortened(u, message)));
    assert WireItems(u, reply.items) == seq(|results|, k requires 0 <= k < |results| => Item(results[k]));
  }
}
