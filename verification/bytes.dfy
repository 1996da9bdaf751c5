/** Bytes, and a byte stream whose reads may return any non-empty part of what has arrived. */
module Bytes {
  type Byte = x: int | 0 <= x < 256

  /** One direction of a connection: the bytes that will still arrive before the peer closes it. */
  class Socket {
    var pending: seq<Byte>

    constructor (arriving: seq<Byte>)
      ensures pending == arriving
    {
      pending := arriving;
    }

    /** recv(n): any non-empty chunk of at most n bytes, or nothing at the end of the stream. */
    method Recv(n: nat) returns (chunk: seq<Byte>)
      requires n > 0
      modifies this
      ensures chunk + pending == old(pending) && |chunk| <= n
      ensures chunk == [] <==> old(pending) == []
    {
      if pending == [] {
        return [];
      }
      var k: nat :| 1 <= k <= n && k <= |pending|;
      chunk := pending[..k];
      pending := pending[k..];
    }
  }
}
