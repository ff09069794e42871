/**
 * The two halves of a client connection as the authentication code sees
 * them: an `io.Reader` over the bytes the client has sent and an `io.Writer`
 * that collects the bytes the server sends back.
 */
module Stream {
  import opened Bytes

  /** How many bytes a read of `n` bytes takes from a stream holding `available`. */
  function Taken(available: nat, n: nat): (k: nat)
    ensures k <= available && k <= n
    ensures k == n || k == available
  {
    if n <= available then n else available
  }

  /** A finite input stream; `unread` is what the client sent that nobody has read yet. */
  class Reader {
    var unread: seq<byte>

    constructor (input: seq<byte>)
      ensures unread == input
    {
      unread := input;
    }

    /**
     * Reads exactly `n` bytes into `buf[..n]`, as `io.ReadAtLeast(r, buf[:n], n)`
     * does, and as a single `Read` of a one-byte slice does on a buffered
     * stream. Asking for zero bytes succeeds without reading. When fewer than
     * `n` bytes remain, the read takes everything that is left (the partial
     * data lands at the front of `buf`) and fails.
     */
    method ReadFull(buf: array<byte>, n: nat) returns (ok: bool)
      requires n <= buf.Length
      modifies this, buf
      ensures ok <==> n <= |old(unread)|
      ensures var k := Taken(|old(unread)|, n);
        && buf[..k] == old(unread)[..k]
        && buf[k..] == old(buf[k..])
        && unread == old(unread)[k..]
    {
      var k := Taken(|unread|, n);
      forall i | 0 <= i < k {
        buf[i] := unread[i];
      }
      ok := n <= |unread|;
      unread := unread[k..];
    }
  }

  /** An output stream that only grows; writes always succeed. */
  class Writer {
    var written: seq<byte>

    constructor ()
      ensures written == []
    {
      written := [];
    }

    method Write(p: seq<byte>)
      modifies this
      ensures written == old(written) + p
    {
      written := written + p;
    }
  }
}
