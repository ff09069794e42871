/** Byte-level vocabulary shared by the rest of the model. */
module Bytes {

  /** Go's `uint8`, also spelled `byte`. */
  newtype uint8 = x: int | 0 <= x < 256

  type byte = uint8

  datatype Option<+T> = None | Some(value: T)

  /**
   * Go's `string(b)` conversion. A Go string is an immutable sequence of
   * bytes; here each byte becomes the character whose code is that byte, so
   * no information is lost and no decoding takes place.
   */
  function ByteString(b: seq<byte>): (s: string)
    ensures |s| == |b|
    ensures forall i :: 0 <= i < |b| ==> s[i] as int == b[i] as int
  {
    seq(|b|, i requires 0 <= i < |b| => (b[i] as int) as char)
  }

  /** Two byte strings convert to the same string exactly when they are equal. */
  lemma ByteStringInjective(a: seq<byte>, b: seq<byte>)
    ensures ByteString(a) == ByteString(b) <==> a == b
  {
    if ByteString(a) == ByteString(b) {
      assert |a| == |b|;
      forall i | 0 <= i < |a|
        ensures a[i] == b[i]
      {
        assert ByteString(a)[i] == ByteString(b)[i];
      }
    }
  }
}
