/**
  Go strings and byte slices. A Go string is an immutable sequence of bytes,
  so both are modelled as `seq<byte>`; `Ascii` turns a Dafny literal into the
  bytes Go would hold for it.
*/
module GoBytes {

  newtype byte = x: int | 0 <= x < 256

  /** A Go string or []byte. */
  type Bytes = seq<byte>

  /** The bytes of an ASCII literal. */
  function Ascii(s: string): (b: Bytes)
    requires forall i :: 0 <= i < |s| ==> s[i] as int < 128
    ensures |b| == |s|
    ensures forall i :: 0 <= i < |s| ==> b[i] as int == s[i] as int
  {
    seq(|s|, i requires 0 <= i < |s| => s[i] as int as byte)
  }
}
