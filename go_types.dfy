/** Values of the Go runtime that the requester package works with.

    A Go `string` is an immutable sequence of bytes, so every string of the
    package is modelled as a `GoString`, a sequence of bytes; literals of the
    source are written with `Ascii`. A Go `nil` pointer or interface is `None`. */
module GoTypes {

  newtype byte = x: int | 0 <= x < 256

  type GoString = seq<byte>

  datatype Option<+T> = None | Some(value: T) {
    function GetOr(default: T): (r: T)
      ensures Some? ==> r == value
      ensures None? ==> r == default
    {
      if Some? then value else default
    }
  }

  /** The bytes of a source literal. Every literal of the package is ASCII,
      where each character is its own byte. */
  function Ascii(s: string): (b: GoString)
    ensures |b| == |s|
    ensures forall i :: 0 <= i < |s| && (s[i] as int) < 256 ==> b[i] as int == s[i] as int
  {
    seq(|s|, i requires 0 <= i < |s| => (s[i] as int % 256) as byte)
  }
}
