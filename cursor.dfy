/** The forward byte cursor the render-command interpreter reads from.

    The cursor is a value: passing it on, or cloning it, gives an independent
    read position over the same bytes, so reading from a copy (a peek) never
    moves the original. Running past the end of the stream is reported as
    `None`; the interpreter turns it into its end-of-stream error. */
module Cursor {

  /** An unsigned 8-bit value (`u8`), the unit of the command stream. */
  type Byte = x: int | 0 <= x < 256

  datatype Option<+T> = None | Some(value: T)

  datatype Cur = Cur(bytes: seq<Byte>, pos: nat) {

    /** Number of bytes that can still be read. */
    function Remaining(): nat {
      if pos <= |bytes| then |bytes| - pos else 0
    }

    /** Reads one byte and advances past it. */
    function Next(): (r: Option<(Byte, Cur)>)
      ensures r.Some? <==> Remaining() >= 1
      ensures r.Some? ==> r.value.1.Remaining() == Remaining() - 1
      ensures r.Some? ==> r.value == (bytes[pos], Cur(bytes, pos + 1))
    {
      if pos < |bytes| then Some((bytes[pos], Cur(bytes, pos + 1))) else None
    }

    /** Reads the next `n` bytes and advances past them; fails, reading
        nothing, when fewer than `n` remain. */
    function NextN(n: nat): (r: Option<(seq<Byte>, Cur)>)
      ensures r.Some? <==> pos + n <= |bytes|
      ensures r.Some? ==> |r.value.0| == n && r.value.1.Remaining() == Remaining() - n
      ensures r.Some? ==> r.value == (bytes[pos..pos + n], Cur(bytes, pos + n))
    {
      if pos + n <= |bytes| then Some((bytes[pos..pos + n], Cur(bytes, pos + n))) else None
    }
  }
}
