/**
 * The `Delay` class, textually identical in the delay plugin and the reverb plugin:
 * a fixed-capacity, zero-initialised buffer with a write cursor.
 */
module DelayLines {
  import Ring

  class Delay {
    /** `size_`, the capacity, fixed at construction. */
    const size: nat
    /** `buffer_`, `size_` samples; a write replaces one of them. */
    var buffer: seq<real>
    /** `index_`, the write cursor. */
    var index: nat

    ghost predicate Valid()
      reads this
    {
      0 < size && |buffer| == size && index < size
    }

    /** The line as a value. */
    ghost function Model(): (l: Ring.Line)
      reads this
      ensures Valid() ==> Ring.Valid(l) && |l.buf| == size
    {
      Ring.Line(buffer, index)
    }

    /** A new line holds `size` zero samples and its cursor is 0. */
    constructor (size: nat)
      requires 0 < size
      ensures Valid() && this.size == size
      ensures Model() == Ring.Empty(size)
    {
      this.size := size;
      buffer := Ring.Empty(size).buf;
      index := 0;
    }

    /** `size()`: the capacity. */
    function Size(): (n: nat)
      ensures n == size
    {
      size
    }

    /**
     * `read(float delay)`: the slot at `index_ - delay`, plus the capacity when negative,
     * truncated to an index. It reads the slot of the integer offset `Ceil(delay)` and
     * changes nothing. The source never checks the offset; `0 <= Ceil(delay) <= size` is
     * what keeps the index inside the buffer.
     */
    function Read(delay: real): (r: real)
      reads this
      requires Valid()
      requires 0 <= Ring.Ceil(delay) <= size
      ensures r == Ring.Read(Model(), Ring.Ceil(delay))
    {
      var m := index as real - delay;
      var w := if m < 0.0 then m + size as real else m;
      Ring.TruncatedIndex(Model(), delay);
      buffer[w.Floor]
    }

    /** `write(in)`: stores one sample under the cursor and advances the cursor with wrap. */
    method Write(x: real)
      requires Valid()
      modifies this
      ensures Valid()
      ensures Model() == Ring.Write(old(Model()), x)
    {
      buffer := buffer[index := x];
      index := index + 1;
      if index >= size {
        index := 0;
      }
    }
  }
}
