/**
 * Value-level model of the ring-buffer delay line (`Delay` in both plugins, and the
 * storage inside `Allpass`): a zero-initialised buffer of fixed capacity and a write
 * cursor. `Record(h, n)` is the line after the samples `h` were written into a fresh
 * line of capacity `n`; the FIFO law relates a read at offset `d` to `Past(h, d)`.
 */
module Ring {

  /** Backing storage and write cursor of one line. */
  datatype Line = Line(buf: seq<real>, cursor: nat)

  /** The cursor is in range and the capacity is positive. */
  predicate Valid(l: Line)
  {
    0 < |l.buf| && l.cursor < |l.buf|
  }

  /** Every slot holds zero. */
  predicate Quiet(l: Line)
  {
    forall i :: 0 <= i < |l.buf| ==> l.buf[i] == 0.0
  }

  /** A freshly constructed line: `n` zero samples, cursor at slot 0. */
  function Empty(n: nat): (l: Line)
    requires 0 < n
    ensures Valid(l) && Quiet(l) && |l.buf| == n && l.cursor == 0
  {
    Line(seq(n, _ => 0.0), 0)
  }

  /** `write(x)`: store `x` under the cursor, then advance the cursor with wrap. */
  function Write(l: Line, x: real): (r: Line)
    requires Valid(l)
    ensures Valid(r) && |r.buf| == |l.buf|
    ensures r.cursor == (l.cursor + 1) % |l.buf|
  {
    var next := l.cursor + 1;
    Line(l.buf[l.cursor := x], if next >= |l.buf| then 0 else next)
  }

  /**
   * `after` is `before` after one `write`: same capacity, the cursor advanced by one with
   * wrap, and no slot other than the old cursor's changed.
   */
  predicate OneWrite(before: Line, after: Line)
  {
    |after.buf| == |before.buf| && 0 < |before.buf| &&
    after.cursor == (before.cursor + 1) % |before.buf| &&
    forall i :: 0 <= i < |before.buf| && i != before.cursor ==> after.buf[i] == before.buf[i]
  }

  /** `write(x)` changes exactly the cursor's slot, to `x`, and advances the cursor. */
  lemma WriteChangesOneSlot(l: Line, x: real)
    requires Valid(l)
    ensures OneWrite(l, Write(l, x)) && Write(l, x).buf[l.cursor] == x
  {
  }

  /** The slot that `read(d)` looks at: `cursor - d`, with the capacity added at most once. */
  function Slot(l: Line, d: int): (i: nat)
    requires Valid(l) && 0 <= d <= |l.buf|
    ensures i < |l.buf|
  {
    var m := l.cursor - d;
    if m < 0 then m + |l.buf| else m
  }

  /** The slot is `cursor - d` modulo the capacity. */
  lemma SlotWraps(l: Line, d: int)
    requires Valid(l) && 0 <= d <= |l.buf|
    ensures Slot(l, d) == (l.cursor - d) % |l.buf|
  {
    if l.cursor - d < 0 {
      ModUnique(l.cursor - d, |l.buf|, -1, l.cursor - d + |l.buf|);
    } else {
      ModUnique(l.cursor - d, |l.buf|, 0, l.cursor - d);
    }
  }

  /** `read(d)` for an integer offset `d`. */
  function Read(l: Line, d: int): real
    requires Valid(l) && 0 <= d <= |l.buf|
  {
    l.buf[Slot(l, d)]
  }

  /** `k mod n`: where the cursor stands after `k` writes. */
  function Wrap(k: int, n: nat): (c: nat)
    requires 0 < n
    ensures c < n
  {
    k % n
  }

  /**
   * After `k` writes into `n` slots, how many writes ago slot `i` was last written:
   * `(k - 1 - i) mod n + 1`, between 1 and `n` (more than `k` if never written).
   */
  function Age(k: int, n: nat, i: int): (a: int)
    requires 0 < n
    ensures 1 <= a <= n
  {
    Wrap(k - 1 - i, n) + 1
  }

  /**
   * The line after the samples `h` were written, in order, into `Empty(n)`: the cursor has
   * advanced `|h|` times, and each slot holds the sample last written there, or zero.
   * `RecordEmpty` and `RecordSnoc` show that this is the line the writes build.
   */
  function Record(h: seq<real>, n: nat): (l: Line)
    requires 0 < n
    ensures Valid(l) && |l.buf| == n
  {
    Line(seq(n, i => Past(h, Age(|h|, n, i))), Wrap(|h|, n))
  }

  /** No writes: the fresh line. */
  lemma RecordEmpty(n: nat)
    requires 0 < n
    ensures Record([], n) == Empty(n)
  {
    assert Record([], n).buf == Empty(n).buf;
  }

  /** The cursor after one more write. */
  lemma WrapNext(k: int, n: nat)
    requires 0 < n
    ensures Wrap(k + 1, n) == if Wrap(k, n) + 1 == n then 0 else Wrap(k, n) + 1
  {
    var q := k / n;
    assert k == q * n + Wrap(k, n);
    if Wrap(k, n) + 1 == n {
      ModUnique(k + 1, n, q + 1, 0);
    } else {
      ModUnique(k + 1, n, q, Wrap(k, n) + 1);
    }
  }

  /** One more write makes the cursor's slot the newest and every other slot one write older. */
  lemma AgeNext(k: int, n: nat, i: nat)
    requires 0 < n && i < n
    ensures Age(k + 1, n, i) == if i == Wrap(k, n) then 1 else Age(k, n, i) + 1
  {
    var c := Wrap(k, n);
    var q := k / n;
    assert k == q * n + c;
    var a := Wrap(k - 1 - i, n);
    var q' := (k - 1 - i) / n;
    assert k - 1 - i == q' * n + a;
    if i == c {
      ModUnique(k - i, n, q, 0);
    } else if a + 1 == n {
      ModUnique(k - i, n, q' + 1, 0);
      if i < c {
        ModUnique(k - i, n, q, c - i);
      } else {
        ModUnique(k - i, n, q - 1, c - i + n);
      }
    } else {
      ModUnique(k - i, n, q', a + 1);
    }
  }

  /** One more write: `Record(h + [w], n)` is `Record(h, n)` after `write(w)`. */
  lemma RecordSnoc(h: seq<real>, n: nat, w: real)
    requires 0 < n
    ensures Record(h + [w], n) == Write(Record(h, n), w)
  {
    var l := Record(h, n);
    var r := Record(h + [w], n);
    WrapNext(|h|, n);
    forall i | 0 <= i < n
      ensures r.buf[i] == Write(l, w).buf[i]
    {
      AgeNext(|h|, n, i);
    }
    assert r.buf == Write(l, w).buf;
  }

  /** Euclidean remainders are unique. */
  lemma ModUnique(a: int, n: int, q: int, r: int)
    requires 0 < n && a == q * n + r && 0 <= r < n
    ensures a % n == r
  {
    var q', r' := a / n, a % n;
    assert a == q' * n + r';
    var e := q - q';
    assert e * n == r' - r by {
      assert q * n - q' * n == e * n;
    }
    if e > 0 {
      MulAtLeast(e, n);
    } else if e < 0 {
      MulAtLeast(-e, n);
    }
  }

  lemma MulAtLeast(x: int, n: int)
    requires 1 <= x && 0 < n
    ensures x * n >= n
  {
    var y := x - 1;
    assert x * n == y * n + n;
    assert y * n >= 0;
  }

  /** The sample written `d` writes ago (`d = 1` is the most recent one); zero before the first write. */
  function Past(h: seq<real>, d: int): real
  {
    if 1 <= d <= |h| then h[|h| - d] else 0.0
  }

  /** The age a read at offset `d` sees: offset 0 aliases offset `n`. */
  function Lag(d: int, n: nat): int
  {
    if d == 0 then n else d
  }

  /**
   * The FIFO law: after the writes `h`, `read(d)` for `1 <= d <= n` returns the sample
   * written `d` writes ago, or zero if fewer than `d` samples were written.
   */
  lemma FifoLaw(h: seq<real>, n: nat, d: int)
    requires 0 < n && 1 <= d <= n
    ensures Read(Record(h, n), d) == Past(h, d)
  {
    var c := Wrap(|h|, n);
    var q := |h| / n;
    assert |h| == q * n + c;
    var s := Slot(Record(h, n), d);
    if c - d < 0 {
      ModUnique(|h| - 1 - s, n, q - 1, d - 1);
    } else {
      ModUnique(|h| - 1 - s, n, q, d - 1);
    }
  }

  /** `read(0)` looks at the slot the next write overwrites, the same slot as `read(n)`. */
  lemma ReadZeroAliases(l: Line)
    requires Valid(l)
    ensures Slot(l, 0) == Slot(l, |l.buf|) == l.cursor
    ensures Read(l, 0) == Read(l, |l.buf|)
  {
  }

  /** The FIFO law for every offset the source may pass, `0 <= d <= n`. */
  lemma ReadRecord(h: seq<real>, n: nat, d: int)
    requires 0 < n && 0 <= d <= n
    ensures Read(Record(h, n), d) == Past(h, Lag(d, n))
  {
    ReadZeroAliases(Record(h, n));
    FifoLaw(h, n, Lag(d, n));
  }

  /** A read right after a write at offset 1 gives back the written sample. */
  lemma ReadAfterWrite(l: Line, x: real)
    requires Valid(l)
    ensures Read(Write(l, x), 1) == x
  {
    assert Slot(Write(l, x), 1) == l.cursor;
  }

  /** A line that only ever received zeros holds zeros. */
  lemma RecordOfZerosIsQuiet(h: seq<real>, n: nat)
    requires 0 < n
    requires forall i :: 0 <= i < |h| ==> h[i] == 0.0
    ensures Quiet(Record(h, n))
  {
    forall i | 0 <= i < n
      ensures Record(h, n).buf[i] == 0.0
    {
      var a := Age(|h|, n, i);
      if a <= |h| {
        assert h[|h| - a] == 0.0;
      }
    }
  }

  /** Writing zero into a quiet line keeps it quiet, and every read of a quiet line is zero. */
  lemma QuietWrite(l: Line)
    requires Valid(l) && Quiet(l)
    ensures Quiet(Write(l, 0.0))
    ensures forall d :: 0 <= d <= |l.buf| ==> Read(l, d) == 0.0
  {
  }

  /**
   * A gain applied to a sample. Products of two variables are kept behind this name so
   * that the solver can match equal products by their arguments.
   */
  function Gain(g: real, x: real): real
  {
    g * x
  }

  /** The effective integer offset of a fractional offset `x`: the smallest integer at or above it. */
  function Ceil(x: real): (c: int)
    ensures c as real - 1.0 < x <= c as real
  {
    -((-x).Floor)
  }

  /**
   * The slot `read(float x)` hits: `cursor - x`, plus the capacity when negative, truncated
   * to an index, is the slot of the integer offset `Ceil(x)`.
   */
  lemma TruncatedIndex(l: Line, x: real)
    requires Valid(l) && 0 <= Ceil(x) <= |l.buf|
    ensures var m := l.cursor as real - x;
            var w := if m < 0.0 then m + |l.buf| as real else m;
            0 <= w.Floor == Slot(l, Ceil(x))
  {
  }
}
