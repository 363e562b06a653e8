/**
 * The `Allpass` diffuser of the reverb: a ring buffer with a feed-forward gain on the
 * input and a feedback gain on the sample written back, plus a read-only `tap`.
 */
module AllpassModel {
  import Ring

  /** Buffer and cursor, and the two gains fixed at construction. */
  datatype AllpassState = AllpassState(line: Ring.Line, fbGain: real, ffGain: real)

  predicate Valid(a: AllpassState)
  {
    Ring.Valid(a.line)
  }

  /** `process(in, d)`: read the slot at offset `d`, form `y = slot + ffGain*in`, write `in + fbGain*y`, return `y`. */
  function Process(a: AllpassState, input: real, d: int): (r: (AllpassState, real))
    requires Valid(a) && 0 <= d <= |a.line.buf|
    ensures Valid(r.0) && |r.0.line.buf| == |a.line.buf|
    ensures r.0.fbGain == a.fbGain && r.0.ffGain == a.ffGain
  {
    var y := Ring.Read(a.line, d) + Ring.Gain(a.ffGain, input);
    (a.(line := Ring.Write(a.line, input + Ring.Gain(a.fbGain, y))), y)
  }

  /** Every offset in `ds` is one a line of `n` slots can read. */
  predicate Within(ds: seq<int>, n: int)
  {
    forall k :: 0 <= k < |ds| ==> 0 <= ds[k] <= n
  }

  /** The diffuser driven by the inputs `xs`, the `k`-th one read at offset `ds[k]`; returns the final state and the outputs. */
  function Run(a: AllpassState, xs: seq<real>, ds: seq<int>): (r: (AllpassState, seq<real>))
    requires Valid(a) && |xs| == |ds| && Within(ds, |a.line.buf|)
    ensures Valid(r.0) && |r.0.line.buf| == |a.line.buf| && |r.1| == |xs|
    ensures r.0.fbGain == a.fbGain && r.0.ffGain == a.ffGain
    decreases |xs|
  {
    if xs == [] then (a, [])
    else
      var n := |xs| - 1;
      var prev := Run(a, xs[..n], ds[..n]);
      var next := Process(prev.0, xs[n], ds[n]);
      (next.0, prev.1 + [next.1])
  }

  /** The same filter as a recurrence on whole signals: `ws` is what enters the buffer, `ys` what comes out. */
  datatype Signals = Signals(ws: seq<real>, ys: seq<real>)

  /**
   * `y[k] = w[k - d_k] + ffGain*x[k]` and `w[k] = x[k] + fbGain*y[k]`, where `w` continues the
   * history `h` already in the buffer and an offset of 0 sees `n` samples back.
   */
  function Reference(h: seq<real>, n: nat, xs: seq<real>, ds: seq<int>, fbGain: real, ffGain: real): (s: Signals)
    requires |xs| == |ds|
    ensures |s.ws| == |s.ys| == |xs|
    decreases |xs|
  {
    if xs == [] then Signals([], [])
    else
      var k := |xs| - 1;
      var prev := Reference(h, n, xs[..k], ds[..k], fbGain, ffGain);
      var y := Ring.Past(h + prev.ws, Ring.Lag(ds[k], n)) + Ring.Gain(ffGain, xs[k]);
      Signals(prev.ws + [xs[k] + Ring.Gain(fbGain, y)], prev.ys + [y])
  }

  /**
   * The ring-buffer diffuser computes the recurrence exactly: its outputs are the
   * reference outputs and its buffer is the line that received the reference's `ws`.
   */
  lemma {:induction false} RunMatchesReference(h: seq<real>, n: nat, xs: seq<real>, ds: seq<int>, fbGain: real, ffGain: real)
    requires 0 < n && |xs| == |ds| && Within(ds, n)
    ensures var a := AllpassState(Ring.Record(h, n), fbGain, ffGain);
            var s := Reference(h, n, xs, ds, fbGain, ffGain);
            Run(a, xs, ds) == (AllpassState(Ring.Record(h + s.ws, n), fbGain, ffGain), s.ys)
    decreases |xs|
  {
    if xs != [] {
      var k := |xs| - 1;
      var a := AllpassState(Ring.Record(h, n), fbGain, ffGain);
      var prev := Reference(h, n, xs[..k], ds[..k], fbGain, ffGain);
      var s := Reference(h, n, xs, ds, fbGain, ffGain);
      var y := Ring.Past(h + prev.ws, Ring.Lag(ds[k], n)) + Ring.Gain(ffGain, xs[k]);
      var w := xs[k] + Ring.Gain(fbGain, y);
      assert Within(ds[..k], n);
      RunMatchesReference(h, n, xs[..k], ds[..k], fbGain, ffGain);
      ProcessRecord(h + prev.ws, n, xs[k], ds[k], fbGain, ffGain);
      ReferenceLast(h, n, xs, ds, fbGain, ffGain);
      assert h + s.ws == (h + prev.ws) + [w];
    } else {
      assert h + [] == h;
    }
  }

  /** The last step of `Reference`, with the history the buffer holds spelt out. */
  lemma ReferenceLast(h: seq<real>, n: nat, xs: seq<real>, ds: seq<int>, fbGain: real, ffGain: real)
    requires |xs| == |ds| && xs != []
    ensures var k := |xs| - 1;
            var prev := Reference(h, n, xs[..k], ds[..k], fbGain, ffGain);
            var s := Reference(h, n, xs, ds, fbGain, ffGain);
            var y := Ring.Past(h + prev.ws, Ring.Lag(ds[k], n)) + Ring.Gain(ffGain, xs[k]);
            var w := xs[k] + Ring.Gain(fbGain, y);
            s.ys == prev.ys + [y] && s.ws == prev.ws + [w]
  {
  }

  /** One sample of the diffuser on a line that holds the history `h`. */
  lemma ProcessRecord(h: seq<real>, n: nat, x: real, d: int, fbGain: real, ffGain: real)
    requires 0 < n && 0 <= d <= n
    ensures var y := Ring.Past(h, Ring.Lag(d, n)) + Ring.Gain(ffGain, x);
            var w := x + Ring.Gain(fbGain, y);
            Process(AllpassState(Ring.Record(h, n), fbGain, ffGain), x, d)
              == (AllpassState(Ring.Record(h + [w], n), fbGain, ffGain), y)
  {
    var l := Ring.Record(h, n);
    Ring.ReadRecord(h, n, d);
    var y := Ring.Past(h, Ring.Lag(d, n)) + Ring.Gain(ffGain, x);
    var w := x + Ring.Gain(fbGain, y);
    assert Process(AllpassState(l, fbGain, ffGain), x, d) == (AllpassState(Ring.Write(l, w), fbGain, ffGain), y);
    Ring.RecordSnoc(h, n, w);
  }

  /**
   * With the paired gains every constructed diffuser has (`ffGain == -g`, `fbGain == g`),
   * the recurrence is the classic all-pass: `w[k] = (1 - g*g)*x[k] + g*w[k-d]` and
   * `y[k] = w[k-d] - g*x[k]`.
   */
  lemma ClassicForm(h: seq<real>, n: nat, xs: seq<real>, ds: seq<int>, g: real, k: nat)
    requires |xs| == |ds| && k < |xs|
    ensures var s := Reference(h, n, xs, ds, g, -g);
            var past := Ring.Past(h + s.ws[..k], Ring.Lag(ds[k], n));
            s.ys[k] == past - g * xs[k] &&
            s.ws[k] == (1.0 - g * g) * xs[k] + g * past
  {
    var s := Reference(h, n, xs, ds, g, -g);
    var past := Ring.Past(h + s.ws[..k], Ring.Lag(ds[k], n));
    ReferenceAt(h, n, xs, ds, g, -g, k);
    assert g * s.ys[k] == g * past - g * g * xs[k];
  }

  /** Sample `k` of `Reference` obeys the recurrence, whatever the input after it. */
  lemma {:induction false} ReferenceAt(h: seq<real>, n: nat, xs: seq<real>, ds: seq<int>, fbGain: real, ffGain: real, k: nat)
    requires |xs| == |ds| && k < |xs|
    ensures var s := Reference(h, n, xs, ds, fbGain, ffGain);
            s.ys[k] == Ring.Past(h + s.ws[..k], Ring.Lag(ds[k], n)) + Ring.Gain(ffGain, xs[k]) &&
            s.ws[k] == xs[k] + Ring.Gain(fbGain, s.ys[k])
    decreases |xs|
  {
    var last := |xs| - 1;
    var s := Reference(h, n, xs, ds, fbGain, ffGain);
    var prev := Reference(h, n, xs[..last], ds[..last], fbGain, ffGain);
    if k == last {
      assert s.ws[..k] == prev.ws;
    } else {
      ReferenceAt(h, n, xs[..last], ds[..last], fbGain, ffGain, k);
      assert s.ws[..k] == prev.ws[..k];
      assert xs[..last][k] == xs[k] && ds[..last][k] == ds[k];
    }
  }

  /** The reference on a prefix of the input is the prefix of the reference. */
  lemma {:induction false} PrefixReference(h: seq<real>, n: nat, xs: seq<real>, ds: seq<int>, fbGain: real, ffGain: real, m: nat)
    requires |xs| == |ds| && m <= |xs|
    ensures var s := Reference(h, n, xs, ds, fbGain, ffGain);
            var p := Reference(h, n, xs[..m], ds[..m], fbGain, ffGain);
            p.ws == s.ws[..m] && p.ys == s.ys[..m]
    decreases |xs|
  {
    if m < |xs| {
      var k := |xs| - 1;
      PrefixReference(h, n, xs[..k], ds[..k], fbGain, ffGain, m);
      assert xs[..k][..m] == xs[..m] && ds[..k][..m] == ds[..m];
    } else {
      assert xs[..m] == xs && ds[..m] == ds;
    }
  }
}

/** The `Allpass` class, proved against `AllpassModel`. */
module Allpasses {
  import Ring
  import AllpassModel

  class Allpass {
    /** `size_`, the capacity, fixed at construction. */
    const size: nat
    /** `buffer_`, `size_` samples; a write replaces one of them. */
    var buffer: seq<real>
    /** `index_`, the write cursor. */
    var index: nat
    const fbGain: real
    const ffGain: real

    ghost predicate Valid()
      reads this
    {
      0 < size && |buffer| == size && index < size
    }

    ghost function Model(): (a: AllpassModel.AllpassState)
      reads this
      ensures Valid() ==> AllpassModel.Valid(a) && |a.line.buf| == size
    {
      AllpassModel.AllpassState(Ring.Line(buffer, index), fbGain, ffGain)
    }

    /** A new diffuser: `size` zero samples, cursor 0, the given gains. */
    constructor (size: nat, fbGain: real, ffGain: real)
      requires 0 < size
      ensures Valid() && this.size == size
      ensures Model() == AllpassModel.AllpassState(Ring.Empty(size), fbGain, ffGain)
    {
      this.size := size;
      buffer := Ring.Empty(size).buf;
      index := 0;
      this.fbGain := fbGain;
      this.ffGain := ffGain;
    }

    function Size(): (n: nat)
      ensures n == size
    {
      size
    }

    /**
     * `process(in, delay)`: the slot read is that of `read(delay)` on a `Delay`, i.e. of
     * the integer offset `Ceil(delay)`; one slot is written and the cursor advances.
     */
    method Process(input: real, delay: real) returns (y: real)
      requires Valid()
      requires 0 <= Ring.Ceil(delay) <= size
      modifies this
      ensures Valid()
      ensures (Model(), y) == AllpassModel.Process(old(Model()), input, Ring.Ceil(delay))
    {
      ghost var before := Model();
      Ring.TruncatedIndex(before.line, delay);
      var m := index as real - delay;
      if m < 0.0 {
        m := m + size as real;
      }
      y := buffer[m.Floor] + ffGain * input;
      assert y == Ring.Read(before.line, Ring.Ceil(delay)) + Ring.Gain(ffGain, input);
      ghost var v := input + Ring.Gain(fbGain, y);
      var w := input + fbGain * y;
      assert w == v;
      buffer := buffer[index := w];
      index := index + 1;
      if index >= size {
        index := 0;
      }
      assert Model().line == Ring.Write(before.line, v);
    }

    /** `tap(k)`: the slot `read(k)` of a `Delay` would return; nothing changes. */
    function Tap(k: nat): (r: real)
      reads this
      requires Valid() && k <= size
      ensures r == Ring.Read(Model().line, k)
    {
      var m := index - k;
      buffer[if m < 0 then m + size else m]
    }
  }
}
