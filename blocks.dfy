/**
 * Sequence facts the processors' block loops use: while a loop rewrites an audio buffer
 * in place, the buffer is the outputs so far followed by the inputs not yet processed.
 */
module Blocks {
  /** The first element after a prefix. */
  lemma Splice(a: seq<real>, b: seq<real>)
    requires b != []
    ensures (a + b)[|a|] == b[0]
  {
  }

  /** Overwriting the first element after a prefix moves it into the prefix. */
  lemma SpliceUpdate(a: seq<real>, x: real, b: seq<real>)
    requires b != []
    ensures (a + b)[|a| := x] == (a + [x]) + b[1..]
  {
  }

  /**
   * A channel part way through a block, the outputs `outs` followed by the inputs not yet
   * processed: its next entry is the next input, and overwriting it with `x` adds `x` to the outputs.
   */
  lemma Overwrite(outs: seq<real>, ins: seq<real>, x: real)
    requires |outs| < |ins|
    ensures (outs + ins[|outs|..])[|outs|] == ins[|outs|]
    ensures (outs + ins[|outs|..])[|outs| := x] == (outs + [x]) + ins[|outs| + 1..]
  {
    var n := |outs|;
    assert ins[n..][1..] == ins[n + 1..];
    SpliceUpdate(outs, x, ins[n..]);
  }

  /**
   * `f` keeps `inv`: from every state in `inv`, one sample through `f` is defined and lands
   * in `inv` again.
   */
  ghost predicate Keeps<S(!new)>(f: (S, real, real) --> (S, real, real), inv: S -> bool)
  {
    forall x, l, r :: inv(x) ==> f.requires(x, l, r) && inv(f(x, l, r).0)
  }

  /**
   * A per-sample step `f` folded over the first `n` samples of a block `ls`, `rs`, in
   * order: the state reached and the first `n` samples of both outputs.
   */
  ghost function Run<S(!new)>(f: (S, real, real) --> (S, real, real), inv: S -> bool, s: S,
                        ls: seq<real>, rs: seq<real>, n: nat): (r: (S, seq<real>, seq<real>))
    requires Keeps(f, inv) && inv(s) && |ls| == |rs| && n <= |ls|
    ensures inv(r.0) && |r.1| == |r.2| == n
    decreases n, 0
  {
    if n == 0 then (s, [], []) else After(f, inv, s, ls, rs, n - 1)
  }

  /** The block up to and including sample `k`: `Run` on the first `k` samples, then `f` on sample `k`. */
  ghost function After<S(!new)>(f: (S, real, real) --> (S, real, real), inv: S -> bool, s: S,
                          ls: seq<real>, rs: seq<real>, k: nat): (r: (S, seq<real>, seq<real>))
    requires Keeps(f, inv) && inv(s) && |ls| == |rs| && k < |ls|
    ensures inv(r.0) && |r.1| == |r.2| == k + 1
    decreases k, 1
  {
    var prev := Run(f, inv, s, ls, rs, k);
    assert f.requires(prev.0, ls[k], rs[k]);
    var next := f(prev.0, ls[k], rs[k]);
    (next.0, prev.1 + [next.1], prev.2 + [next.2])
  }

  /** `Run` on `n + 1` samples is `Run` on `n`, then `f` on sample `n`. */
  lemma RunExtend<S(!new)>(f: (S, real, real) --> (S, real, real), inv: S -> bool, s: S, ls: seq<real>, rs: seq<real>, n: nat)
    requires Keeps(f, inv) && inv(s) && |ls| == |rs| && n < |ls|
    ensures var prev := Run(f, inv, s, ls, rs, n);
            f.requires(prev.0, ls[n], rs[n]) &&
            var next := f(prev.0, ls[n], rs[n]);
            Run(f, inv, s, ls, rs, n + 1) == (next.0, prev.1 + [next.1], prev.2 + [next.2])
  {
    assert Run(f, inv, s, ls, rs, n + 1) == After(f, inv, s, ls, rs, n);
  }

  /**
   * The two channels part way through a block processed in place: the state after the
   * first `n` samples, and in each channel their outputs followed by the inputs not yet
   * processed.
   */
  ghost function Progress<S(!new)>(f: (S, real, real) --> (S, real, real), inv: S -> bool, s: S,
                             ls: seq<real>, rs: seq<real>, n: nat): (r: (S, seq<real>, seq<real>))
    requires Keeps(f, inv) && inv(s) && |ls| == |rs| && n <= |ls|
    ensures inv(r.0) && |r.1| == |r.2| == |ls|
  {
    var run := Run(f, inv, s, ls, rs, n);
    (run.0, run.1 + ls[n..], run.2 + rs[n..])
  }

  /** Before the first sample the channels hold the block's input; after the last, the whole `Run`. */
  lemma ProgressEnds<S(!new)>(f: (S, real, real) --> (S, real, real), inv: S -> bool, s: S, ls: seq<real>, rs: seq<real>)
    requires Keeps(f, inv) && inv(s) && |ls| == |rs|
    ensures Progress(f, inv, s, ls, rs, 0) == (s, ls, rs)
    ensures Progress(f, inv, s, ls, rs, |ls|) == Run(f, inv, s, ls, rs, |ls|)
  {
    assert [] + ls[0..] == ls && [] + rs[0..] == rs;
    var run := Run(f, inv, s, ls, rs, |ls|);
    assert run.1 + ls[|ls|..] == run.1 && run.2 + rs[|rs|..] == run.2;
  }

  /**
   * Sample `n` processed in place: `f` on the state and on entry `n` of both channels,
   * whose outputs overwrite that entry.
   */
  lemma ProgressNext<S(!new)>(f: (S, real, real) --> (S, real, real), inv: S -> bool, s: S, ls: seq<real>, rs: seq<real>, n: nat)
    requires Keeps(f, inv) && inv(s) && |ls| == |rs| && n < |ls|
    ensures var p := Progress(f, inv, s, ls, rs, n);
            f.requires(p.0, p.1[n], p.2[n]) &&
            var next := f(p.0, p.1[n], p.2[n]);
            Progress(f, inv, s, ls, rs, n + 1) == (next.0, p.1[n := next.1], p.2[n := next.2])
  {
    var run := Run(f, inv, s, ls, rs, n);
    RunExtend(f, inv, s, ls, rs, n);
    Overwrite(run.1, ls, f(run.0, ls[n], rs[n]).1);
    Overwrite(run.2, rs, f(run.0, ls[n], rs[n]).2);
  }

  /** A step that passes both inputs through unchanged passes the whole block through. */
  lemma {:induction false} RunPassesThrough<S(!new)>(f: (S, real, real) --> (S, real, real), inv: S -> bool, s: S,
                                               ls: seq<real>, rs: seq<real>, n: nat)
    requires Keeps(f, inv) && inv(s) && |ls| == |rs| && n <= |ls|
    requires forall x, l, r :: inv(x) ==> f(x, l, r).1 == l && f(x, l, r).2 == r
    ensures Run(f, inv, s, ls, rs, n).1 == ls[..n] && Run(f, inv, s, ls, rs, n).2 == rs[..n]
  {
    if n > 0 {
      RunPassesThrough(f, inv, s, ls, rs, n - 1);
      assert ls[..n] == ls[..n - 1] + [ls[n - 1]];
      assert rs[..n] == rs[..n - 1] + [rs[n - 1]];
    }
  }

  /**
   * A step that, from every `quiet` state, maps two silent inputs to two silent outputs and
   * a `quiet` state again, fed a silent block from a `quiet` state, stays `quiet` and outputs silence.
   */
  lemma {:induction false} RunSilence<S(!new)>(f: (S, real, real) --> (S, real, real), inv: S -> bool, quiet: S -> bool,
                                         s: S, ls: seq<real>, rs: seq<real>, n: nat)
    requires Keeps(f, inv) && inv(s) && quiet(s) && |ls| == |rs| && n <= |ls|
    requires forall x {:trigger f(x, 0.0, 0.0)} :: inv(x) && quiet(x) ==>
               quiet(f(x, 0.0, 0.0).0) && f(x, 0.0, 0.0).1 == 0.0 && f(x, 0.0, 0.0).2 == 0.0
    requires forall i :: 0 <= i < |ls| ==> ls[i] == 0.0 && rs[i] == 0.0
    ensures var r := Run(f, inv, s, ls, rs, n);
            quiet(r.0) && forall i :: 0 <= i < n ==> r.1[i] == 0.0 && r.2[i] == 0.0
  {
    if n > 0 {
      RunSilence(f, inv, quiet, s, ls, rs, n - 1);
      RunExtend(f, inv, s, ls, rs, n - 1);
    }
  }
}
