/**
  The streaming resampler: what it gives out does not depend on how its input is cut into pieces. The filter
  kernel is left open; positions are exact, in units of one input sample over `dst`.
 */
module Resampler {
  import opened Util

  datatype Filter = Filter(src: nat, dst: nat, half: nat, kernel: int -> real)

  predicate Ok(f: Filter) {
    f.src >= 1 && f.dst >= 1
  }

  /** `input` holds the input from sample `base` on; `next` is the next output sample. */
  datatype State = State(input: seq<real>, base: nat, next: nat)

  /** The input sample at or before the centre of output sample `n`. */
  function Centre(f: Filter, n: nat): nat
    requires Ok(f)
  {
    n * f.src / f.dst
  }

  function First(f: Filter, n: nat): nat
    requires Ok(f)
  {
    Max(Centre(f, n) - f.half + 1, 0)
  }

  /** The input up to sample `end` is enough for output sample `n`. */
  predicate Enough(f: Filter, n: nat, end: nat)
    requires Ok(f)
  {
    Centre(f, n) + f.half < end
  }

  /** The filter at output sample `n` over the input samples from `lo` up to `hi`, held from `base` on. */
  function Weighted(f: Filter, input: seq<real>, base: nat, n: nat, lo: nat, hi: nat): real
    requires base <= lo && hi <= base + |input|
    decreases hi
  {
    if hi <= lo then 0.0
    else Weighted(f, input, base, n, lo, hi - 1) + input[hi - 1 - base] * f.kernel(n * f.src - (hi - 1) * f.dst)
  }

  function Output(f: Filter, s: State): real
    requires Ok(f) && Enough(f, s.next, s.base + |s.input|)
  {
    Weighted(f, s.input, s.base, s.next, Max(First(f, s.next), s.base), Centre(f, s.next) + f.half + 1)
  }

  lemma {:induction false} EnoughBounds(f: Filter, n: nat, end: nat)
    requires Ok(f) && Enough(f, n, end)
    ensures n < end * f.dst
  {
    var c := n * f.src / f.dst;
    assert n * f.src == f.dst * c + n * f.src % f.dst;
    TimesLe(c + 1, end, f.dst);
    TimesLe(1, f.src, n);
    assert (c + 1) * f.dst == f.dst * c + f.dst;
  }

  /** Every output sample the input is enough for. */
  function Drain(f: Filter, s: State): (State, seq<real>)
    requires Ok(f)
    decreases (s.base + |s.input|) * f.dst + 1 - s.next
  {
    if !Enough(f, s.next, s.base + |s.input|) then (s, []) else
      EnoughBounds(f, s.next, s.base + |s.input|);
      var rest := Drain(f, s.(next := s.next + 1));
      (rest.0, [Output(f, s)] + rest.1)
  }

  /** Input no later output needs is dropped. */
  function Trim(f: Filter, s: State): State
    requires Ok(f)
  {
    var keep := First(f, s.next);
    if keep > s.base then
      var drop := Min(keep - s.base, |s.input|);
      s.(input := s.input[drop..], base := s.base + drop)
    else s
  }

  function Process(f: Filter, s: State, pcm: seq<real>): (State, seq<real>)
    requires Ok(f)
  {
    if f.src == f.dst then (s, pcm) else
      var drained := Drain(f, s.(input := s.input + pcm));
      (Trim(f, drained.0), drained.1)
  }

  const START := State([], 0, 0)

  class Resampler {
    const filter: Filter
    var input: seq<real>
    var base: nat
    var next: nat

    function Now(): State
      reads this
    {
      State(input, base, next)
    }

    constructor (src: nat, dst: nat, half: nat, kernel: int -> real)
      ensures filter == Filter(Max(src, 1), Max(dst, 1), half, kernel) && Now() == START
    {
      filter := Filter(Max(src, 1), Max(dst, 1), half, kernel);
      input, base, next := [], 0, 0;
    }

    method Sum() returns (acc: real)
      requires Ok(filter) && Enough(filter, next, base + |input|)
      ensures acc == Output(filter, Now())
    {
      var lo, hi := Max(First(filter, next), base), Centre(filter, next) + filter.half + 1;
      acc := 0.0;
      if lo < hi {
        for i := lo to hi
          invariant acc == Weighted(filter, input, base, next, lo, i)
        {
          acc := acc + input[i - base] * filter.kernel(next * filter.src - i * filter.dst);
        }
      }
    }

    method Run(pcm: seq<real>) returns (out: seq<real>)
      requires Ok(filter)
      modifies this
      ensures (Now(), out) == Process(filter, old(Now()), pcm)
    {
      hide First, Enough, Output;
      if filter.src == filter.dst {
        return pcm;
      }
      input := input + pcm;
      out := [];
      ghost var s := Now();
      while Enough(filter, next, base + |input|)
        invariant input == s.input && base == s.base
        invariant Drain(filter, s).0 == Drain(filter, Now()).0 && Drain(filter, s).1 == out + Drain(filter, Now()).1
        decreases (base + |input|) * filter.dst + 1 - next
      {
        EnoughBounds(filter, next, base + |input|);
        var acc := Sum();
        out := out + [acc];
        next := next + 1;
      }
      assert out + [] == out;
      var keep := First(filter, next);
      if keep > base {
        var drop := Min(keep - base, |input|);
        input := input[drop..];
        base := base + drop;
      }
    }
  }

  // ---- Streaming equals batch ----

  /** Output sample `n` of a whole input. */
  function Ideal(f: Filter, all: seq<real>, n: nat): real
    requires Ok(f) && Enough(f, n, |all|)
  {
    Weighted(f, all, 0, n, First(f, n), Centre(f, n) + f.half + 1)
  }

  ghost predicate IsOutput(f: Filter, x: real, all: seq<real>, n: nat)
    requires Ok(f)
  {
    Enough(f, n, |all|) && x == Ideal(f, all, n)
  }

  /** The state holds what later outputs need of everything fed so far, and has given out all it could. */
  ghost predicate Holds(f: Filter, s: State, fed: seq<real>) {
    && Ok(f) && s.base <= |fed| && s.input == fed[s.base..] && s.base <= First(f, s.next)
  }

  /** What was kept gives the same sum as the whole input. */
  lemma {:induction false} WeightedKept(f: Filter, all: seq<real>, base: nat, n: nat, lo: nat, hi: nat)
    requires base <= lo && hi <= |all| && base <= |all|
    ensures Weighted(f, all[base..], base, n, lo, hi) == Weighted(f, all, 0, n, lo, hi)
    decreases hi
  {
    if hi > lo {
      WeightedKept(f, all, base, n, lo, hi - 1);
    }
  }

  /** Input still to come does not matter. */
  lemma {:induction false} WeightedLater(f: Filter, all: seq<real>, more: seq<real>, n: nat, lo: nat, hi: nat)
    requires hi <= |all|
    ensures Weighted(f, all + more, 0, n, lo, hi) == Weighted(f, all, 0, n, lo, hi)
    decreases hi
  {
    if hi > lo {
      WeightedLater(f, all, more, n, lo, hi - 1);
    }
  }

  lemma {:induction false} CentreGrows(f: Filter, n: nat)
    requires Ok(f)
    ensures Centre(f, n) <= Centre(f, n + 1) && First(f, n) <= First(f, n + 1)
  {
    assert (n + 1) * f.src == n * f.src + f.src;
    DivMonotone(n * f.src, (n + 1) * f.src, f.dst);
  }

  /** What `Drain` gives out are the ideal outputs, one after the other, as far as the input reaches. */
  lemma {:induction false} DrainIsIdeal(f: Filter, s: State, fed: seq<real>)
    requires Holds(f, s, fed)
    ensures var (t, out) := Drain(f, s);
            && Holds(f, t, fed) && t.base == s.base && t.next == s.next + |out| && !Enough(f, t.next, |fed|)
            && forall k :: 0 <= k < |out| ==> IsOutput(f, out[k], fed, s.next + k)
    decreases (s.base + |s.input|) * f.dst + 1 - s.next
  {
    hide Weighted, Centre, First;
    if Enough(f, s.next, s.base + |s.input|) {
      EnoughBounds(f, s.next, s.base + |s.input|);
      CentreGrows(f, s.next);
      WeightedKept(f, fed, s.base, s.next, First(f, s.next), Centre(f, s.next) + f.half + 1);
      assert Output(f, s) == Ideal(f, fed, s.next);
      DrainIsIdeal(f, s.(next := s.next + 1), fed);
    }
  }

  lemma {:induction false} TrimHolds(f: Filter, s: State, fed: seq<real>)
    requires Holds(f, s, fed)
    ensures Holds(f, Trim(f, s), fed) && Trim(f, s).next == s.next
  {
    hide First;
  }

  /** All the outputs of a run of pieces, in order. */
  function Stream(f: Filter, s: State, pieces: seq<seq<real>>): seq<real>
    requires Ok(f)
    decreases |pieces|
  {
    if pieces == [] then [] else
      var r := Process(f, s, pieces[0]);
      r.1 + Stream(f, r.0, pieces[1..])
  }

  function Joined(pieces: seq<seq<real>>): seq<real> {
    if pieces == [] then [] else pieces[0] + Joined(pieces[1..])
  }

  lemma {:induction false} IdealLater(f: Filter, fed: seq<real>, more: seq<real>, n: nat)
    requires Ok(f) && Enough(f, n, |fed|)
    ensures Enough(f, n, |fed + more|) && Ideal(f, fed + more, n) == Ideal(f, fed, n)
  {
    hide Weighted;
    WeightedLater(f, fed, more, n, First(f, n), Centre(f, n) + f.half + 1);
  }

  /** The outputs of a run are the ideal ones from `s.next` on, up to the last the whole input is enough for. */
  ghost predicate IsIdeal(f: Filter, out: seq<real>, all: seq<real>, from: nat)
    requires Ok(f)
  {
    && !Enough(f, from + |out|, |all|)
    && forall k :: 0 <= k < |out| ==> IsOutput(f, out[k], all, from + k)
  }

  lemma {:induction false} StreamIsIdeal(f: Filter, s: State, fed: seq<real>, pieces: seq<seq<real>>)
    requires Holds(f, s, fed) && f.src != f.dst && !Enough(f, s.next, |fed|)
    ensures IsIdeal(f, Stream(f, s, pieces), fed + Joined(pieces), s.next)
    decreases |pieces|
  {
    hide Enough, Ideal, Drain, Trim, First;
    if pieces == [] {
      assert fed + Joined(pieces) == fed;
    } else {
      var more, rest := fed + pieces[0], Joined(pieces[1..]);
      var start := s.(input := s.input + pieces[0]);
      assert start.input == more[s.base..];
      DrainIsIdeal(f, start, more);
      var (t, out) := Drain(f, start);
      TrimHolds(f, t, more);
      StreamIsIdeal(f, Trim(f, t), more, pieces[1..]);
      assert more + rest == fed + Joined(pieces);
      var later := Stream(f, Trim(f, t), pieces[1..]);
      assert Stream(f, s, pieces) == out + later;
      forall k | 0 <= k < |out + later|
        ensures IsOutput(f, (out + later)[k], more + rest, s.next + k)
      {
        if k < |out| {
          assert IsOutput(f, out[k], more, s.next + k);
          IdealLater(f, more, rest, s.next + k);
        } else {
          assert (out + later)[k] == later[k - |out|];
          assert s.next + k == t.next + (k - |out|);
        }
      }
      assert s.next + |out + later| == t.next + |later|;
    }
  }

  lemma {:induction false} EnoughAt(f: Filter, out: seq<real>, all: seq<real>, from: nat, k: nat)
    requires Ok(f) && IsIdeal(f, out, all, from) && k < |out|
    ensures Enough(f, from + k, |all|)
  {
    assert IsOutput(f, out[k], all, from + k);
  }

  lemma {:induction false} SameIdeal(f: Filter, a: seq<real>, b: seq<real>, all: seq<real>, from: nat)
    requires Ok(f) && IsIdeal(f, a, all, from) && IsIdeal(f, b, all, from)
    ensures a == b
  {
    hide Ideal, Enough;
    assert |a| == |b| ==> forall k :: 0 <= k < |a| ==>
      IsOutput(f, a[k], all, from + k) && IsOutput(f, b[k], all, from + k);
    if |a| < |b| {
      EnoughAt(f, b, all, from, |a|);
    } else if |b| < |a| {
      EnoughAt(f, a, all, from, |b|);
    }
  }

  /** However the input is cut into pieces, the outputs together are those of one call on the whole input. */
  lemma {:induction false} StreamingEqualsBatch(f: Filter, pieces: seq<seq<real>>)
    requires Ok(f)
    ensures Stream(f, START, pieces) == Stream(f, START, [Joined(pieces)])
    ensures f.src != f.dst ==> IsIdeal(f, Stream(f, START, pieces), Joined(pieces), 0)
  {
    if f.src == f.dst {
      PassesThrough(f, pieces);
      PassesThrough(f, [Joined(pieces)]);
      assert Joined([Joined(pieces)]) == Joined(pieces) + Joined([]);
    } else {
      hide Process, Enough, Ideal;
      NothingYet(f);
      StreamIsIdeal(f, START, [], pieces);
      StreamIsIdeal(f, START, [], [Joined(pieces)]);
      assert [] + Joined(pieces) == Joined(pieces);
      assert [Joined(pieces)][1..] == [];
      assert Joined([Joined(pieces)]) == Joined(pieces) + [];
      assert [] + Joined([Joined(pieces)]) == Joined(pieces);
      SameIdeal(f, Stream(f, START, pieces), Stream(f, START, [Joined(pieces)]), Joined(pieces), 0);
    }
  }

  lemma {:induction false} NothingYet(f: Filter)
    requires Ok(f)
    ensures Holds(f, START, []) && !Enough(f, START.next, 0)
  {}

  lemma {:induction false} PassesThrough(f: Filter, pieces: seq<seq<real>>)
    requires Ok(f) && f.src == f.dst
    ensures Stream(f, START, pieces) == Joined(pieces)
    decreases |pieces|
  {
    hide Drain, Trim;
    if pieces != [] {
      PassesThrough(f, pieces[1..]);
    }
  }
}
