/** Shared vocabulary: the option type, Rust's integer division, and counting arguments. */
module Util {

  datatype Option<+T> = None | Some(value: T)

  /** Rust's `/` on signed integers, for a positive divisor: rounds toward zero. */
  function TruncDiv(a: int, b: int): int
    requires b > 0
  {
    if a >= 0 then a / b else -((-a) / b)
  }

  const SECOND := 1_000_000

  /** The time of a tick in microseconds, rounded as Rust rounds it; a clock rate of zero counts as one. */
  function MicrosOf(ticks: int, timescale: nat): int {
    TruncDiv(ticks * SECOND, Max(timescale, 1))
  }

  function CeilDiv(a: nat, b: nat): nat
    requires b > 0
  {
    (a + b - 1) / b
  }

  function Max(a: int, b: int): int {
    if a > b then a else b
  }

  function Min(a: int, b: int): int {
    if a < b then a else b
  }

  ghost predicate Distinct<T(!new)>(s: seq<T>) {
    forall i, j :: 0 <= i < j < |s| ==> s[i] != s[j]
  }

  ghost function Range(lo: int, hi: int): (r: set<int>)
    requires lo <= hi + 1
    ensures forall x :: x in r <==> lo <= x <= hi
    ensures |r| == hi - lo + 1
    decreases hi - lo + 1
  {
    if lo == hi + 1 then {} else Range(lo, hi - 1) + {hi}
  }

  lemma {:induction false} DistinctSize<T>(s: seq<T>)
    requires forall i, j :: 0 <= i < j < |s| ==> s[i] != s[j]
    ensures |set x | x in s| == |s|
  {
    if s != [] {
      var rest := s[..|s| - 1];
      DistinctSize(rest);
      assert (set x | x in s) == (set x | x in rest) + {s[|s| - 1]};
    }
  }

  /** Pigeonhole: distinct integers between `lo` and `hi` are at most `hi - lo + 1` many. */
  lemma {:induction false} Pigeonhole(s: seq<int>, lo: int, hi: int)
    requires Distinct(s)
    requires forall i :: 0 <= i < |s| ==> lo <= s[i] <= hi
    requires s != []
    ensures |s| <= hi - lo + 1
  {
    DistinctSize(s);
    var elements := set x | x in s;
    SubsetSize(elements, Range(lo, hi));
  }

  lemma {:induction false} SubsetSize<T>(a: set<T>, b: set<T>)
    requires a <= b
    ensures |a| <= |b|
  {
    if a != {} {
      var x :| x in a;
      SubsetSize(a - {x}, b - {x});
    }
  }

  lemma {:induction false} AddAssoc<T>(a: seq<T>, b: seq<T>, c: seq<T>)
    ensures a + b + c == a + (b + c)
  {}

  // ---- Products and quotients ----

  lemma {:induction false} TimesLe(a: int, b: int, n: int)
    requires a <= b && n >= 0
    ensures a * n <= b * n
  {}

  lemma {:induction false} LessOfTimes(a: int, b: int, n: nat)
    requires n * a < n * b
    ensures a < b
  {
    if a >= b {
      TimesLe(b, a, n);
    }
  }

  lemma {:induction false} DivMonotone(a: int, b: int, d: nat)
    requires a <= b && d >= 1
    ensures a / d <= b / d
  {
    var p, q := a / d, b / d;
    assert a == d * p + a % d && b == d * q + b % d;
    LessOfTimes(p, q + 1, d);
  }
}
