/**
  The clock of one pulled track: presentation times in, decode times out.

  Decode order is given; the decode time is `max(previous + 1, pts - reserve)` with a reserve
  learned from the reordering seen so far.
 */
module Timing {
  import opened Util

  datatype Clock = Clock(timescale: nat, video: bool, reserve: int, lastDts: Option<int>, maxPts: Option<int>)

  datatype Stamped = Stamped(clock: Clock, dts: int, pts: int) {
    predicate Late() { dts > pts }
  }

  function Ticks(timescale: nat, micros: int): int {
    (micros * timescale + 500_000) / 1_000_000
  }

  function Reserve(c: Clock, pts: int): int {
    if c.video && c.maxPts.Some? && c.maxPts.value > pts then Max(c.reserve, c.maxPts.value - pts + 1) else c.reserve
  }

  /** The decode time the reserve alone asks for. */
  function Wanted(c: Clock, pts: int): int {
    if c.video then pts - Reserve(c, pts) else pts
  }

  predicate Bumped(c: Clock, pts: int) {
    c.lastDts.Some? && Wanted(c, pts) <= c.lastDts.value
  }

  function StampUs(c: Clock, ptsUs: int): Stamped {
    StampTicks(c, Ticks(c.timescale, ptsUs))
  }

  function StampTicks(c: Clock, pts: int): Stamped {
    var dts := if Bumped(c, pts) then c.lastDts.value + 1 else Wanted(c, pts);
    var out := if Bumped(c, pts) && !c.video then dts else pts;
    var widen := if Bumped(c, pts) && c.video && dts > pts then dts - pts else 0;
    Stamped(c.(reserve := Reserve(c, pts) + widen, lastDts := Some(dts), maxPts := High(c, pts)), dts, out)
  }

  function High(c: Clock, pts: int): Option<int> {
    if !c.video then c.maxPts
    else if c.maxPts.Some? then Some(Max(c.maxPts.value, pts)) else Some(pts)
  }

  /** The stamps of a whole run, frame by frame, in decode order. */
  function Trace(c: Clock, pts: seq<int>): (t: seq<Stamped>)
    ensures |t| == |pts|
    decreases |pts|
  {
    if pts == [] then [] else
      var s := StampTicks(c, pts[0]);
      [s] + Trace(s.clock, pts[1..])
  }

  function Fresh(timescale: nat): Clock {
    Clock(Max(timescale, 1), true, 0, None, None)
  }

  class TrackClock {
    const timescale: nat
    const video: bool
    var reserve: int
    var lastDts: Option<int>
    var maxPts: Option<int>

    function State(): Clock
      reads this
    {
      Clock(timescale, video, reserve, lastDts, maxPts)
    }

    constructor (timescale: nat, video: bool)
      ensures State() == Clock(Max(timescale, 1), video, 0, None, None)
    {
      this.timescale := Max(timescale, 1);
      this.video := video;
      reserve, lastDts, maxPts := 0, None, None;
    }

    method Stamp(ptsUs: int) returns (dts: int, pts: int)
      modifies this
      ensures Stamped(State(), dts, pts) == StampUs(old(State()), ptsUs)
    {
      pts := Ticks(timescale, ptsUs);
      if video {
        if maxPts.Some? && maxPts.value > pts {
          reserve := Max(reserve, maxPts.value - pts + 1);
        }
        maxPts := Some(if maxPts.Some? then Max(maxPts.value, pts) else pts);
        dts := pts - reserve;
      } else {
        dts := pts;
      }
      if lastDts.Some? && dts <= lastDts.value {
        dts := lastDts.value + 1;
        if !video {
          pts := dts;
        } else if dts > pts {
          reserve := reserve + (dts - pts);
        }
      }
      lastDts := Some(dts);
    }
  }

  // ---- What holds for every input ----

  /** Decode times strictly increase over every run, audio or video, and the reserve never shrinks. */
  lemma {:induction false} DtsIncreases(c: Clock, pts: seq<int>)
    ensures forall i :: 0 <= i < |pts| ==> c.reserve <= Trace(c, pts)[i].clock.reserve
    ensures forall i :: 0 <= i < |pts| && c.lastDts.Some? ==> c.lastDts.value < Trace(c, pts)[i].dts
    ensures forall i, j :: 0 <= i < j < |pts| ==>
      Trace(c, pts)[i].dts < Trace(c, pts)[j].dts && Trace(c, pts)[i].clock.reserve <= Trace(c, pts)[j].clock.reserve
    decreases |pts|
  {
    if pts != [] {
      var s := StampTicks(c, pts[0]);
      DtsIncreases(s.clock, pts[1..]);
    }
  }

  /** A stream presented in decode order is stamped with dts equal to pts throughout. */
  lemma {:induction false} InOrderIsExact(c: Clock, pts: seq<int>)
    requires c.reserve == 0 && c.maxPts == c.lastDts
    requires c.video
    requires c.lastDts.Some? && pts != [] ==> c.lastDts.value < pts[0]
    requires forall i, j :: 0 <= i < j < |pts| ==> pts[i] < pts[j]
    ensures forall i :: 0 <= i < |pts| ==> Trace(c, pts)[i].dts == Trace(c, pts)[i].pts == pts[i]
    decreases |pts|
  {
    if pts != [] {
      InOrderIsExact(StampTicks(c, pts[0]).clock, pts[1..]);
    }
  }

  // ---- Convergence ----

  /** Every pts is at most `r` below the running maximum. */
  ghost predicate Reordering(pts: seq<int>, r: nat) {
    forall i, j :: 0 <= i < j < |pts| ==> pts[i] - pts[j] <= r
  }

  ghost predicate Spaced(pts: seq<int>) {
    forall i, j :: 0 <= i < j < |pts| ==> pts[i] - pts[j] >= 2 || pts[j] - pts[i] >= 2
  }

  /** `hist[k]` was stamped where its reserve `rk` put it and everything after it was bumped. */
  ghost predicate InChain(c: Clock, hist: seq<int>, k: nat, rk: int) {
    && c.video
    && k < |hist|
    && c.lastDts == Some(hist[k] - rk + |hist| - 1 - k)
    && rk <= c.reserve
    && c.maxPts.Some?
  }

  /**
    The pigeonhole step: `m` frames after `hist[k]` a stream that never falls more than `r` behind
    has come at least `m - 2r` ticks further.
   */
  lemma {:induction false} ChainLength(all: seq<int>, k: nat, j: nat, r: nat)
    requires k <= j < |all|
    requires Distinct(all) && Reordering(all, r)
    ensures j - k <= all[j] - all[k] + 2 * r
  {
    if k < j {
      Pigeonhole(all[k..j + 1], all[k] - r, all[j] + r);
    }
  }

  lemma {:induction false} ChainLengthSpaced(all: seq<int>, k: nat, j: nat, r: nat)
    requires k <= j < |all|
    requires Spaced(all) && Reordering(all, r)
    ensures 2 * (j - k) <= all[j] - all[k] + 2 * r + 1
  {
    if k < j {
      var half := seq(j + 1 - k, i requires 0 <= i < j + 1 - k => all[k + i] / 2);
      forall a, b | 0 <= a < b < |half|
        ensures half[a] != half[b]
      {
        assert all[k + a] - all[k + b] >= 2 || all[k + b] - all[k + a] >= 2;
      }
      Pigeonhole(half, (all[k] - r) / 2, (all[j] + r) / 2);
    }
  }

  // ---- Exactly when no frame is late ----

  /** What the clock learns from a presentation time alone. */
  function Learned(c: Clock, pts: int): Clock {
    c.(reserve := Reserve(c, pts), maxPts := High(c, pts))
  }

  /** The decode times the input alone asks for: each pts minus the reserve the reordering before it calls for. */
  function Asked(c: Clock, pts: seq<int>): (a: seq<int>)
    ensures |a| == |pts|
    decreases |pts|
  {
    if pts == [] then [] else [Wanted(c, pts[0])] + Asked(Learned(c, pts[0]), pts[1..])
  }

  /** Counting up one tick a frame, from the last decode time or from any time asked for, never overtakes the input. */
  ghost predicate Fits(c: Clock, pts: seq<int>) {
    && (c.lastDts.Some? ==> forall i :: 0 <= i < |pts| ==> c.lastDts.value + 1 + i <= pts[i])
    && forall k, i :: 0 <= k < i < |pts| ==> Asked(c, pts)[k] + (i - k) <= pts[i]
  }

  /** One frame is late exactly when the last decode time has already reached its presentation time. */
  lemma {:induction false} LateExactly(c: Clock, pts: int)
    requires c.video && c.reserve >= 0
    ensures StampTicks(c, pts).Late() <==> c.lastDts.Some? && c.lastDts.value >= pts
  {}

  /** What has been asked for does not depend on the decode times handed out. */
  lemma {:induction false} AskedIgnoresLast(c: Clock, d: Clock, pts: seq<int>)
    requires c.video == d.video && c.reserve == d.reserve && c.maxPts == d.maxPts
    ensures Asked(c, pts) == Asked(d, pts)
    decreases |pts|
  {
    if pts != [] {
      AskedIgnoresLast(Learned(c, pts[0]), Learned(d, pts[0]), pts[1..]);
    }
  }

  /** `Fits`, one frame at a time. */
  lemma {:induction false} FitsStep(c: Clock, pts: seq<int>)
    requires c.video && c.reserve >= 0 && pts != []
    ensures var s := StampTicks(c, pts[0]);
            Fits(c, pts) <==> !s.Late() && Fits(s.clock, pts[1..])
  {
    var s, rest, a := StampTicks(c, pts[0]), pts[1..], Asked(c, pts);
    if !s.Late() {
      AskedIgnoresLast(Learned(c, pts[0]), s.clock, rest);
      assert a[0] == Wanted(c, pts[0]) && a[1..] == Asked(s.clock, rest);
      hide Asked, StampTicks;
      if Fits(c, pts) {
        forall i | 0 <= i < |rest|
          ensures s.dts + 1 + i <= rest[i]
        {
          assert a[0] + (i + 1 - 0) <= pts[i + 1];
          assert c.lastDts.Some? ==> c.lastDts.value + 1 + (i + 1) <= pts[i + 1];
        }
        forall k, i | 0 <= k < i < |rest|
          ensures a[1..][k] + (i - k) <= rest[i]
        {
          assert a[k + 1] + (i + 1 - (k + 1)) <= pts[i + 1];
        }
      }
      if Fits(s.clock, rest) {
        forall i | 0 <= i < |pts| && c.lastDts.Some?
          ensures c.lastDts.value + 1 + i <= pts[i]
        {
          if i > 0 {
            assert s.dts + 1 + (i - 1) <= rest[i - 1];
          }
        }
        forall k, i | 0 <= k < i < |pts|
          ensures a[k] + (i - k) <= pts[i]
        {
          assert s.dts + 1 + (i - 1) <= rest[i - 1];
          if k > 0 {
            assert a[1..][k - 1] + (i - 1 - (k - 1)) <= rest[i - 1];
          }
        }
      }
    }
  }

  ghost predicate NoneLate(t: seq<Stamped>) {
    forall i :: 0 <= i < |t| ==> !t[i].Late()
  }

  lemma {:induction false} NoneLateStep(t: seq<Stamped>)
    requires t != []
    ensures NoneLate(t) <==> !t[0].Late() && NoneLate(t[1..])
  {
    if !t[0].Late() && NoneLate(t[1..]) {
      forall i | 0 <= i < |t|
        ensures !t[i].Late()
      {
        if i > 0 {
          assert !t[1..][i - 1].Late();
        }
      }
    }
  }

  /**
    The exact condition, for any clock and so for any tail of a run: no frame is late if and only if counting
    up one tick a frame, from the last decode time and from each time the input asks for, never overtakes a
    presentation time.
   */
  lemma {:induction false} NeverLateExactly(c: Clock, pts: seq<int>)
    requires c.video && c.reserve >= 0
    ensures NoneLate(Trace(c, pts)) <==> Fits(c, pts)
    decreases |pts|
  {
    hide StampTicks, Fits;
    if pts == [] {
      NothingFits(c, pts);
    } else {
      var s := StampTicks(c, pts[0]);
      ReserveGrows(c, pts[0]);
      FitsStep(c, pts);
      NeverLateExactly(s.clock, pts[1..]);
      assert Trace(c, pts)[0] == s && Trace(c, pts)[1..] == Trace(s.clock, pts[1..]);
      NoneLateStep(Trace(c, pts));
    }
  }

  lemma {:induction false} NothingFits(c: Clock, pts: seq<int>)
    requires pts == []
    ensures Fits(c, pts)
  {}

  lemma {:induction false} ReserveGrows(c: Clock, pts: int)
    requires c.video && c.reserve >= 0
    ensures StampTicks(c, pts).clock.video && StampTicks(c, pts).clock.reserve >= c.reserve
  {}

  /** A reserve that covers the reordering stays what it is while no frame is late, and is what every frame is given. */
  lemma {:induction false} ReserveStays(c: Clock, pts: seq<int>, r: nat)
    requires c.video && c.reserve >= 2 * r && Reordering(pts, r)
    requires c.maxPts.Some? ==> forall i :: 0 <= i < |pts| ==> c.maxPts.value - pts[i] <= r
    ensures forall i :: 0 <= i < |pts| ==> Asked(c, pts)[i] == pts[i] - c.reserve
    ensures NoneLate(Trace(c, pts)) ==>
      forall i :: 0 <= i < |pts| ==> Trace(c, pts)[i].clock.reserve == c.reserve
    decreases |pts|
  {
    if pts != [] {
      var s, rest := StampTicks(c, pts[0]), pts[1..];
      assert Reserve(c, pts[0]) == c.reserve;
      assert Reordering(rest, r);
      forall i | 0 <= i < |rest|
        ensures High(c, pts[0]).value - rest[i] <= r
      {
        assert pts[0] - pts[i + 1] <= r;
      }
      ReserveStays(Learned(c, pts[0]), rest, r);
      ReserveStays(s.clock.(reserve := c.reserve), rest, r);
      assert Trace(c, pts)[0] == s && Trace(c, pts)[1..] == Trace(s.clock, rest);
      assert !s.Late() ==> s.clock.(reserve := c.reserve) == s.clock;
      NoneLateStep(Trace(c, pts));
    }
  }

  /**
    Convergence, from the exact condition: after the first frame that is not bumped and meets a reserve of at
    least twice the reordering depth `r`, no frame is late and the reserve has stopped moving.
   */
  lemma {:induction false} ConvergesOnceReserved(c: Clock, first: int, pts: seq<int>, r: nat)
    requires c.video && c.reserve >= 2 * r && !Bumped(c, first)
    requires Distinct([first] + pts) && Reordering([first] + pts, r)
    requires c.maxPts.Some? ==> c.maxPts.value - first <= r && forall x <- pts :: c.maxPts.value - x <= r
    ensures var t := Trace(c, [first] + pts);
            forall i :: 0 <= i < |t| ==> !t[i].Late() && t[i].clock.reserve == c.reserve
  {
    var all := [first] + pts;
    forall i | 0 <= i < |all| && c.maxPts.Some?
      ensures c.maxPts.value - all[i] <= r
    {
      if i > 0 {
        assert all[i] in pts;
      }
    }
    ReserveStays(c, all, r);
    forall k, i | 0 <= k < i < |all|
      ensures Asked(c, all)[k] + (i - k) <= all[i]
    {
      ChainLength(all, k, i, r);
    }
    assert Asked(c, all)[0] == Wanted(c, first);
    hide Asked, Trace;
    forall i | 0 <= i < |all| && c.lastDts.Some?
      ensures c.lastDts.value + 1 + i <= all[i]
    {
      if i > 0 {
        assert Asked(c, all)[0] + (i - 0) <= all[i];
      }
    }
    NeverLateExactly(c, all);
  }

  function LateFrames(t: seq<Stamped>): nat {
    if t == [] then 0 else (if t[0].Late() then 1 else 0) + LateFrames(t[1..])
  }

  lemma {:induction false} LateFramesStep(c: Clock, pts: seq<int>)
    requires pts != []
    ensures var s := StampTicks(c, pts[0]);
            LateFrames(Trace(c, pts)) == (if s.Late() then 1 else 0) + LateFrames(Trace(s.clock, pts[1..]))
  {
    assert Trace(c, pts)[1..] == Trace(StampTicks(c, pts[0]).clock, pts[1..]);
  }

  /** Each late frame widens the reserve, so late frames never outnumber the reserve. */
  lemma {:induction false} LateFramesWiden(c: Clock, pts: seq<int>)
    requires c.video && c.reserve >= 0
    ensures pts != [] ==> c.reserve + LateFrames(Trace(c, pts)) <= Trace(c, pts)[|pts| - 1].clock.reserve
    decreases |pts|
  {
    if pts != [] {
      LateFramesWiden(StampTicks(c, pts[0]).clock, pts[1..]);
      LateFramesStep(c, pts);
    }
  }

  /**
    The accounting behind `FewLateFrames`: `late` frames were late so far, `inChain` of them since
    the last unbumped frame `hist[k]`, whose reserve was `rk`.
   */
  ghost predicate Accounted(c: Clock, hist: seq<int>, k: nat, rk: nat, late: nat, inChain: nat, r: nat) {
    && InChain(c, hist, k, rk)
    && inChain <= |hist| - 1 - k
    && rk + inChain <= c.reserve
    && (inChain > 0 ==> rk + inChain <= 2 * r)
    && late <= 2 * r * Min(rk, 2 * r) + inChain
  }

  lemma {:induction false} MulStep(r: nat, a: nat, b: nat)
    requires a < b
    ensures 2 * r * a + 2 * r <= 2 * r * b
  {
    var d := b - a - 1;
    assert r * (a + 1 + d) == r * a + r + r * d;
  }

  lemma {:induction false} AccountStep(c: Clock, hist: seq<int>, k: nat, rk: nat, late: nat, inChain: nat, p: int,
          r: nat)
    returns (k': nat, rk': nat, late': nat, inChain': nat)
    requires Accounted(c, hist, k, rk, late, inChain, r)
    requires Spaced(hist + [p]) && Reordering(hist + [p], r)
    ensures var s := StampTicks(c, p);
            && Accounted(s.clock, hist + [p], k', rk', late', inChain', r)
            && late' == late + (if s.Late() then 1 else 0)
  {
    var s := StampTicks(c, p);
    var all, n := hist + [p], |hist|;
    late' := late + (if s.Late() then 1 else 0);
    ChainLengthSpaced(all, k, n, r);
    if Bumped(c, p) {
      k', rk', inChain' := k, rk, inChain + (if s.Late() then 1 else 0);
    } else {
      k', rk', inChain' := n, Reserve(c, p), 0;
      if inChain > 0 && rk < 2 * r {
        MulStep(r, rk, Min(rk', 2 * r));
      } else if Min(rk, 2 * r) < Min(rk', 2 * r) {
        MulStep(r, Min(rk, 2 * r), Min(rk', 2 * r));
      }
    }
  }

  lemma {:induction false} AccountedBound(c: Clock, hist: seq<int>, k: nat, rk: nat, late: nat, inChain: nat, r: nat)
    requires Accounted(c, hist, k, rk, late, inChain, r)
    ensures late <= 4 * r * r
  {
    hide InChain;
    var a := Min(rk, 2 * r);
    if a < 2 * r {
      MulStep(r, a, 2 * r);
    }
    assert 2 * r * (2 * r) == 4 * r * r;
  }

  lemma {:induction false} LateFramesBounded(c: Clock, hist: seq<int>, k: nat, rk: nat, late: nat, inChain: nat,
                                             pts: seq<int>, r: nat)
    requires Accounted(c, hist, k, rk, late, inChain, r)
    requires Spaced(hist + pts) && Reordering(hist + pts, r)
    ensures late + LateFrames(Trace(c, pts)) <= 4 * r * r
    decreases |pts|
  {
    if pts == [] {
      AccountedBound(c, hist, k, rk, late, inChain, r);
    } else {
      hide Accounted, StampTicks, Trace, LateFrames;
      var s := StampTicks(c, pts[0]);
      assert hist + [pts[0]] == (hist + pts)[..|hist| + 1];
      var k', rk', late', inChain' := AccountStep(c, hist, k, rk, late, inChain, pts[0], r);
      assert hist + [pts[0]] + pts[1..] == hist + pts;
      LateFramesBounded(s.clock, hist + [pts[0]], k', rk', late', inChain', pts[1..], r);
      LateFramesStep(c, pts);
    }
  }

  /**
    The convergence theorem, with no assumption on the clock's history: presentation times at least two
    ticks apart and at most `r` ticks out of order give at most `4 r^2` late frames over a whole run,
    however long.
   */
  lemma {:induction false} FewLateFrames(timescale: nat, pts: seq<int>, r: nat)
    requires Spaced(pts) && Reordering(pts, r)
    ensures LateFrames(Trace(Fresh(timescale), pts)) <= 4 * r * r
  {
    if pts != [] {
      var c := Fresh(timescale);
      var s := StampTicks(c, pts[0]);
      assert [pts[0]] + pts[1..] == pts;
      LateFramesBounded(s.clock, [pts[0]], 0, 0, 0, 0, pts[1..], r);
      LateFramesStep(c, pts);
    }
  }

  /** `2, 1, 4, 3, 6, 5, ...`: neighbours swapped, one tick apart. */
  function Swaps(from: nat, pairs: nat): seq<int>
    decreases pairs
  {
    if pairs == 0 then [] else [from + 2, from + 1] + Swaps(from + 2, pairs - 1)
  }

  lemma {:induction false} SwapsShape(from: nat, pairs: nat)
    ensures |Swaps(from, pairs)| == 2 * pairs
    ensures forall i :: 0 <= i < pairs ==>
      Swaps(from, pairs)[2 * i] == from + 2 * i + 2 && Swaps(from, pairs)[2 * i + 1] == from + 2 * i + 1
    decreases pairs
  {
    if pairs > 0 {
      SwapsShape(from + 2, pairs - 1);
      forall i | 0 <= i < pairs
        ensures Swaps(from, pairs)[2 * i] == from + 2 * i + 2 && Swaps(from, pairs)[2 * i + 1] == from + 2 * i + 1
      {
        if i > 0 {
          assert Swaps(from, pairs)[2 * i] == Swaps(from + 2, pairs - 1)[2 * (i - 1)];
          assert Swaps(from, pairs)[2 * i + 1] == Swaps(from + 2, pairs - 1)[2 * (i - 1) + 1];
        }
      }
    }
  }

  lemma {:induction false} SwapsStayLate(c: Clock, from: nat, pairs: nat)
    requires c.video && c.maxPts == Some(from)
    requires from == 0 ==> c.reserve == 0 && c.lastDts == Some(0)
    requires from > 0 ==> c.reserve == from + 2 && c.lastDts == Some(from + 1)
    ensures |Swaps(from, pairs)| == 2 * pairs
    ensures LateFrames(Trace(c, Swaps(from, pairs))) == pairs
    decreases pairs
  {
    if pairs > 0 {
      var pts := Swaps(from, pairs);
      var a := StampTicks(c, pts[0]);
      var b := StampTicks(a.clock, pts[1]);
      assert pts[1..][1..] == Swaps(from + 2, pairs - 1) && pts[1..][0] == pts[1];
      SwapsStayLate(b.clock, from + 2, pairs - 1);
      LateFramesStep(c, pts);
      LateFramesStep(a.clock, pts[1..]);
    }
  }

  lemma {:induction false} DenseShape(pairs: nat)
    ensures Distinct([0] + Swaps(0, pairs)) && Reordering([0] + Swaps(0, pairs), 1)
  {
    var pts := [0] + Swaps(0, pairs);
    SwapsShape(0, pairs);
    forall i | 0 < i < |pts|
      ensures pts[i] == if i % 2 == 1 then i + 1 else i - 1
    {
      if i % 2 == 1 {
        assert pts[i] == Swaps(0, pairs)[2 * (i / 2)];
      } else {
        assert pts[i] == Swaps(0, pairs)[2 * (i / 2 - 1) + 1];
      }
    }
  }

  /**
    Two ticks of spacing are needed: with presentation times one tick apart and a reordering depth of
    one, the second frame of every pair is late, for ever. So decode times do not stay below
    presentation times "after the first reordered frame", nor after any other.
   */
  lemma {:induction false} DenseNeverConverges(pairs: nat)
    ensures var pts := [0] + Swaps(0, pairs);
            && Distinct(pts) && Reordering(pts, 1)
            && LateFrames(Trace(Fresh(1_000_000), pts)) == pairs
  {
    DenseShape(pairs);
    var pts := [0] + Swaps(0, pairs);
    assert pts[1..] == Swaps(0, pairs);
    SwapsStayLate(StampTicks(Fresh(1_000_000), 0).clock, 0, pairs);
    LateFramesStep(Fresh(1_000_000), pts);
  }

  // ---- Rebase: one timeline across origins ----

  const GAP_US := 50_000

  datatype Base = Base(offset: int, high: Option<int>, pending: bool)

  function NewOffset(b: Base, raw: int): int {
    if b.pending && b.high.Some? then b.high.value + GAP_US - raw else b.offset
  }

  function Mapped(b: Base, raw: int): int {
    raw + NewOffset(b, raw)
  }

  function AfterMap(b: Base, raw: int): Base {
    var t := Mapped(b, raw);
    Base(NewOffset(b, raw), Some(if b.high.Some? then Max(b.high.value, t) else t), false)
  }

  class Rebase {
    var offsetUs: int
    var highUs: Option<int>
    var pending: bool

    function State(): Base
      reads this
    {
      Base(offsetUs, highUs, pending)
    }

    constructor ()
      ensures State() == Base(0, None, false)
    {
      offsetUs, highUs, pending := 0, None, false;
    }

    method NewSource()
      modifies this
      ensures State() == old(State()).(pending := true)
    {
      pending := true;
    }

    method Map(rawUs: int) returns (t: int)
      modifies this
      ensures t == Mapped(old(State()), rawUs) && State() == AfterMap(old(State()), rawUs)
    {
      if pending {
        pending := false;
        if highUs.Some? {
          offsetUs := highUs.value + GAP_US - rawUs;
        }
      }
      t := rawUs + offsetUs;
      highUs := Some(if highUs.Some? then Max(highUs.value, t) else t);
    }
  }

  /** One source after another: what each source's frames are mapped to. */
  function MapSource(b: Base, raws: seq<int>): (r: (seq<int>, Base))
    ensures |r.0| == |raws|
    decreases |raws|
  {
    if raws == [] then ([], b) else
      var (ts, b') := MapSource(AfterMap(b, raws[0]), raws[1..]);
      ([Mapped(b, raws[0])] + ts, b')
  }

  /**
    Within a source all distances are kept; a new source's first frame lands exactly `GAP_US` after
    the newest time handed out before it, whatever its own clock says.
   */
  lemma {:induction false} RebaseContinues(b: Base, raws: seq<int>)
    ensures var (ts, b') := MapSource(b, raws);
            && (forall i, j :: 0 <= i < j < |raws| ==> ts[j] - ts[i] == raws[j] - raws[i])
            && (raws != [] && b.pending && b.high.Some? ==> ts[0] == b.high.value + GAP_US)
            && (raws != [] && !b.pending ==> ts[0] == raws[0] + b.offset)
            && (raws != [] ==> b'.high.Some? && !b'.pending)
            && (forall i :: 0 <= i < |raws| ==> ts[i] <= b'.high.value)
            && (b.high.Some? ==> b'.high.Some? && b.high.value <= b'.high.value)
            && (b'.high.Some? ==> b'.high == b.high || b'.high.value in ts)
    decreases |raws|
  {
    if raws != [] {
      var b1 := AfterMap(b, raws[0]);
      RebaseContinues(b1, raws[1..]);
      var (ts, b') := MapSource(b1, raws[1..]);
      assert MapSource(b, raws).0 == [Mapped(b, raws[0])] + ts;
      if |raws| > 1 {
        assert ts[0] - Mapped(b, raws[0]) == raws[1] - raws[0];
      }
      forall i, j | 0 <= i < j < |raws|
        ensures MapSource(b, raws).0[j] - MapSource(b, raws).0[i] == raws[j] - raws[i]
      {
        if i == 0 && j > 1 {
          assert ts[j - 1] - ts[0] == raws[1..][j - 1] - raws[1..][0];
        }
      }
    }
  }
}
