/**
  What the stitcher's record of a track says about the frames that went out on it, over every run; and so where the
  first frame of a segment goes.
 */
module StitchRecord {
  import opened Util
  import opened Stitcher

  /** When the frames of a track went out. */
  function Went(outs: seq<Out>, track: nat): seq<Moment>
    decreases |outs|
  {
    if outs == [] then [] else
      var o := outs[|outs| - 1];
      Went(outs[..|outs| - 1], track) + if o.track == track then [o.at] else []
  }

  /** The last two frames out were on one clock. */
  predicate OneClock(w: seq<Moment>) {
    |w| >= 2 && w[|w| - 2].timescale == w[|w| - 1].timescale
  }

  /** The distance of the last two neighbours on one clock; zero if there were none. */
  function Measured(w: seq<Moment>): int
    decreases |w|
  {
    if OneClock(w) then w[|w| - 1].dts - w[|w| - 2].dts
    else if w == [] then 0
    else Measured(w[..|w| - 1])
  }

  /** The record is that of the last frame out, with the last distance measured. */
  predicate Records(l: Option<Last>, w: seq<Moment>) {
    if w == [] then l.None?
    else l.Some? && Moment(l.value.dts, l.value.timescale) == w[|w| - 1] && l.value.delta == Measured(w)
  }

  ghost predicate AllRecorded(s: State, outs: seq<Out>) {
    forall k: nat :: Records(LastOf(s.lasts, k), Went(outs, k))
  }

  lemma {:induction false} WentSnoc(outs: seq<Out>, o: Out, k: nat)
    ensures Went(outs + [o], k) == Went(outs, k) + if o.track == k then [o.at] else []
  {
    assert (outs + [o])[..|outs|] == outs;
  }

  lemma {:induction false} MeasuredSnoc(w: seq<Moment>, m: Moment)
    ensures Measured(w + [m]) == if w != [] && w[|w| - 1].timescale == m.timescale then m.dts - w[|w| - 1].dts
      else Measured(w)
  {
    assert (w + [m])[..|w|] == w;
  }

  lemma {:induction false} LaterOnOneClock(a: int, b: int, ts: nat)
    requires Before(Moment(a, ts), Moment(b, ts))
    ensures a < b
  {
    LessOfTimes(a, b, ts);
  }

  lemma {:induction false} NewRecord(l: Option<Last>, w: seq<Moment>, t: Track, f: Frame)
    requires Records(l, w)
    requires l.Some? ==> Before(Moment(l.value.dts, l.value.timescale), Moment(f.dts, Ts(t)))
    ensures Records(Some(NewLast(l, t, f)), w + [Moment(f.dts, Ts(t))])
  {
    hide Before, Measured;
    MeasuredSnoc(w, Moment(f.dts, Ts(t)));
    if l.Some? && l.value.timescale == Ts(t) {
      LaterOnOneClock(l.value.dts, f.dts, Ts(t));
    } else if l.None? {
      NothingMeasured();
    }
  }

  lemma {:induction false} NothingMeasured()
    ensures Measured([]) == 0
  {}

  lemma {:induction false} PushRecords(s: State, f: Frame, outs: seq<Out>, k: nat)
    requires Ok(s) && Records(LastOf(s.lasts, k), Went(outs, k))
    ensures var n := Next(s, Push(f)); Records(LastOf(n.0.lasts, k), Went(outs + n.1, k))
  {
    hide Records, Before, Stamp, NewLast, LastOf, Went, Find;
    StampLater(s, f);
    var n := Next(s, Push(f));
    if n.1 == [] {
      assert outs + n.1 == outs;
    } else {
      WentSnoc(outs, n.1[0], k);
      assert outs + n.1 == outs + [n.1[0]];
      if k == f.track {
        NewRecord(LastOf(s.lasts, k), Went(outs, k), Find(s.tracks, k).value, Stamp(s, f).1.value);
      } else {
        assert Went(outs, k) + [] == Went(outs, k);
      }
    }
  }

  lemma {:induction false} StepRecords(s: State, step: Step, outs: seq<Out>)
    requires Ok(s) && AllRecorded(s, outs)
    ensures var n := Next(s, step); Ok(n.0) && AllRecorded(n.0, outs + n.1)
  {
    hide Records, Stamp, LastOf, Went;
    match step
    case Push(f) =>
      StampLater(s, f);
      forall k: nat
        ensures var n := Next(s, step); Records(LastOf(n.0.lasts, k), Went(outs + n.1, k))
      {
        PushRecords(s, f, outs, k);
      }
    case _ =>
      assert outs + [] == outs;
  }

  lemma {:induction false} RunsRecord(p: Play, steps: seq<Step>, outs: seq<Out>)
    requires Ok(p.s) && AllRecorded(p.s, outs)
    ensures Ok(Played(p, steps).s) && AllRecorded(Played(p, steps).s, outs + Run(p.s, steps))
    decreases |steps|
  {
    hide Ok, AllRecorded, Next;
    if steps == [] {
      assert outs + [] == outs;
    } else {
      var n := Next(p.s, steps[0]);
      StepRecords(p.s, steps[0], outs);
      RunsRecord(Advance(p, steps[0]), steps[1..], outs + n.1);
      assert outs + n.1 + Run(n.0, steps[1..]) == outs + Run(p.s, steps);
    }
  }

  /** From the empty stitcher, over any run, every track's record is that of the frames that went out on it. */
  lemma {:induction false} RunRecords(steps: seq<Step>)
    ensures Ok(Played(START, steps).s) && AllRecorded(Played(START, steps).s, Run(START.s, steps))
  {
    RunsRecord(START, steps, []);
    assert [] + Run(START.s, steps) == Run(START.s, steps);
  }

  /**
    What `delta` is after any run: the distance of the last two frames out if they were on one clock, and otherwise
    still what it was before the last of them, a number of ticks of an older clock.
   */
  lemma {:induction false} DeltaIs(steps: seq<Step>, track: nat)
    ensures var l, w := LastOf(Played(START, steps).s.lasts, track), Went(Run(START.s, steps), track);
            && (l.Some? <==> w != [])
            && (l.Some? ==> l.value.delta == if OneClock(w) then w[|w| - 1].dts - w[|w| - 2].dts
                 else Measured(w[..|w| - 1]))
  {
    hide Played, Run, Went;
    RunRecords(steps);
    assert Records(LastOf(Played(START, steps).s.lasts, track), Went(Run(START.s, steps), track));
  }

  /**
    Where a switch continues the join track, if the track's record ends the output on the clock of the new source: its
    first frame goes out exactly one frame after the last one, as far as the last two were apart, if those two were on
    one clock; otherwise by a distance measured on an older clock, taken for ticks of this one.
   */
  lemma {:induction false} ContinuesExactly(steps: seq<Step>, t: Track, f: Frame)
    requires var s := Played(START, steps).s;
             && s.seg.None? && Find(s.tracks, f.track) == Some(t) && Joins(s.tracks, t, f) && EndMicros(s.lasts).Some?
             && var l := LastOf(s.lasts, f.track);
                l.Some? && EndsHere(l.value, Ts(t), EndMicros(s.lasts).value)
    ensures var w := Went(Run(START.s, steps), f.track);
            && w != [] && w[|w| - 1].timescale == Ts(t)
            && var last := w[|w| - 1].dts;
               var d := if OneClock(w) then last - w[|w| - 2].dts else Measured(w[..|w| - 1]);
               && (OneClock(w) ==> d > 0)
               && Stamp(Played(START, steps).s, f).1
                  == (if d > 0 then Some(Moved(f, last + d - f.dts))
                      else if t.video then Some(Moved(f, last + 1 - f.dts)) else None)
  {
    hide Played, Run, Went, Stamp, Find, LastOf, EndMicros, Joins;
    var s, w := Played(START, steps).s, Went(Run(START.s, steps), f.track);
    RunRecords(steps);
    assert Records(LastOf(s.lasts, f.track), w);
    JoinsAtTheEnd(s, t, f);
    if OneClock(w) {
      OutsRise(steps, f.track, |w| - 2);
      LaterOnOneClock(w[|w| - 2].dts, w[|w| - 1].dts, Ts(t));
    }
  }

  lemma {:induction false} WentAt(outs: seq<Out>, track: nat, i: nat) returns (j: nat)
    requires i < |Went(outs, track)|
    ensures j < |outs| && outs[j] == Out(track, Went(outs, track)[i]) && |Went(outs[..j], track)| == i
    decreases |outs|
  {
    var init := outs[..|outs| - 1];
    if i < |Went(init, track)| {
      j := WentAt(init, track, i);
      assert init[..j] == outs[..j];
    } else {
      j := |outs| - 1;
    }
  }

  lemma {:induction false} WentGrows(outs: seq<Out>, track: nat, a: nat, b: nat)
    requires a <= b <= |outs|
    ensures |Went(outs[..a], track)| <= |Went(outs[..b], track)|
    decreases b
  {
    if a < b {
      WentGrows(outs, track, a, b - 1);
      assert outs[..b][..b - 1] == outs[..b - 1];
    }
  }

  lemma {:induction false} OutsRise(steps: seq<Step>, track: nat, i: nat)
    requires i + 1 < |Went(Run(START.s, steps), track)|
    ensures var w := Went(Run(START.s, steps), track); Before(w[i], w[i + 1])
  {
    hide Run, Before, Went;
    var outs := Run(START.s, steps);
    var a := WentAt(outs, track, i);
    var b := WentAt(outs, track, i + 1);
    if b <= a {
      WentGrows(outs, track, b, a);
    }
    StartOk();
    OutputMovesForward(START.s, steps, a, b);
  }

  lemma {:induction false} StartOk()
    ensures Ok(START.s)
  {}

  // ---- On two clocks ----

  /** Two frames on the clock of `t`, the second at `d`, and one at `x` on that of `u`. */
  function Retimed(t: Track, u: Track, d: nat, x: nat): seq<Step> {
    [SetTracks([t]), Push(At(t, 0)), Push(At(t, d)), SetTracks([u]), Push(At(u, x))]
  }

  function At(t: Track, dts: int): Frame {
    Frame(t.id, dts, dts, true)
  }

  function OutAt(t: Track, dts: int): Out {
    Out(t.id, Moment(dts, Ts(t)))
  }

  /** A later frame of a lone track in an unshifted segment goes out as it is. */
  lemma {:induction false} PushOn(p: Play, u: Track, l: Last, x: nat)
    requires p.s == State([u], [l], Some(Segment(0, 0, u.id, 0))) && l.track == u.id && x > Prev(l, Ts(u))
    ensures var n := Next(p.s, Push(At(u, x)));
            && n.0 == p.s.(lasts := [NewLast(Some(l), u, At(u, x))]) && n.1 == [OutAt(u, x)]
            && Advance(p, Push(At(u, x))) == Play(n.0, p.joined)
  {
    assert Find([u], u.id) == Some(u) && LastOf([l], u.id) == Some(l);
    assert MicrosOf(x, u.timescale) >= 0 by { NotBefore(x, Max(u.timescale, 1)); }
    hide MicrosOf, Prev, Find, LastOf;
    assert Moved(At(u, x), 0) == At(u, x);
    assert Put([l], NewLast(Some(l), u, At(u, x))) == [NewLast(Some(l), u, At(u, x))];
  }

  lemma {:induction false} NotBefore(x: nat, d: nat)
    requires d >= 1
    ensures TruncDiv(x * SECOND, d) >= 0
  {
    TruncMonotone(0, x * SECOND, d);
  }

  /** The state after a lone track's first frame, at zero. */
  lemma {:induction false} Started(t: Track) returns (p: Play)
    ensures p == Advance(Advance(START, SetTracks([t])), Push(At(t, 0)))
    ensures p.s == State([t], [Last(t.id, t.video, 0, 0, Ts(t))], Some(Segment(0, 0, t.id, 0)))
    ensures Next(Next(START.s, SetTracks([t])).0, Push(At(t, 0))).1 == [OutAt(t, 0)]
  {
    FirstSource(t, 0);
    assert MicrosOf(0, t.timescale) == 0;
    p := Advance(Advance(START, SetTracks([t])), Push(At(t, 0)));
    var s := Next(START.s, SetTracks([t])).0;
    assert Find([t], t.id) == Some(t) && Joins([t], t, At(t, 0));
    hide Stamp, MicrosOf, Joins, Find;
    FirstUnmoved(s, t, At(t, 0));
  }

  /** The run of `Retimed`, on two different clocks: `delta` is still the distance on the first. */
  lemma {:induction false} RetimedRuns(t: Track, u: Track, d: nat, x: nat)
    requires t.id == u.id && Ts(t) != Ts(u) && d >= 1 && x > ScaleCeil(d, Ts(u), Ts(t))
    ensures Played(START, Retimed(t, u, d, x)).s
         == State([u], [Last(u.id, u.video, x, d, Ts(u))], Some(Segment(0, 0, u.id, 0)))
    ensures Run(START.s, Retimed(t, u, d, x)) == [OutAt(t, 0), OutAt(t, d), OutAt(u, x)]
  {
    hide Stamp, ScaleCeil;
    var steps := Retimed(t, u, d, x);
    var p0 := Advance(START, steps[0]);
    var p1 := Started(t);
    PushOn(p1, t, p1.s.lasts[0], d);
    var p2 := Advance(p1, steps[2]);
    assert p2.s == State([t], [Last(t.id, t.video, d, d, Ts(t))], Some(Segment(0, 0, t.id, 0)));
    var p3 := Advance(p2, steps[3]);
    assert p3.s == p2.s.(tracks := [u]);
    PushOn(p3, u, p3.s.lasts[0], x);
    var p4 := Advance(p3, steps[4]);
    assert p4.s == p3.s.(lasts := [Last(u.id, u.video, x, d, Ts(u))]);
    hide Advance, Next;
    FivePlayed(steps);
    FiveRun(steps);
  }

  lemma {:induction false} FivePlayed(steps: seq<Step>)
    requires |steps| == 5
    ensures var p2 := Advance(Advance(Advance(START, steps[0]), steps[1]), steps[2]);
            Played(START, steps) == Advance(Advance(p2, steps[3]), steps[4])
  {
    hide Advance;
    var p0 := Advance(START, steps[0]);
    var p1 := Advance(p0, steps[1]);
    var p2 := Advance(p1, steps[2]);
    var p3 := Advance(p2, steps[3]);
    assert steps[1..][1..] == steps[2..] && steps[2..][1..] == steps[3..] && steps[3..][1..] == steps[4..]
           && steps[4..][1..] == [];
    assert Played(p3, steps[4..]) == Advance(p3, steps[4]);
    assert Played(p2, steps[3..]) == Played(p3, steps[4..]);
    assert Played(p1, steps[2..]) == Played(p2, steps[3..]);
    assert Played(p0, steps[1..]) == Played(p1, steps[2..]);
  }

  lemma {:induction false} FiveRun(steps: seq<Step>)
    requires |steps| == 5
    ensures var s0 := Next(START.s, steps[0]);
            var s1 := Next(s0.0, steps[1]);
            var s2 := Next(s1.0, steps[2]);
            var s3 := Next(s2.0, steps[3]);
            Run(START.s, steps) == s0.1 + (s1.1 + (s2.1 + (s3.1 + Next(s3.0, steps[4]).1)))
  {
    hide Next;
    var s0 := Next(START.s, steps[0]);
    var s1 := Next(s0.0, steps[1]);
    var s2 := Next(s1.0, steps[2]);
    var s3 := Next(s2.0, steps[3]);
    var s4 := Next(s3.0, steps[4]);
    assert steps[1..][1..] == steps[2..] && steps[2..][1..] == steps[3..] && steps[3..][1..] == steps[4..]
           && steps[4..][1..] == [];
    assert Run(s4.0, []) == [] && s4.1 + [] == s4.1;
    assert Run(s3.0, steps[4..]) == s4.1;
    assert Run(s2.0, steps[3..]) == s3.1 + Run(s3.0, steps[4..]);
    assert Run(s1.0, steps[2..]) == s2.1 + Run(s2.0, steps[3..]);
    assert Run(s0.0, steps[1..]) == s1.1 + Run(s1.0, steps[2..]);
  }

  /** `delta`, on the clock of the last frame out, is how far that frame was from the one before it in real time. */
  predicate IsDistance(delta: int, w: seq<Moment>)
    requires |w| >= 2
  {
    var before, last := w[|w| - 2], w[|w| - 1];
    delta * before.timescale == last.dts * before.timescale - before.dts * last.timescale
  }

  /** If the last two frames out on the track were on the clocks of `t` and `u`, `delta` is their distance. */
  ghost predicate MeasuredAfter(steps: seq<Step>, t: Track, u: Track) {
    var l, w := LastOf(Played(START, steps).s.lasts, t.id), Went(Run(START.s, steps), t.id);
    |w| >= 2 && w[|w| - 2].timescale == Ts(t) && w[|w| - 1].timescale == Ts(u) && l.Some? ==>
      IsDistance(l.value.delta, w)
  }

  lemma {:induction false} WentThree(a: Out, b: Out, c: Out)
    requires a.track == b.track == c.track
    ensures Went([a, b, c], a.track) == [a.at, b.at, c.at]
  {
    assert [a, b, c] == [a, b] + [c] && [a, b] == [a] + [b] && [a] == [] + [a];
    WentSnoc([a, b], c, a.track);
    WentSnoc([a], b, a.track);
    WentSnoc([], a, a.track);
  }

  lemma {:induction false} NoDistance(tt: nat, tu: nat)
    requires tt >= 1 && tu >= 1
    ensures 1 * tt != (tu + 2) * tt - 1 * tu
  {
    assert (tu + 2) * tt == tu * tt + 2 * tt;
    TimesLe(1, tt, tu);
  }

  lemma {:induction false} OneTickUp(tt: nat, tu: nat)
    requires tt >= 1 && tu >= 1
    ensures ScaleCeil(1, tu, tt) < tu + 2
  {
    CeilBounds(1, tu, tt);
    TimesLe(1, tt, tu);
    assert (tu + 2) * tt == tu * tt + 2 * tt;
    if ScaleCeil(1, tu, tt) >= tu + 2 {
      TimesLe(tu + 2, ScaleCeil(1, tu, tt), tt);
    }
  }

  /**
    The exact condition, for two clocks in a row on a track: in every run the record has the distance of the last two
    frames out if and only if the two clocks are the same.
   */
  lemma {:induction false} DistanceExactly(t: Track, u: Track)
    requires t.id == u.id
    ensures (forall steps :: MeasuredAfter(steps, t, u)) <==> Ts(t) == Ts(u)
  {
    hide Played, Run, Went, LastOf;
    if Ts(t) == Ts(u) {
      forall steps
        ensures MeasuredAfter(steps, t, u)
      {
        DeltaIs(steps, t.id);
        var w := Went(Run(START.s, steps), t.id);
        if OneClock(w) {
          Distribute(w[|w| - 1].dts, w[|w| - 2].dts, w[|w| - 1].timescale);
        }
      }
    } else {
      RetimedFails(t, u);
    }
  }

  lemma {:induction false} RetimedFails(t: Track, u: Track)
    requires t.id == u.id && Ts(t) != Ts(u)
    ensures !MeasuredAfter(Retimed(t, u, 1, Ts(u) + 2), t, u)
  {
    var x := Ts(u) + 2;
    OneTickUp(Ts(t), Ts(u));
    RetimedRuns(t, u, 1, x);
    WentThree(OutAt(t, 0), OutAt(t, 1), OutAt(u, x));
    NoDistance(Ts(t), Ts(u));
    hide Played, Run, Went, ScaleCeil;
    assert LastOf([Last(u.id, u.video, x, 1, Ts(u))], t.id) == Some(Last(u.id, u.video, x, 1, Ts(u)));
  }

  /**
    A switch after such a change: a track at 90 kHz with frames 33 ms apart, moved to 1 kHz and 33 ms on; the next
    source's first frame goes out 3000 ticks after the last one, three seconds.
   */
  lemma {:induction false} RetimedSwitchJumps()
    ensures var was, now := Track(0, true, 90_000), Track(0, true, 1000);
            var p := Advance(Played(START, Retimed(was, now, 3000, 67)), Begin);
            && p.s.lasts == [Last(0, true, 67, 3000, 1000)]
            && Next(p.s, Push(At(now, 0))).1 == [OutAt(now, 3067)]
  {
    var was, now := Track(0, true, 90_000), Track(0, true, 1000);
    assert ScaleCeil(3000, 1000, 90_000) == 34;
    RetimedRuns(was, now, 3000, 67);
    var p := Advance(Played(START, Retimed(was, now, 3000, 67)), Begin);
    hide Played;
    var l := Last(0, true, 67, 3000, 1000);
    assert p.s == State([now], [l], None);
    assert Find([now], 0) == Some(now) && Joins([now], now, At(now, 0)) && LastOf([l], 0) == Some(l);
    OneVideoEndsHere([l], l, 1000);
    hide EndMicros, EndsHere, Find, Joins, LastOf, Stamp;
    JoinsAtTheEnd(p.s, now, At(now, 0));
  }
}
