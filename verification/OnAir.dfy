/** A channel's clock over any number of files: each file begins where the channel left off. */
module OnAir {
  import opened Util

  /** A track of the channel, and the last frame and frame duration that went out on it. */
  datatype Track = Track(timescale: nat, lastDts: Option<int>, lastDelta: int)

  datatype State = State(tracks: seq<Track>, base: int)

  datatype Frame = Frame(track: nat, dts: int, pts: int)

  function Ts(t: Track): (ts: nat)
    ensures ts >= 1
  {
    Max(t.timescale, 1)
  }

  /** The latest end over the first `n` tracks, and no earlier than the base. */
  function EndMicros(s: State, n: nat): int
    requires n <= |s.tracks|
  {
    if n == 0 then s.base else
      var t := s.tracks[n - 1];
      if t.lastDts.Some? then Max(EndMicros(s, n - 1), MicrosOf(t.lastDts.value + t.lastDelta, t.timescale))
        else EndMicros(s, n - 1)
  }

  /** The base on a track's clock, rounded up as the source does for times from zero on. */
  function CeilTicks(base: int, ts: nat): int {
    TruncDiv(base * ts + 999_999, SECOND)
  }

  function OffsetOf(t: Track, base: int): int {
    var off := CeilTicks(base, Ts(t));
    if t.lastDts.Some? then Max(off, t.lastDts.value + 1) else off
  }

  function BeginFile(s: State): (State, seq<int>) {
    var base := EndMicros(s, |s.tracks|);
    (s.(base := base), seq(|s.tracks|, i requires 0 <= i < |s.tracks| => OffsetOf(s.tracks[i], base)))
  }

  function Shifted(t: Track, dts: int, t0: int, offset: int): int {
    dts + (offset - TruncDiv(t0 * Ts(t), SECOND))
  }

  /** Where a frame lands: shifted, and strictly after the one before. */
  function Lands(t: Track, dts: int, t0: int, offset: int): int {
    if t.lastDts.Some? then Max(Shifted(t, dts, t0, offset), t.lastDts.value + 1) else Shifted(t, dts, t0, offset)
  }

  function Stamp(s: State, f: Frame, t0: int, offsets: seq<int>): (State, Frame)
    requires f.track < |s.tracks| == |offsets|
  {
    var t := s.tracks[f.track];
    var dts := Lands(t, f.dts, t0, offsets[f.track]);
    var delta := if t.lastDts.Some? then dts - t.lastDts.value else t.lastDelta;
    (s.(tracks := s.tracks[f.track := Track(t.timescale, Some(dts), delta)]),
      Frame(f.track, dts, f.pts + (dts - f.dts)))
  }

  class OnAir {
    var tracks: seq<Track>
    var base: int

    function Now(): State
      reads this
    {
      State(tracks, base)
    }

    constructor (timescales: seq<nat>)
      ensures Now() == State(seq(|timescales|, i requires 0 <= i < |timescales| => Track(timescales[i], None, 0)), 0)
    {
      tracks := seq(|timescales|, i requires 0 <= i < |timescales| => Track(timescales[i], None, 0));
      base := 0;
    }

    method LatestEnd() returns (end: int)
      ensures end == EndMicros(Now(), |tracks|)
    {
      end := base;
      for i := 0 to |tracks|
        invariant end == EndMicros(Now(), i)
      {
        if tracks[i].lastDts.Some? {
          end := Max(end, MicrosOf(tracks[i].lastDts.value + tracks[i].lastDelta, tracks[i].timescale));
        }
      }
    }

    method NextFile() returns (offsets: seq<int>)
      modifies this`base
      ensures (Now(), offsets) == BeginFile(old(Now()))
    {
      base := LatestEnd();
      offsets := [];
      for i := 0 to |tracks|
        invariant |offsets| == i && forall k :: 0 <= k < i ==> offsets[k] == OffsetOf(tracks[k], base)
      {
        offsets := offsets + [OffsetOf(tracks[i], base)];
      }
      assert offsets == BeginFile(old(Now())).1;
    }

    method StampFrame(f: Frame, t0: int, offsets: seq<int>) returns (out: Frame)
      requires f.track < |tracks| == |offsets|
      modifies this`tracks
      ensures (Now(), out) == Stamp(old(Now()), f, t0, offsets)
    {
      var t := tracks[f.track];
      var shift := offsets[f.track] - TruncDiv(t0 * Ts(t), SECOND);
      out := Frame(f.track, f.dts + shift, f.pts + shift);
      var delta := t.lastDelta;
      if t.lastDts.Some? {
        if out.dts <= t.lastDts.value {
          var bump := t.lastDts.value + 1 - out.dts;
          out := Frame(f.track, out.dts + bump, out.pts + bump);
        }
        delta := out.dts - t.lastDts.value;
      }
      tracks := tracks[f.track := Track(t.timescale, Some(out.dts), delta)];
    }
  }

  // ---- Rounding ----

  lemma {:induction false} TruncBelow(n: int, d: nat)
    requires d >= 1
    ensures n >= 0 ==> TruncDiv(n, d) * d <= n < TruncDiv(n, d) * d + d
    ensures n < 0 ==> TruncDiv(n, d) * d - d < n <= TruncDiv(n, d) * d
  {
    assert n == d * (n / d) + n % d;
    assert -n == d * ((-n) / d) + (-n) % d;
    assert (-((-n) / d)) * d == -(d * ((-n) / d));
  }

  /** Rounded up: the first tick at or after a base that is not negative. */
  lemma {:induction false} CeilTicksExactly(base: int, ts: nat, dts: int)
    requires base >= 0
    ensures dts * SECOND >= base * ts <==> dts >= CeilTicks(base, ts)
  {
    TruncBelow(base * ts + 999_999, SECOND);
  }

  // ---- A file starts at the channel's end ----

  ghost predicate Ok(s: State) {
    s.base >= 0
  }

  lemma {:induction false} EndIsLatest(s: State, n: nat, i: nat)
    requires n <= |s.tracks|
    ensures EndMicros(s, n) >= s.base
    ensures i < n && s.tracks[i].lastDts.Some? ==>
      EndMicros(s, n) >= MicrosOf(s.tracks[i].lastDts.value + s.tracks[i].lastDelta, s.tracks[i].timescale)
    decreases n
  {
    hide MicrosOf;
    if n > 0 {
      EndIsLatest(s, n - 1, i);
    }
  }

  /** The base never goes back, and lies at or after the end of everything that went out. */
  lemma {:induction false} FileBeginsAtTheEnd(s: State, i: nat)
    requires Ok(s) && i < |s.tracks|
    ensures var (n, offsets) := BeginFile(s);
            && Ok(n) && n.base >= s.base && n.tracks == s.tracks && |offsets| == |s.tracks|
            && (s.tracks[i].lastDts.Some? ==>
                 n.base >= MicrosOf(s.tracks[i].lastDts.value + s.tracks[i].lastDelta, s.tracks[i].timescale)
                                              && offsets[i] > s.tracks[i].lastDts.value)
            && offsets[i] * SECOND >= n.base * Ts(s.tracks[i])
  {
    hide MicrosOf, CeilTicks;
    EndIsLatest(s, |s.tracks|, i);
    CeilTicksExactly(EndMicros(s, |s.tracks|), Ts(s.tracks[i]), BeginFile(s).1[i]);
  }

  /** From zero on, a frame that is not before the file's start is not before that start on its track's clock. */
  lemma {:induction false} FromStartOnward(t: Track, dts: int, t0: int)
    requires dts >= 0 && MicrosOf(dts, t.timescale) >= t0
    ensures dts >= TruncDiv(t0 * Ts(t), SECOND)
  {
    TruncBelow(dts * SECOND, Ts(t));
    TimesLe(t0, MicrosOf(dts, t.timescale), Ts(t));
    TruncBelow(t0 * Ts(t), SECOND);
  }

  /** Before zero the source's rounding goes the other way: a file's own first frame can land a tick before the base. */
  lemma {:induction false} BeforeZeroItCanLandEarly()
    ensures var t := Track(90_000, None, 0);
            var t0 := MicrosOf(-1, t.timescale);
            var (s, offsets) := BeginFile(State([t], 0));
            Stamp(s, Frame(0, -1, -1), t0, offsets).1.dts == s.base - 1
  {
    var t := Track(90_000, None, 0);
    assert MicrosOf(-1, t.timescale) == -11 && TruncDiv(-11 * 90_000, SECOND) == 0;
    assert EndMicros(State([t], 0), 1) == 0 && CeilTicks(0, 90_000) == 0;
  }

  // ---- Whole channels ----

  datatype Step = NextFile(t0: int) | Push(frame: Frame)

  /** A channel between files and frames: its state, the current file's start and its offsets. */
  datatype Channel = Channel(air: State, t0: int, offsets: seq<int>)

  predicate Wf(c: Channel) {
    |c.offsets| == |c.air.tracks|
  }

  function Next(c: Channel, step: Step): (n: (Channel, seq<Frame>))
    requires Wf(c)
    ensures Wf(n.0)
  {
    match step
    case NextFile(t0) => var b := BeginFile(c.air); (Channel(b.0, t0, b.1), [])
    case Push(f) =>
      if f.track < |c.air.tracks| then
        var r := Stamp(c.air, f, c.t0, c.offsets);
        (c.(air := r.0), [r.1])
      else (c, [])
  }

  function Run(c: Channel, steps: seq<Step>): seq<Frame>
    requires Wf(c)
    decreases |steps|
  {
    if steps == [] then [] else Next(c, steps[0]).1 + Run(Next(c, steps[0]).0, steps[1..])
  }

  lemma {:induction false} RunAfter(c: Channel, steps: seq<Step>, i: nat)
    requires Wf(c) && i < |Run(c, steps)|
    ensures var o := Run(c, steps)[i];
            o.track < |c.air.tracks| && (c.air.tracks[o.track].lastDts.Some? ==>
              o.dts > c.air.tracks[o.track].lastDts.value)
    decreases |steps|
  {
    hide Shifted, OffsetOf, EndMicros;
    var n := Next(c, steps[0]);
    if i >= |n.1| {
      RunAfter(n.0, steps[1..], i - |n.1|);
    }
  }

  /** Over any number of files, per track the output is strictly increasing. */
  lemma {:induction false} OutputIncreases(c: Channel, steps: seq<Step>, i: nat, j: nat)
    requires Wf(c) && i < j < |Run(c, steps)| && Run(c, steps)[i].track == Run(c, steps)[j].track
    ensures Run(c, steps)[i].dts < Run(c, steps)[j].dts
    decreases |steps|
  {
    hide Shifted, OffsetOf, EndMicros;
    var n := Next(c, steps[0]);
    if i >= |n.1| {
      OutputIncreases(n.0, steps[1..], i - |n.1|, j - |n.1|);
    } else {
      RunAfter(n.0, steps[1..], j - |n.1|);
    }
  }

  function Pushes(frames: seq<Frame>): (p: seq<Step>)
    ensures |p| == |frames|
  {
    seq(|frames|, i requires 0 <= i < |frames| => Push(frames[i]))
  }

  predicate Known(c: Channel, frames: seq<Frame>) {
    forall k :: 0 <= k < |frames| ==> frames[k].track < |c.air.tracks|
  }

  /** How many of the first `n` frames are on a track. */
  function Rank(frames: seq<Frame>, track: nat, n: nat): nat
    requires n <= |frames|
    decreases n
  {
    if n == 0 then 0 else Rank(frames, track, n - 1) + if frames[n - 1].track == track then 1 else 0
  }

  lemma {:induction false} RankTail(frames: seq<Frame>, track: nat, n: nat)
    requires 1 <= n <= |frames|
    ensures Rank(frames, track, n) == (if frames[0].track == track then 1 else 0) + Rank(frames[1..], track, n - 1)
    decreases n
  {
    if n > 1 {
      RankTail(frames, track, n - 1);
      assert frames[1..][n - 2] == frames[n - 1];
    } else {
      assert Rank(frames, track, 0) == 0;
    }
  }

  /** Frame `j`, shifted, and one tick on for each frame of the track from there to frame `i`, comes to at least `x`. */
  ghost predicate Pushed(frames: seq<Frame>, j: nat, i: nat, shift: int, x: int) {
    && j <= i < |frames| && frames[j].track == frames[i].track
    && frames[j].dts + shift + Rank(frames, frames[i].track, i) - Rank(frames, frames[i].track, j) >= x
  }

  /** What a track's clock does to the frames so far comes to at least `x` at frame `i`. */
  ghost predicate Reaches(t: Track, frames: seq<Frame>, i: nat, shift: int, x: int)
    requires i < |frames|
  {
    || (t.lastDts.Some? && t.lastDts.value + 1 + Rank(frames, frames[i].track, i) >= x)
    || exists j: nat :: Pushed(frames, j, i, shift, x)
  }

  function ShiftOf(c: Channel, track: nat): int
    requires Wf(c) && track < |c.offsets|
  {
    c.offsets[track] - TruncDiv(c.t0 * Ts(c.air.tracks[track]), SECOND)
  }

  /**
    One frame's own time, exactly: at least `x` if it, an earlier frame of the track, or the track's last reaches
    that far.
   */
  lemma {:induction false} LandsExactly(c: Channel, frames: seq<Frame>, i: nat, x: int)
    requires Wf(c) && Known(c, frames) && i < |frames|
    ensures var out := Run(c, Pushes(frames));
            && |out| == |frames| && out[i].track == frames[i].track
            && (out[i].dts >= x <==> Reaches(c.air.tracks[frames[i].track], frames, i, ShiftOf(c, frames[i].track), x))
    decreases |frames|
  {
    hide Lands, Run, Reaches, ShiftOf;
    var n, rest := Next(c, Push(frames[0])).0, frames[1..];
    FirstPush(c, frames);
    if i == 0 {
      ReachesFirst(c, frames, x);
      if rest != [] {
        LandsExactly(n, rest, 0, x);
      }
    } else {
      LandsExactly(n, rest, i - 1, x);
      SameShift(c, frames[0], frames[i].track);
      ReachesOn(c, frames, i, x);
    }
  }

  lemma {:induction false} FirstPush(c: Channel, frames: seq<Frame>)
    requires Wf(c) && Known(c, frames) && frames != []
    ensures var n := Next(c, Push(frames[0]));
            && Known(n.0, frames[1..]) && n.1 == [Stamp(c.air, frames[0], c.t0, c.offsets).1]
            && Run(c, Pushes(frames)) == n.1 + Run(n.0, Pushes(frames[1..]))
            && (frames[1..] == [] ==> Run(n.0, Pushes(frames[1..])) == [])
  {
    hide Lands;
    assert Pushes(frames)[0] == Push(frames[0]) && Pushes(frames)[1..] == Pushes(frames[1..]);
  }

  lemma {:induction false} SameShift(c: Channel, f: Frame, track: nat)
    requires Wf(c) && f.track < |c.air.tracks| && track < |c.air.tracks|
    ensures ShiftOf(Next(c, Push(f)).0, track) == ShiftOf(c, track)
  {
    hide Lands;
  }

  lemma {:induction false} ReachesFirst(c: Channel, frames: seq<Frame>, x: int)
    requires Wf(c) && Known(c, frames) && frames != []
    ensures var t := c.air.tracks[frames[0].track];
            Lands(t, frames[0].dts, c.t0, c.offsets[frames[0].track]) >= x <==>
              Reaches(t, frames, 0, ShiftOf(c, frames[0].track), x)
  {
    var t, shift := c.air.tracks[frames[0].track], ShiftOf(c, frames[0].track);
    assert Rank(frames, frames[0].track, 0) == 0;
    assert Pushed(frames, 0, 0, shift, x) <==> frames[0].dts + shift >= x;
    assert forall j: nat :: Pushed(frames, j, 0, shift, x) ==> j == 0;
    hide Rank;
  }

  lemma {:induction false} ReachesOn(c: Channel, frames: seq<Frame>, i: nat, x: int)
    requires Wf(c) && Known(c, frames) && 1 <= i < |frames|
    ensures var k, n := frames[i].track, Next(c, Push(frames[0])).0;
            Reaches(c.air.tracks[k], frames, i, ShiftOf(c, k), x) <==>
            Reaches(n.air.tracks[k], frames[1..], i - 1, ShiftOf(c, k), x)
  {
    var k, n, rest := frames[i].track, Next(c, Push(frames[0])).0, frames[1..];
    var t, shift := c.air.tracks[k], ShiftOf(c, k);
    RankTail(frames, k, i);
    PushedTail(frames, i, shift, x);
    assert Rank(frames, k, 0) == 0;
    assert Pushed(frames, 0, i, shift, x) <==> frames[0].track == k && frames[0].dts + shift + Rank(frames, k, i) >= x;
    if frames[0].track == k {
      assert n.air.tracks[k].lastDts == Some(Lands(t, frames[0].dts, c.t0, c.offsets[k]));
    } else {
      assert n.air.tracks[k] == t;
    }
    hide Rank, Pushed, Next, ShiftOf;
    if j: nat :| Pushed(frames, j, i, shift, x) {
      if j > 0 {
        assert Pushed(rest, j - 1, i - 1, shift, x);
      }
    }
    var before: nat := i - 1;
    if j: nat :| Pushed(rest, j, before, shift, x) {
      assert Pushed(frames, j + 1, i, shift, x);
    }
  }

  lemma {:induction false} PushedTail(frames: seq<Frame>, i: nat, shift: int, x: int)
    requires 1 <= i < |frames|
    ensures forall j: nat :: 1 <= j ==>
      (Pushed(frames, j, i, shift, x) <==> Pushed(frames[1..], j - 1, i - 1, shift, x))
  {
    var k := frames[i].track;
    forall j: nat | 1 <= j <= i
      ensures Pushed(frames, j, i, shift, x) <==> Pushed(frames[1..], j - 1, i - 1, shift, x)
    {
      RankTail(frames, k, i);
      RankTail(frames, k, j);
    }
  }

  // ---- Exactly when a file lands at or after its base ----

  /** A file's start on a track's clock, rounded as the source rounds it. */
  function StartTicks(t: Track, t0: int): int {
    TruncDiv(t0 * Ts(t), SECOND)
  }

  /** The track's last frame is already at the base, or just before it. */
  predicate PastBase(t: Track, base: int) {
    t.lastDts.Some? && t.lastDts.value + 1 >= CeilTicks(base, Ts(t))
  }

  /**
    The exact condition for one frame of a new file, whatever its time: it lands at or after the base if and only
    if counting up from the track's last frame reaches the base, or counting up from it or from an earlier frame of
    the track reaches the file's start.
   */
  lemma {:induction false} FrameLandsExactly(c: Channel, t0: int, frames: seq<Frame>, i: nat)
    requires Wf(c) && Ok(c.air) && Known(c, frames) && i < |frames|
    ensures var begun := Next(c, NextFile(t0)).0;
            var out, t := Run(begun, Pushes(frames)), c.air.tracks[frames[i].track];
            && |out| == |frames| && out[i].track == frames[i].track
            && (out[i].dts * SECOND >= begun.air.base * Ts(t) <==>
                || (t.lastDts.Some?
                    && t.lastDts.value + 1 + Rank(frames, frames[i].track, i) >= CeilTicks(begun.air.base, Ts(t)))
                || exists j: nat :: Pushed(frames, j, i, 0, StartTicks(t, t0)))
  {
    hide Run, Rank, CeilTicks;
    var begun := Next(c, NextFile(t0)).0;
    var k := frames[i].track;
    var t, base := c.air.tracks[k], begun.air.base;
    var x := CeilTicks(base, Ts(t));
    FileBeginsAtTheEnd(c.air, k);
    LandsExactly(begun, frames, i, x);
    CeilTicksExactly(base, Ts(t), Run(begun, Pushes(frames))[i].dts);
    var shift := ShiftOf(begun, k);
    assert shift == OffsetOf(t, base) - StartTicks(t, t0);
    assert PastBase(t, base) || OffsetOf(t, base) == x;
    hide EndMicros, Next, OffsetOf, ShiftOf;
    if !PastBase(t, base) {
      assert forall j: nat :: Pushed(frames, j, i, shift, x) <==> Pushed(frames, j, i, 0, StartTicks(t, t0));
    }
  }

  /** Frame `p` is the first of its track. */
  ghost predicate IsFirst(frames: seq<Frame>, p: nat) {
    p < |frames| && forall j :: 0 <= j < p ==> frames[j].track != frames[p].track
  }

  lemma {:induction false} RankOfFirst(frames: seq<Frame>, p: nat, n: nat)
    requires IsFirst(frames, p) && n <= p
    ensures Rank(frames, frames[p].track, n) == 0
    decreases n
  {
    if n > 0 {
      RankOfFirst(frames, p, n - 1);
    }
  }

  /**
    The exact condition for a whole file: every frame it has on a track lands at or after the base if and only if
    the track's last frame was already there or just before it, or the first of the file's frames on the track is
    not before the file's start on that track's clock.
   */
  lemma {:induction false} FileLandsExactly(c: Channel, t0: int, frames: seq<Frame>, p: nat)
    requires Wf(c) && Ok(c.air) && Known(c, frames) && IsFirst(frames, p)
    ensures var begun := Next(c, NextFile(t0)).0;
            var out, t := Run(begun, Pushes(frames)), c.air.tracks[frames[p].track];
            && |out| == |frames|
            && ((forall i :: 0 <= i < |out| && frames[i].track == frames[p].track ==>
                   out[i].dts * SECOND >= begun.air.base * Ts(t)) <==>
                PastBase(t, begun.air.base) || frames[p].dts >= StartTicks(t, t0))
  {
    hide Run, Next, CeilTicks, StartTicks;
    var begun := Next(c, NextFile(t0)).0;
    var out, t := Run(begun, Pushes(frames)), c.air.tracks[frames[p].track];
    FrameLandsExactly(c, t0, frames, p);
    RankOfFirst(frames, p, p);
    assert Pushed(frames, p, p, 0, StartTicks(t, t0)) <==> frames[p].dts >= StartTicks(t, t0);
    assert forall j: nat :: Pushed(frames, j, p, 0, StartTicks(t, t0)) ==> j == p;
    forall i | 0 <= i < |out| && frames[i].track == frames[p].track
      ensures out[p].dts <= out[i].dts
    {
      FrameLandsExactly(c, t0, frames, i);
      if p < i {
        KnownBegun(c, t0);
        OutputIncreases(begun, Pushes(frames), p, i);
      }
    }
    forall i | 0 <= i < |out| && frames[i].track == frames[p].track
      ensures out[p].dts * SECOND <= out[i].dts * SECOND
    {
      TimesLe(out[p].dts, out[i].dts, SECOND);
    }
  }

  /**
    So a file whose times are from zero on lands as a whole, if the first frame of each track is not before its
    start.
   */
  lemma {:induction false} FileLandsAfterBase(c: Channel, t0: int, frames: seq<Frame>, p: nat, i: nat)
    requires Wf(c) && Ok(c.air) && Known(c, frames) && IsFirst(frames, p)
    requires frames[p].dts >= 0 && MicrosOf(frames[p].dts, c.air.tracks[frames[p].track].timescale) >= t0
    requires i < |frames| && frames[i].track == frames[p].track
    ensures var begun := Next(c, NextFile(t0)).0;
            var out := Run(begun, Pushes(frames));
            && |out| == |frames|
            && out[i].dts * SECOND >= begun.air.base * Ts(c.air.tracks[frames[i].track])
  {
    hide Run, Next, MicrosOf;
    FromStartOnward(c.air.tracks[frames[p].track], frames[p].dts, t0);
    FileLandsExactly(c, t0, frames, p);
  }

  lemma {:induction false} KnownBegun(c: Channel, t0: int)
    requires Wf(c)
    ensures Wf(Next(c, NextFile(t0)).0)
  {}
}
