/**
  Several sources on one output timeline. A segment lasts from one switch to the next: its first frame goes where
  the output had ended, and the frames after it move by the same time.
 */
module Stitcher {
  import opened Util

  datatype Track = Track(id: nat, video: bool, timescale: nat)

  datatype Frame = Frame(track: nat, dts: int, pts: int, key: bool)

  /**
    The last frame of a track that went out, with its clock; `delta` is the last distance between two frames that
    went out one after the other on one clock, in ticks of that clock, which need not be this one.
   */
  datatype Last = Last(track: nat, video: bool, dts: int, delta: int, timescale: nat)

  /** `shift` in microseconds; the join track's own shift in its ticks, free of rounding. */
  datatype Segment = Segment(t0: int, shift: int, exactTrack: nat, exact: int)

  datatype State = State(tracks: seq<Track>, lasts: seq<Last>, seg: Option<Segment>)

  function ScaleCeil(v: int, num: nat, den: nat): int {
    var n, d := v * Max(num, 1), Max(den, 1);
    n / d + if n % d != 0 then 1 else 0
  }

  function Ts(t: Track): (ts: nat)
    ensures ts >= 1
  {
    Max(t.timescale, 1)
  }

  function Find(tracks: seq<Track>, id: nat): (t: Option<Track>)
    ensures t.Some? ==> t.value.id == id && t.value in tracks
    decreases |tracks|
  {
    if tracks == [] then None else if tracks[0].id == id then Some(tracks[0]) else Find(tracks[1..], id)
  }

  function LastOf(lasts: seq<Last>, track: nat): (l: Option<Last>)
    ensures l.Some? ==> l.value.track == track && l.value in lasts
    decreases |lasts|
  {
    if lasts == [] then None else if lasts[0].track == track then Some(lasts[0]) else LastOf(lasts[1..], track)
  }

  function Put(lasts: seq<Last>, l: Last): seq<Last>
    decreases |lasts|
  {
    if lasts == [] then [l]
    else if lasts[0].track == l.track then [l] + lasts[1..]
    else [lasts[0]] + Put(lasts[1..], l)
  }

  function End(l: Last): int {
    ScaleCeil(l.dts + l.delta, SECOND, l.timescale)
  }

  /** The latest end, over the video tracks or over all. */
  function LatestEnd(lasts: seq<Last>, videoOnly: bool): Option<int>
    decreases |lasts|
  {
    if lasts == [] then None else
      var rest, l := LatestEnd(lasts[..|lasts| - 1], videoOnly), lasts[|lasts| - 1];
      if videoOnly && !l.video then rest
      else Some(if rest.Some? then Max(rest.value, End(l)) else End(l))
  }

  function EndMicros(lasts: seq<Last>): Option<int> {
    var video := LatestEnd(lasts, true);
    if video.Some? then video else LatestEnd(lasts, false)
  }

  predicate HasVideo(tracks: seq<Track>) {
    exists t :: t in tracks && t.video
  }

  /** Whether a segment may start here: with video only at one of its keyframes, without at any frame. */
  predicate Joins(tracks: seq<Track>, t: Track, f: Frame) {
    HasVideo(tracks) ==> t.video && f.key
  }

  /** Whether the track ends exactly where the output does, on the same clock. */
  predicate EndsHere(l: Last, ts: nat, end: int) {
    l.timescale == ts && ScaleCeil(l.dts + l.delta, SECOND, ts) == end
  }

  function NewSegment(lasts: seq<Last>, t: Track, f: Frame): Segment {
    var src := MicrosOf(f.dts, t.timescale);
    var end := if EndMicros(lasts).Some? then EndMicros(lasts).value else src;
    var l := LastOf(lasts, f.track);
    Segment(src, end - src, f.track,
            if l.Some? && EndsHere(l.value, Ts(t), end) then l.value.dts + l.value.delta - f.dts
            else ScaleCeil(end - src, Ts(t), SECOND))
  }

  /** The shift of a track, in its ticks. */
  function ShiftOf(seg: Segment, t: Track): int {
    if seg.exactTrack == t.id then seg.exact else ScaleCeil(seg.shift, Ts(t), SECOND)
  }

  function Moved(f: Frame, ticks: int): Frame {
    f.(dts := f.dts + ticks, pts := f.pts + ticks)
  }

  /** Where the track's last frame lies on its current clock, rounded up. */
  function Prev(l: Last, ts: nat): int {
    if l.timescale == ts then l.dts else ScaleCeil(l.dts, ts, l.timescale)
  }

  /** A shifted frame against the last one of its track: dropped, bumped, or as it is. */
  function Placed(l: Option<Last>, t: Track, f: Frame): Option<Frame> {
    if l.None? || f.dts > Prev(l.value, Ts(t)) then Some(f)
    else if t.video then Some(Moved(f, Prev(l.value, Ts(t)) + 1 - f.dts))
    else None
  }

  function NewLast(l: Option<Last>, t: Track, f: Frame): Last {
    var delta := if l.None? then 0
                 else if l.value.timescale == Ts(t) && f.dts > l.value.dts then f.dts - l.value.dts
                 else l.value.delta;
    Last(f.track, t.video, f.dts, delta, Ts(t))
  }

  function InSegment(s: State, seg: Segment, t: Track, f: Frame): (State, Option<Frame>) {
    var l := LastOf(s.lasts, f.track);
    var placed := Placed(l, t, Moved(f, ShiftOf(seg, t)));
    if (!t.video && MicrosOf(f.dts, t.timescale) < seg.t0) || placed.None? then (s.(seg := Some(seg)), None)
    else (s.(seg := Some(seg), lasts := Put(s.lasts, NewLast(l, t, placed.value))), placed)
  }

  function Stamp(s: State, f: Frame): (State, Option<Frame>) {
    var t := Find(s.tracks, f.track);
    if t.None? then (s, None)
    else if s.seg.Some? then InSegment(s, s.seg.value, t.value, f)
    else if !Joins(s.tracks, t.value, f) then (s, None)
    else InSegment(s, NewSegment(s.lasts, t.value, f), t.value, f)
  }

  function CueTime(s: State, at: int): Option<int> {
    if s.seg.Some? then Some(at + s.seg.value.shift) else None
  }

  class Stitcher {
    var tracks: seq<Track>
    var lasts: seq<Last>
    var seg: Option<Segment>

    function Now(): State
      reads this
    {
      State(tracks, lasts, seg)
    }

    constructor ()
      ensures Now() == State([], [], None)
    {
      tracks, lasts, seg := [], [], None;
    }

    method SetTracks(tracks: seq<Track>)
      modifies this`tracks
      ensures Now() == old(Now()).(tracks := tracks)
    {
      this.tracks := tracks;
    }

    method Begin()
      modifies this`seg
      ensures Now() == old(Now()).(seg := None)
    {
      seg := None;
    }

    method LatestOf(videoOnly: bool) returns (end: Option<int>)
      ensures end == LatestEnd(lasts, videoOnly)
    {
      end := None;
      for i := 0 to |lasts|
        invariant end == LatestEnd(lasts[..i], videoOnly)
      {
        assert lasts[..i + 1][..i] == lasts[..i];
        if !videoOnly || lasts[i].video {
          var at := End(lasts[i]);
          end := Some(if end.Some? then Max(end.value, at) else at);
        }
      }
      assert lasts[..|lasts|] == lasts;
    }

    method OutputEnd() returns (end: Option<int>)
      ensures end == EndMicros(lasts)
    {
      end := LatestOf(true);
      if end.None? {
        end := LatestOf(false);
      }
    }

    method CueAt(at: int) returns (out: Option<int>)
      ensures out == CueTime(Now(), at)
    {
      out := if seg.Some? then Some(at + seg.value.shift) else None;
    }

    method StampFrame(f: Frame) returns (out: Option<Frame>)
      modifies this`lasts, this`seg
      ensures (Now(), out) == Stamp(old(Now()), f)
    {
      hide ScaleCeil, TruncDiv, Find, LastOf, Put, EndMicros, LatestEnd, EndsHere;
      var found := Find(tracks, f.track);
      if found.None? {
        return None;
      }
      var t := found.value;
      var src := MicrosOf(f.dts, t.timescale);
      if seg.None? {
        if HasVideo(tracks) && !(t.video && f.key) {
          return None;
        }
        var at := OutputEnd();
        var end := if at.Some? then at.value else src;
        var l := LastOf(lasts, f.track);
        var exact := if l.Some? && EndsHere(l.value, Ts(t), end) then l.value.dts + l.value.delta - f.dts
                     else ScaleCeil(end - src, Ts(t), SECOND);
        seg := Some(Segment(src, end - src, f.track, exact));
      }
      if !t.video && src < seg.value.t0 {
        return None;
      }
      var moved := Moved(f, ShiftOf(seg.value, t));
      var l := LastOf(lasts, f.track);
      if l.Some? {
        var prev := Prev(l.value, Ts(t));
        if moved.dts <= prev {
          if !t.video {
            return None;
          }
          moved := Moved(moved, prev + 1 - moved.dts);
        }
        var step := if l.value.timescale == Ts(t) then moved.dts - prev else 0;
        lasts := Put(lasts, Last(f.track, t.video, moved.dts, if step > 0 then step else l.value.delta, Ts(t)));
      } else {
        lasts := Put(lasts, Last(f.track, t.video, moved.dts, 0, Ts(t)));
      }
      out := Some(moved);
    }
  }

  /** A cue at the join point goes out where the output left off, like the frame there. */
  lemma {:induction false} CueJoins(s: State, t: Track, f: Frame)
    requires s.seg.None? && Find(s.tracks, f.track) == Some(t) && Joins(s.tracks, t, f) && EndMicros(s.lasts).Some?
    ensures CueTime(s, MicrosOf(f.dts, t.timescale)).None?
    ensures CueTime(Stamp(s, f).0, MicrosOf(f.dts, t.timescale)) == EndMicros(s.lasts)
  {
    hide EndMicros, MicrosOf, ShiftOf, Joins, Placed, NewLast;
  }

  // ---- Rounding ----

  /** Rounded up: the least integer not below the quotient. */
  lemma {:induction false} CeilBounds(v: int, num: nat, den: nat)
    requires num >= 1 && den >= 1
    ensures ScaleCeil(v, num, den) * den - den < v * num <= ScaleCeil(v, num, den) * den
  {
    var n := v * num;
    assert n == den * (n / den) + n % den;
    var q := n / den;
    assert (q + 1) * den == q * den + den;
  }

  lemma {:induction false} TruncBounds(n: int, d: nat)
    requires d >= 1
    ensures n - d < TruncDiv(n, d) * d < n + d
    ensures n >= 0 ==> TruncDiv(n, d) * d <= n
  {
    var q := n / d;
    assert n == d * q + n % d;
    var m := (-n) / d;
    assert -n == d * m + (-n) % d;
    assert (-m) * d == -(d * m);
  }

  lemma {:induction false} Distribute(a: int, b: int, n: int)
    ensures (a - b) * n == a * n - b * n
  {}

  lemma {:induction false} TruncMonotone(a: int, b: int, d: nat)
    requires a <= b && d >= 1
    ensures TruncDiv(a, d) <= TruncDiv(b, d)
  {
    if a >= 0 {
      DivMonotone(a, b, d);
    } else if b < 0 {
      DivMonotone(-b, -a, d);
    } else {
      DivMonotone(0, b, d);
      DivMonotone(0, -a, d);
    }
  }

  // ---- Strictly forward in real time ----

  /** A time in seconds, as a fraction. */
  datatype Moment = Moment(dts: int, timescale: nat)

  predicate Before(a: Moment, b: Moment) {
    a.dts * b.timescale < b.dts * a.timescale
  }

  lemma {:induction false} BeforeTrans(a: Moment, b: Moment, c: Moment)
    requires a.timescale >= 1 && b.timescale >= 1 && c.timescale >= 1
    requires Before(a, b) && Before(b, c)
    ensures Before(a, c)
  {
    CrossTrans(a.dts, a.timescale, b.dts, b.timescale, c.dts, c.timescale);
  }

  lemma {:induction false} CrossTrans(a: int, x: int, b: int, y: int, c: int, z: int)
    requires x >= 1 && y >= 1 && z >= 1 && a * y < b * x && b * z < c * y
    ensures a * z < c * x
  {
    Times(a * y, b * x, z);
    Times(b * z, c * y, x);
    Swap(a, y, z);
    Swap(b, x, z);
    Swap(c, y, x);
    if a * z >= c * x {
      TimesLe(c * x, a * z, y);
      assert false;
    }
  }

  lemma {:induction false} Swap(a: int, b: int, c: int)
    ensures a * b * c == a * c * b
  {}

  lemma {:induction false} Times(a: int, b: int, n: int)
    requires a < b && n >= 1
    ensures a * n < b * n
  {
    assert b * n - a * n == (b - a) * n;
    TimesLe(1, n, b - a);
  }

  /** The invariant of the per-track record. */
  ghost predicate Ok(s: State) {
    forall l :: l in s.lasts ==> l.timescale >= 1 && l.delta >= 0
  }

  lemma {:induction false} PutIs(lasts: seq<Last>, l: Last, track: nat)
    ensures LastOf(Put(lasts, l), track) == if track == l.track then Some(l) else LastOf(lasts, track)
    ensures forall x :: x in Put(lasts, l) ==> x == l || x in lasts
    decreases |lasts|
  {
    if lasts != [] && lasts[0].track != l.track {
      PutIs(lasts[1..], l, track);
    }
  }

  /** Per track, what goes out is strictly later in real time than what went out before, whatever the clocks. */
  lemma {:induction false} PlacedIsLater(l: Last, t: Track, f: Frame)
    requires l.timescale >= 1 && Placed(Some(l), t, f).Some?
    ensures Before(Moment(l.dts, l.timescale), Moment(Placed(Some(l), t, f).value.dts, Ts(t)))
  {
    var out, prev := Placed(Some(l), t, f).value.dts, Prev(l, Ts(t));
    assert out > prev;
    if l.timescale == Ts(t) {
      Times(l.dts, out, Ts(t));
    } else {
      CeilBounds(l.dts, Ts(t), l.timescale);
      Times(prev, out, l.timescale);
    }
  }

  datatype Step = SetTracks(tracks: seq<Track>) | Begin | Push(frame: Frame)

  /** What went out: a track's frame, with the clock it was on. */
  datatype Out = Out(track: nat, at: Moment)

  function Next(s: State, step: Step): (State, seq<Out>) {
    match step
    case SetTracks(tracks) => (s.(tracks := tracks), [])
    case Begin => (s.(seg := None), [])
    case Push(f) =>
      var r := Stamp(s, f);
      (r.0, if r.1.Some? then [Out(f.track, Moment(r.1.value.dts, Ts(Find(s.tracks, f.track).value)))] else [])
  }

  function Run(s: State, steps: seq<Step>): seq<Out>
    decreases |steps|
  {
    if steps == [] then [] else Next(s, steps[0]).1 + Run(Next(s, steps[0]).0, steps[1..])
  }

  /** What a frame leaves as the last one of a track. */
  function LastAfter(s: State, f: Frame, track: nat): Option<Last> {
    var out, t := Stamp(s, f).1, Find(s.tracks, f.track);
    if track == f.track && out.Some? && t.Some? then Some(NewLast(LastOf(s.lasts, track), t.value, out.value))
    else LastOf(s.lasts, track)
  }

  lemma {:induction false} StampLater(s: State, f: Frame)
    requires Ok(s)
    ensures Ok(Stamp(s, f).0) && Stamp(s, f).0.tracks == s.tracks
    ensures Stamp(s, f).1.Some? ==> Find(s.tracks, f.track).Some? && Stamp(s, f).1.value.track == f.track
    ensures forall k :: LastOf(Stamp(s, f).0.lasts, k) == LastAfter(s, f, k)
    ensures Stamp(s, f).1.Some? && LastOf(s.lasts, f.track).Some? ==>
      var l := LastOf(s.lasts, f.track).value;
      Before(Moment(l.dts, l.timescale), Moment(Stamp(s, f).1.value.dts, Ts(Find(s.tracks, f.track).value)))
  {
    hide Before, ShiftOf, NewSegment, MicrosOf, Prev, Joins, ScaleCeil, Find, LastOf, Put;
    var r := Stamp(s, f);
    if r.1.Some? {
      var t, l := Find(s.tracks, f.track).value, LastOf(s.lasts, f.track);
      var made := NewLast(l, t, r.1.value);
      assert r.0.lasts == Put(s.lasts, made);
      forall k
        ensures LastOf(r.0.lasts, k) == LastAfter(s, f, k)
      {
        PutIs(s.lasts, made, k);
      }
      PutIs(s.lasts, made, 0);
      if l.Some? {
        var seg := if s.seg.Some? then s.seg.value else NewSegment(s.lasts, t, f);
        PlacedIsLater(l.value, t, Moved(f, ShiftOf(seg, t)));
      }
    }
  }

  /** Nothing goes out on a track before what its record says went out last. */
  lemma {:induction false} RunAfter(s: State, steps: seq<Step>, i: nat)
    requires Ok(s) && i < |Run(s, steps)|
    ensures Run(s, steps)[i].at.timescale >= 1
    ensures var o := Run(s, steps)[i];
            var l := LastOf(s.lasts, o.track);
            l.Some? ==> Before(Moment(l.value.dts, l.value.timescale), o.at)
    decreases |steps|
  {
    hide Before, Stamp, NewLast;
    var next := Next(s, steps[0]);
    if steps[0].Push? {
      StampLater(s, steps[0].frame);
    }
    if i >= |next.1| {
      RunAfter(next.0, steps[1..], i - |next.1|);
      var o := Run(s, steps)[i];
      assert o == Run(next.0, steps[1..])[i - |next.1|];
      var l := LastOf(s.lasts, o.track);
      if l.Some? && next.1 != [] && steps[0].frame.track == o.track {
        Earlier(s, steps[0].frame);
        BeforeTrans(Moment(l.value.dts, l.value.timescale), next.1[0].at, o.at);
      }
    }
  }

  lemma {:induction false} Earlier(s: State, f: Frame)
    requires Ok(s) && Stamp(s, f).1.Some?
    ensures var made := LastOf(Stamp(s, f).0.lasts, f.track);
            made.Some? && Find(s.tracks, f.track).Some? && made.value.dts == Stamp(s, f).1.value.dts
            && made.value.timescale == Ts(Find(s.tracks, f.track).value)
  {
    hide Stamp, Before;
    StampLater(s, f);
  }

  /** Over any switches, track changes and frames: per track the output is strictly increasing in real time. */
  lemma {:induction false} OutputMovesForward(s: State, steps: seq<Step>, i: nat, j: nat)
    requires Ok(s) && i < j < |Run(s, steps)| && Run(s, steps)[i].track == Run(s, steps)[j].track
    ensures Before(Run(s, steps)[i].at, Run(s, steps)[j].at)
    decreases |steps|
  {
    hide Before, Stamp, NewLast;
    var next := Next(s, steps[0]);
    if steps[0].Push? {
      StampLater(s, steps[0].frame);
    }
    var rest := Run(next.0, steps[1..]);
    assert Run(s, steps) == next.1 + rest;
    if i >= |next.1| {
      OutputMovesForward(next.0, steps[1..], i - |next.1|, j - |next.1|);
    } else {
      Earlier(s, steps[0].frame);
      RunAfter(next.0, steps[1..], j - |next.1|);
    }
  }

  // ---- One segment ----

  /** How far a track's shift is from the segment's, in ticks times a second. */
  function Off(seg: Segment, t: Track): int {
    ShiftOf(seg, t) * SECOND - seg.shift * Ts(t)
  }

  /** The segment was started by a frame of `t`, as the track list had it then. */
  ghost predicate BegunBy(seg: Segment, t: Track) {
    exists lasts: seq<Last>, f: Frame :: f.track == t.id && seg == NewSegment(lasts, t, f)
  }

  lemma {:induction false} ExactIsClose(lasts: seq<Last>, t: Track, f: Frame)
    requires f.track == t.id
    ensures var seg := NewSegment(lasts, t, f);
            -2 * Ts(t) < Off(seg, t) < Ts(t) || 0 <= Off(seg, t) < SECOND
  {
    hide EndMicros, LastOf, ScaleCeil;
    var seg, ts := NewSegment(lasts, t, f), Ts(t);
    var l := LastOf(lasts, f.track);
    if l.Some? && EndsHere(l.value, ts, seg.shift + seg.t0) {
      var end := l.value.dts + l.value.delta;
      CeilBounds(end, SECOND, ts);
      TruncBounds(f.dts * SECOND, ts);
      ContinuedOff(end, f.dts, seg.shift + seg.t0, seg.t0, ts);
    } else {
      CeilBounds(seg.shift, ts, SECOND);
    }
  }

  lemma {:induction false} ContinuedOff(end: int, dts: int, micros: int, src: int, ts: nat)
    requires micros * ts - ts < end * SECOND <= micros * ts
    requires dts * SECOND - ts < src * ts < dts * SECOND + ts
    ensures -2 * ts < (end - dts) * SECOND - (micros - src) * ts < ts
  {
    Distribute(micros, src, ts);
  }

  /** Two tracks shifted alike: less than one tick of each and two microseconds apart. */
  predicate Close(seg: Segment, a: Track, b: Track) {
    var apart := (ShiftOf(seg, a) * Ts(b) - ShiftOf(seg, b) * Ts(a)) * SECOND;
    -(Ts(a) + Ts(b)) * SECOND - 2 * (Ts(a) * Ts(b)) < apart < (Ts(a) + Ts(b)) * SECOND + 2 * (Ts(a) * Ts(b))
  }

  /** If `x` is the track that started the segment, it still has the clock it had then. */
  predicate KeepsClock(t: Track, x: Track) {
    x.id == t.id ==> Ts(x) == Ts(t)
  }

  lemma {:induction false} TracksStayClose(seg: Segment, t: Track, a: Track, b: Track)
    requires BegunBy(seg, t) && a.id != b.id && KeepsClock(t, a) && KeepsClock(t, b)
    ensures Close(seg, a, b)
  {
    OffBounds(seg, t, a);
    OffBounds(seg, t, b);
    Apart(ShiftOf(seg, a), Ts(a), ShiftOf(seg, b), Ts(b), seg.shift);
  }

  lemma {:induction false} OffBounds(seg: Segment, t: Track, a: Track)
    requires BegunBy(seg, t) && KeepsClock(t, a)
    ensures if seg.exactTrack == a.id then -2 * Ts(a) < Off(seg, a) < Ts(a) || 0 <= Off(seg, a) < SECOND
      else 0 <= Off(seg, a) < SECOND
  {
    var lasts: seq<Last>, f: Frame :| f.track == t.id && seg == NewSegment(lasts, t, f);
    if seg.exactTrack == a.id {
      ExactIsClose(lasts, t, f);
    } else {
      CeilBounds(seg.shift, Ts(a), SECOND);
    }
  }

  /** On another clock the join track is off by the whole shift times the difference of the clocks. */
  lemma {:induction false} ReclockedExactly(seg: Segment, t: Track, a: Track)
    requires BegunBy(seg, t) && a.id == t.id
    ensures Off(seg, a) == Off(seg, t) + seg.shift * (Ts(t) - Ts(a))
  {
    assert seg.shift * (Ts(t) - Ts(a)) == seg.shift * Ts(t) - seg.shift * Ts(a);
  }

  // ---- What started the segment, over every run ----

  /** The stitcher, and what the source does not keep: the track that started the segment, as it was then. */
  datatype Play = Play(s: State, joined: Option<Track>)

  function Advance(p: Play, step: Step): Play {
    var n := Next(p.s, step).0;
    Play(n, match step
            case SetTracks(_) => p.joined
            case Begin => None
            case Push(f) => if p.s.seg.None? && n.seg.Some? then Find(p.s.tracks, f.track) else p.joined)
  }

  function Played(p: Play, steps: seq<Step>): Play
    decreases |steps|
  {
    if steps == [] then p else Played(Advance(p, steps[0]), steps[1..])
  }

  const START := Play(State([], [], None), None)

  ghost predicate Begun(p: Play) {
    && (p.s.seg.Some? <==> p.joined.Some?)
    && (p.joined.Some? ==> BegunBy(p.s.seg.value, p.joined.value))
  }

  lemma {:induction false} StepBegun(p: Play, step: Step)
    requires Begun(p)
    ensures Begun(Advance(p, step))
  {
    hide ShiftOf, Joins, Placed, NewLast, MicrosOf, LastOf, Put, EndMicros;
    if step.Push? && p.s.seg.None? {
      var t := Find(p.s.tracks, step.frame.track);
      if t.Some? {
        var seg := NewSegment(p.s.lasts, t.value, step.frame);
        assert BegunBy(seg, t.value);
        hide NewSegment;
      }
    }
  }

  lemma {:induction false} RunBegun(p: Play, steps: seq<Step>)
    requires Begun(p)
    ensures Begun(Played(p, steps))
    decreases |steps|
  {
    hide Begun, Advance;
    if steps != [] {
      StepBegun(p, steps[0]);
      RunBegun(Advance(p, steps[0]), steps[1..]);
    }
  }

  /** The list changes, a segment starts at `k` seconds, and the next source starts at zero. */
  function TwoSources(t: Track, k: nat): seq<Step> {
    [SetTracks([t]), Push(Frame(t.id, k * Ts(t), k * Ts(t), true)), Begin, Push(Frame(t.id, 0, 0, true))]
  }

  lemma {:induction false} WholeSeconds(k: nat, num: nat, den: nat)
    requires num >= 1 && den >= 1
    ensures ScaleCeil(k * den, num, den) == k * num && TruncDiv(k * den * num, den) == k * num
  {
    hide ScaleCeil, TruncDiv;
    Swap(k, den, num);
    WholeQuotients(k * den, num, den, k * num);
  }

  lemma {:induction false} WholeQuotients(v: nat, num: nat, den: nat, q: nat)
    requires num >= 1 && den >= 1 && v * num == q * den
    ensures ScaleCeil(v, num, den) == q && TruncDiv(v * num, den) == q
  {
    Quotient(q, den);
  }

  lemma {:induction false} Quotient(q: nat, d: nat)
    requires d >= 1
    ensures d * q / d == q && d * q % d == 0
  {
    var n := d * q;
    assert n == d * (n / d) + n % d;
    LessOfTimes(q, n / d + 1, d);
    LessOfTimes(n / d, q + 1, d);
  }

  lemma {:induction false} FirstSource(t: Track, k: nat)
    ensures var p := Advance(Advance(START, SetTracks([t])), Push(Frame(t.id, k * Ts(t), k * Ts(t), true)));
            && p.s.tracks == [t] && p.s.lasts == [Last(t.id, t.video, k * Ts(t), 0, Ts(t))]
            && p.s.seg == Some(Segment(MicrosOf(k * Ts(t), t.timescale), 0, t.id, 0))
  {
    var f, dts := Frame(t.id, k * Ts(t), k * Ts(t), true), k * Ts(t);
    var p := Advance(START, SetTracks([t]));
    assert p == Play(State([t], [], None), None);
    assert Find([t], t.id) == Some(t) && Joins([t], t, f);
    assert LatestEnd([], true).None? && LatestEnd([], false).None?;
    var seg := NewSegment([], t, f);
    assert seg.shift == 0 && seg.t0 == MicrosOf(dts, t.timescale);
    hide MicrosOf, Joins, Find, EndMicros;
    assert seg.exact == 0;
    hide NewSegment;
    assert ShiftOf(seg, t) == 0;
  }

  lemma {:induction false} SecondSource(s: State, t: Track, k: nat)
    requires s == State([t], [Last(t.id, t.video, k * Ts(t), 0, Ts(t))], None)
    ensures var p := Advance(Play(s, None), Push(Frame(t.id, 0, 0, true)));
            p.s.seg == Some(Segment(0, k * SECOND, t.id, k * Ts(t))) && p.joined == Some(t)
  {
    var f, last := Frame(t.id, 0, 0, true), s.lasts[0];
    assert Find([t], t.id) == Some(t) && Joins([t], t, f) && LastOf(s.lasts, t.id) == Some(last);
    WholeSeconds(k, SECOND, Ts(t));
    assert s.lasts[..0] == [];
    assert LatestEnd([last], t.video) == Some(End(last)) == Some(k * SECOND);
    assert t.video || LatestEnd([last], true).None?;
    assert EndMicros(s.lasts) == Some(k * SECOND) && MicrosOf(0, t.timescale) == 0;
    hide EndMicros, MicrosOf, Joins, Find, LastOf;
    assert NewSegment(s.lasts, t, f) == Segment(0, k * SECOND, t.id, k * Ts(t));
    hide NewSegment, Placed, ShiftOf;
  }

  /** A run that reaches a segment with any whole number of seconds for its shift. */
  lemma {:induction false} TwoSourcesReach(t: Track, k: nat)
    ensures var p := Played(START, TwoSources(t, k));
            p.s.seg == Some(Segment(0, k * SECOND, t.id, k * Ts(t))) && p.joined == Some(t)
  {
    var steps := TwoSources(t, k);
    FirstSource(t, k);
    var p2 := Advance(Advance(START, steps[0]), steps[1]);
    var p3 := Advance(p2, Begin);
    assert p3 == Play(State([t], [Last(t.id, t.video, k * Ts(t), 0, Ts(t))], None), None);
    SecondSource(p3.s, t, k);
    hide Advance;
    assert steps[1..][1..] == steps[2..] && steps[2..][1..] == steps[3..] && steps[3..][1..] == [];
    assert Played(p3, steps[3..]) == Advance(p3, steps[3]);
    assert Played(p2, steps[2..]) == Played(p3, steps[3..]);
    assert Played(Advance(START, steps[0]), steps[1..]) == Played(p2, steps[2..]);
  }

  lemma {:induction false} Thrice(a: int, b: int, c: int)
    ensures 3 * a * b * c == 3 * (a * c * b) && 3 * a * c * b == 3 * (a * c * b)
  {
    Swap(a, b, c);
    assert 3 * a * b * c == 3 * (a * b * c) && 3 * a * c * b == 3 * (a * c * b);
  }

  lemma {:induction false} ClocksApart(ta: nat, tb: nat, tt: nat)
    requires ta >= 1 && tb >= 1 && ta != tt
    ensures var m, apart := ta * tb, 3 * ta * tt * tb - 3 * ta * tb * ta;
            m >= ta && m >= tb && tb * ta == m && (apart >= 3 * m || apart <= -3 * m)
  {
    var m := ta * tb;
    TimesLe(1, tb, ta);
    TimesLe(1, ta, tb);
    Thrice(ta, tt, tb);
    Thrice(ta, ta, tb);
    if tt > ta {
      TimesLe(ta + 1, tt, m);
    } else {
      TimesLe(tt + 1, ta, m);
    }
  }

  lemma {:induction false} FarShifts(seg: Segment, t: Track, a: Track, b: Track)
    requires a.id == t.id && b.id != t.id
    requires var k := 3 * Ts(a); seg == Segment(0, k * SECOND, t.id, k * Ts(t))
    ensures ShiftOf(seg, a) == 3 * Ts(a) * Ts(t) && ShiftOf(seg, b) == 3 * Ts(a) * Ts(b)
  {
    WholeSeconds(3 * Ts(a), Ts(b), SECOND);
  }

  /** With a shift of that many seconds the bound is broken as soon as the clocks differ at all. */
  lemma {:induction false} FarApart(seg: Segment, t: Track, a: Track, b: Track)
    requires a.id == t.id && b.id != t.id && Ts(a) != Ts(t)
    requires var k := 3 * Ts(a); seg == Segment(0, k * SECOND, t.id, k * Ts(t))
    ensures !Close(seg, a, b) && !Close(seg, b, a)
  {
    hide Ts, ShiftOf;
    FarShifts(seg, t, a, b);
    ClocksApart(Ts(a), Ts(b), Ts(t));
  }

  ghost predicate CloseAfter(steps: seq<Step>, t: Track, a: Track, b: Track) {
    var p := Played(START, steps);
    p.joined == Some(t) && p.s.seg.Some? ==> Close(p.s.seg.value, a, b)
  }

  /**
    The exact condition on a later track list, one a caller of `set_tracks` can check: two tracks are shifted alike
    in every segment any run reaches that `t` started, if and only if neither is that track on another clock.
   */
  lemma {:induction false} TracksStayTogether(t: Track, a: Track, b: Track)
    requires a.id != b.id
    ensures (forall steps :: CloseAfter(steps, t, a, b)) <==> KeepsClock(t, a) && KeepsClock(t, b)
  {
    hide Close, Played, BegunBy;
    if KeepsClock(t, a) && KeepsClock(t, b) {
      forall steps
        ensures CloseAfter(steps, t, a, b)
      {
        RunBegun(START, steps);
        var p := Played(START, steps);
        if p.joined == Some(t) && p.s.seg.Some? {
          TracksStayClose(p.s.seg.value, t, a, b);
        }
      }
    } else {
      var other := if KeepsClock(t, a) then b else a;
      var k := 3 * Ts(other);
      TwoSourcesReach(t, k);
      FarApart(Segment(0, k * SECOND, t.id, k * Ts(t)), t, other, if KeepsClock(t, a) then a else b);
      assert !CloseAfter(TwoSources(t, k), t, a, b);
    }
  }

  /** A join track moved from a clock of 90 kHz to one of 1 kHz without `begin`: 89 seconds from the other track. */
  lemma {:induction false} RetrackingNeedsBegin()
    ensures var was, v, a := Track(0, true, 90_000), Track(0, true, 1000), Track(1, false, 1000);
            var p := Advance(Played(START, TwoSources(was, 1)), SetTracks([v, a]));
            && p.s.tracks == [v, a] && p.s.seg.Some?
            && ShiftOf(p.s.seg.value, v) - ShiftOf(p.s.seg.value, a) == 89_000
  {
    TwoSourcesReach(Track(0, true, 90_000), 1);
    hide Played;
  }

  lemma {:induction false} Apart(sa: int, ta: nat, sb: int, tb: nat, shift: int)
    requires ta >= 1 && tb >= 1
    requires var ea, eb := sa * SECOND - shift * ta, sb * SECOND - shift * tb;
             && (-2 * ta < ea < ta || 0 <= ea < SECOND) && (-2 * tb < eb < tb || 0 <= eb < SECOND)
             && (0 <= ea < SECOND || 0 <= eb < SECOND)
    ensures var apart := (sa * tb - sb * ta) * SECOND;
            -(ta + tb) * SECOND - 2 * (ta * tb) < apart < (ta + tb) * SECOND + 2 * (ta * tb)
  {
    var ea, eb := sa * SECOND - shift * ta, sb * SECOND - shift * tb;
    CrossOff(sa, ta, sb, tb, shift);
    ErrorBounds(ea, ta, tb);
    ErrorBounds(eb, tb, ta);
    Times(0, ta, tb);
    assert tb * ta == ta * tb;
    Distance(ea * tb, eb * ta, ta * tb, ta * SECOND, tb * SECOND, 0 <= ea < SECOND, 0 <= eb < SECOND);
  }

  lemma {:induction false} Distance(p: int, q: int, t: int, a: int, b: int, pUp: bool, qUp: bool)
    requires t > 0 && a > 0 && b > 0 && (pUp || qUp)
    requires if pUp then 0 <= p <= b else -2 * t < p < t
    requires if qUp then 0 <= q <= a else -2 * t < q < t
    ensures -(a + b) - 2 * t < p - q < a + b + 2 * t
  {}

  lemma {:induction false} ErrorBounds(e: int, t: nat, n: nat)
    requires t >= 1 && n >= 1 && (-2 * t < e < t || 0 <= e < SECOND)
    ensures if 0 <= e < SECOND then 0 <= e * n <= n * SECOND else -2 * (t * n) < e * n < t * n
  {
    if 0 <= e < SECOND {
      Scaled(e, n);
    } else {
      ProductBounds(e, t, n);
    }
  }

  lemma {:induction false} CrossOff(sa: int, ta: nat, sb: int, tb: nat, shift: int)
    ensures (sa * SECOND - shift * ta) * tb - (sb * SECOND - shift * tb) * ta == (sa * tb - sb * ta) * SECOND
  {
    assert (sa * SECOND - shift * ta) * tb == sa * SECOND * tb - shift * ta * tb;
    assert (sb * SECOND - shift * tb) * ta == sb * SECOND * ta - shift * tb * ta;
    assert sa * SECOND * tb == sa * tb * SECOND && sb * SECOND * ta == sb * ta * SECOND;
    Swap(shift, ta, tb);
  }

  lemma {:induction false} Scaled(e: int, n: nat)
    requires 0 <= e < SECOND
    ensures 0 <= e * n <= SECOND * n
  {
    TimesLe(e, SECOND, n);
    TimesLe(0, e, n);
  }

  /** An error of less than two ticks down and one up, times the other clock. */
  lemma {:induction false} ProductBounds(e: int, t: nat, n: nat)
    requires t >= 1 && n >= 1
    ensures -2 * t < e < t ==> -2 * (t * n) < e * n < t * n
  {
    if -2 * t < e < t {
      Times(e, t, n);
      Times(-2 * t, e, n);
      assert -2 * t * n == -2 * (t * n);
    }
  }

  /**
    If the record of the join track ends where the output does, on the clock of the new source, the segment's first
    frame goes out `delta` after it; with no `delta` yet, video goes out one tick after it and sound is dropped.
   */
  lemma {:induction false} JoinsAtTheEnd(s: State, t: Track, f: Frame)
    requires Ok(s) && s.seg.None? && Find(s.tracks, f.track) == Some(t) && Joins(s.tracks, t, f)
    requires LastOf(s.lasts, f.track).Some? && EndMicros(s.lasts).Some?
    requires EndsHere(LastOf(s.lasts, f.track).value, Ts(t), EndMicros(s.lasts).value)
    ensures var l := LastOf(s.lasts, f.track).value;
            Stamp(s, f).1 == if l.delta > 0 then Some(Moved(f, l.dts + l.delta - f.dts))
                             else if t.video then Some(Moved(f, l.dts + 1 - f.dts)) else None
  {}

  /** The very first frame goes out as it came. */
  lemma {:induction false} FirstUnmoved(s: State, t: Track, f: Frame)
    requires s.seg.None? && s.lasts == [] && Find(s.tracks, f.track) == Some(t) && Joins(s.tracks, t, f)
    ensures Stamp(s, f).1 == Some(f)
  {
    hide MicrosOf, Joins, Find;
    assert EndMicros([]).None?;
    assert NewSegment([], t, f).exact == 0;
    hide NewSegment, EndMicros;
    assert Moved(f, 0) == f;
  }

  /** Where the first frame of a segment is put. */
  function Entry(s: State, t: Track, f: Frame): int {
    f.dts + ShiftOf(NewSegment(s.lasts, t, f), t)
  }

  /**
    Wherever the output ends, a segment's first frame is put less than its own clock's tick and a microsecond from
    there: and there it goes out, unless its track went out that far already; then video goes out a tick after that,
    and sound is dropped.
   */
  lemma {:induction false} LandsAtTheEnd(s: State, t: Track, f: Frame)
    requires s.seg.None? && Find(s.tracks, f.track) == Some(t) && Joins(s.tracks, t, f) && EndMicros(s.lasts).Some?
    ensures var off := Entry(s, t, f) * SECOND - EndMicros(s.lasts).value * Ts(t);
            off + Ts(t) > 0 && off < SECOND + Ts(t)
    ensures var at, l := Entry(s, t, f), LastOf(s.lasts, f.track);
            Stamp(s, f).1 == if l.None? || at > Prev(l.value, Ts(t)) then Some(Moved(f, at - f.dts))
                             else if t.video then Some(Moved(f, Prev(l.value, Ts(t)) + 1 - f.dts)) else None
  {
    EntryBounds(s, t, f);
    EntryPlaced(s, t, f);
  }

  lemma {:induction false} EntryPlaced(s: State, t: Track, f: Frame)
    requires s.seg.None? && Find(s.tracks, f.track) == Some(t) && Joins(s.tracks, t, f)
    ensures var at, l := Entry(s, t, f), LastOf(s.lasts, f.track);
            Stamp(s, f).1 == if l.None? || at > Prev(l.value, Ts(t)) then Some(Moved(f, at - f.dts))
                             else if t.video then Some(Moved(f, Prev(l.value, Ts(t)) + 1 - f.dts)) else None
  {
    hide Find, Joins, LastOf, ShiftOf, Prev, EndMicros, EndsHere, ScaleCeil, MicrosOf, Put;
  }

  lemma {:induction false} EntryBounds(s: State, t: Track, f: Frame)
    requires f.track == t.id && EndMicros(s.lasts).Some?
    ensures var off := Entry(s, t, f) * SECOND - EndMicros(s.lasts).value * Ts(t);
            off + Ts(t) > 0 && off < SECOND + Ts(t)
  {
    hide EndMicros, LastOf, ScaleCeil;
    var seg, ts, end := NewSegment(s.lasts, t, f), Ts(t), EndMicros(s.lasts).value;
    var l := LastOf(s.lasts, f.track);
    if l.Some? && EndsHere(l.value, ts, end) {
      CeilBounds(l.value.dts + l.value.delta, SECOND, ts);
    } else {
      CeilBounds(end - seg.t0, ts, SECOND);
      TruncBounds(f.dts * SECOND, ts);
      Distribute(end, seg.t0, ts);
    }
  }

  /** With one video record, that is its case exactly when the new source has the clock of the record. */
  lemma {:induction false} OneVideoEndsHere(lasts: seq<Last>, video: Last, ts: nat)
    requires video in lasts && video.video && forall l :: l in lasts && l.video ==> l == video
    ensures EndMicros(lasts).Some? && (EndsHere(video, ts, EndMicros(lasts).value) <==> ts == video.timescale)
  {
    OneVideo(lasts, video);
  }

  lemma {:induction false} OneVideo(lasts: seq<Last>, video: Last)
    requires forall l :: l in lasts && l.video ==> l == video
    ensures LatestEnd(lasts, true) == if video in lasts && video.video then Some(End(video)) else None
    decreases |lasts|
  {
    if lasts != [] {
      OneVideo(lasts[..|lasts| - 1], video);
      assert lasts == lasts[..|lasts| - 1] + [lasts[|lasts| - 1]];
    }
  }

  /** The states after each frame of a segment, and what each frame became. */
  function Stamps(s: State, frames: seq<Frame>): (o: seq<Option<Frame>>)
    ensures |o| == |frames|
    decreases |frames|
  {
    if frames == [] then [] else [Stamp(s, frames[0]).1] + Stamps(Stamp(s, frames[0]).0, frames[1..])
  }

  /** A sound frame of a segment: dropped, or shifted exactly as far as every other. */
  lemma {:induction false} AudioStep(s: State, t: Track, f: Frame)
    requires Ok(s) && s.seg.Some? && Find(s.tracks, f.track) == Some(t) && !t.video
    ensures var out, to, l := Stamp(s, f).1, f.dts + ShiftOf(s.seg.value, t), LastOf(s.lasts, f.track);
            && (out.Some? <==>
                  (MicrosOf(f.dts, t.timescale) >= s.seg.value.t0 && (l.Some? ==> to > Prev(l.value, Ts(t)))))
            && (out.Some? ==> out.value == Moved(f, ShiftOf(s.seg.value, t)))
  {
    hide MicrosOf, ShiftOf, Prev;
  }

  /** The track's last frame came from `dts` in this segment, shifted like the rest of it. */
  ghost predicate Flowing(s: State, t: Track, dts: int) {
    && Ok(s) && s.seg.Some? && Find(s.tracks, t.id) == Some(t) && !t.video
       && MicrosOf(dts, t.timescale) >= s.seg.value.t0
    && var l := LastOf(s.lasts, t.id);
       l.Some? && l.value.timescale == Ts(t) && l.value.dts == dts + ShiftOf(s.seg.value, t)
  }

  /** The frames of a track are in strict decode order, all after `dts`. */
  ghost predicate Rising(frames: seq<Frame>, track: nat, dts: int) {
    && (forall i :: 0 <= i < |frames| && frames[i].track == track ==> frames[i].dts > dts)
    && (forall i, j :: 0 <= i < j < |frames| && frames[i].track == frames[j].track == track ==>
         frames[i].dts < frames[j].dts)
  }

  lemma {:induction false} StepFlows(s: State, t: Track, dts: int, f: Frame)
    requires Flowing(s, t, dts) && (f.track == t.id ==> f.dts > dts)
    ensures Flowing(Stamp(s, f).0, t, if f.track == t.id then f.dts else dts)
    ensures f.track == t.id ==> Stamp(s, f).1 == Some(Moved(f, ShiftOf(s.seg.value, t)))
    ensures Stamp(s, f).0.seg == s.seg && Stamp(s, f).0.tracks == s.tracks
  {
    StampLater(s, f);
    SegmentStays(s, f);
    hide Stamp, ShiftOf, Before;
    if f.track == t.id {
      TruncMonotone(dts * SECOND, f.dts * SECOND, Ts(t));
      AudioStep(s, t, f);
    }
    assert LastOf(Stamp(s, f).0.lasts, t.id) == LastAfter(s, f, t.id);
  }

  lemma {:induction false} SegmentStays(s: State, f: Frame)
    requires s.seg.Some?
    ensures Stamp(s, f).0.seg == s.seg && Stamp(s, f).0.tracks == s.tracks
  {
    hide ShiftOf, MicrosOf, Placed;
  }

  lemma {:induction false} KeepsFlowing(s: State, t: Track, dts: int, frames: seq<Frame>, j: nat)
    requires Flowing(s, t, dts) && Rising(frames, t.id, dts) && j < |frames| && frames[j].track == t.id
    ensures Stamps(s, frames)[j] == Some(Moved(frames[j], ShiftOf(s.seg.value, t)))
    decreases |frames|
  {
    hide Flowing, Stamp, ShiftOf;
    StepFlows(s, t, dts, frames[0]);
    if j > 0 {
      var last := if frames[0].track == t.id then frames[0].dts else dts;
      KeepsFlowing(Stamp(s, frames[0]).0, t, last, frames[1..], j - 1);
    }
  }

  /**
    Within a segment, what is dropped of a sound track in decode order is only a beginning of it: once a frame
    of it goes out every later one does, exactly as far from it as at the source.
   */
  lemma {:induction false} DropsOnlyABeginning(s: State, t: Track, frames: seq<Frame>, i: nat, j: nat, floor: int)
    requires Ok(s) && s.seg.Some? && Find(s.tracks, t.id) == Some(t) && !t.video && Rising(frames, t.id, floor)
    requires i <= j < |frames| && frames[i].track == frames[j].track == t.id && Stamps(s, frames)[i].Some?
    ensures Stamps(s, frames)[j] == Some(Moved(frames[j], ShiftOf(s.seg.value, t)))
    decreases |frames|
  {
    hide Stamp, ShiftOf, Before, MicrosOf;
    SegmentStays(s, frames[0]);
    StampLater(s, frames[0]);
    if i > 0 {
      DropsOnlyABeginning(Stamp(s, frames[0]).0, t, frames[1..], i - 1, j - 1, floor);
    } else {
      AudioStep(s, t, frames[0]);
      if j > 0 {
        assert LastOf(Stamp(s, frames[0]).0.lasts, t.id) == LastAfter(s, frames[0], t.id);
        assert frames[0].dts < frames[j].dts;
        KeepsFlowing(Stamp(s, frames[0]).0, t, frames[0].dts, frames[1..], j - 1);
      }
    }
  }
}
