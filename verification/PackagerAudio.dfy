/**
  Where the second track's audio ends up, over every run: in the parts, in order of arrival, or still waiting,
  or left out for one of three reasons.
 */
module PackagerAudio {
  import opened Util
  import opened Fmp4
  import opened PackagerModel
  import opened PlaylistWindow
  import opened PackagerInvariants
  import opened PackagerSteps

  // ---- The audio of a state ----

  function PartsAudio(parts: seq<Part>): seq<Sample>
    decreases |parts|
  {
    if parts == [] then [] else PartsAudio(parts[..|parts| - 1]) + parts[|parts| - 1].audio
  }

  /** The audio of every part there ever was. */
  function Published(segments: seq<Segment>): seq<Sample>
    decreases |segments|
  {
    if segments == [] then [] else Published(segments[..|segments| - 1]) + PartsAudio(segments[|segments| - 1].parts)
  }

  function HeldAudio(lanes: Lanes): seq<Sample> {
    if lanes.secondary.Some? && lanes.secondary.value.pending.Some? then
      var lane := lanes.secondary.value;
      [lane.pending.value.(dur := FallbackDur(lane, lane.pending.value.data))]
    else []
  }

  /** What waits for a part: the queue, and the held-back sample as it would be if nothing followed it. */
  function Backlog(p: Pkg): seq<Sample> {
    p.cut.queue + HeldAudio(p.lanes)
  }

  /** All the audio there is, published or waiting, oldest first. */
  function AudioLine(p: Pkg): seq<Sample> {
    Published(All(p.win)) + Backlog(p)
  }

  /** `b` is `a` without some samples that were to go. */
  ghost predicate Thinned(a: seq<Sample>, b: seq<Sample>, gone: Sample -> bool)
    decreases |a|
  {
    if a == [] then b == []
    else (b != [] && b[0] == a[0] && Thinned(a[1..], b[1..], gone)) || (gone(a[0]) && Thinned(a[1..], b, gone))
  }

  lemma {:induction false} ThinnedSame(a: seq<Sample>, gone: Sample -> bool)
    ensures Thinned(a, a, gone)
    decreases |a|
  {
    if a != [] {
      ThinnedSame(a[1..], gone);
    }
  }

  lemma {:induction false} ThinnedTrans(a: seq<Sample>, b: seq<Sample>, c: seq<Sample>, gone: Sample -> bool)
    requires Thinned(a, b, gone) && Thinned(b, c, gone)
    ensures Thinned(a, c, gone)
    decreases |a|
  {
    if a != [] {
      if gone(a[0]) && Thinned(a[1..], b, gone) {
        ThinnedTrans(a[1..], b, c, gone);
      } else if c != [] && c[0] == b[0] && Thinned(b[1..], c[1..], gone) {
        ThinnedTrans(a[1..], b[1..], c[1..], gone);
      } else {
        ThinnedTrans(a[1..], b[1..], c, gone);
      }
    }
  }

  lemma {:induction false} ThinnedInside(before: seq<Sample>, a: seq<Sample>, b: seq<Sample>, after: seq<Sample>,
                                         gone: Sample -> bool)
    requires Thinned(a, b, gone)
    ensures Thinned(before + a + after, before + b + after, gone)
    decreases |before| + |a|
  {
    var x, y := before + a + after, before + b + after;
    if before != [] {
      ThinnedInside(before[1..], a, b, after, gone);
      assert x[1..] == before[1..] + a + after && y[1..] == before[1..] + b + after;
    } else if a == [] {
      assert x == after && y == after;
      ThinnedSame(after, gone);
    } else if b != [] && b[0] == a[0] && Thinned(a[1..], b[1..], gone) {
      ThinnedInside(before, a[1..], b[1..], after, gone);
      assert x[1..] == before + a[1..] + after && y[1..] == before + b[1..] + after;
    } else {
      ThinnedInside(before, a[1..], b, after, gone);
      assert x[1..] == before + a[1..] + after;
    }
  }

  // ---- Steps of an operation ----

  /** Whatever ends by the floor may go. */
  ghost predicate Covers(gone: Sample -> bool, p: Pkg)
    requires Wf(p)
  {
    p.lanes.secondary.Some? ==> forall s :: BelowFloor(p.lanes.secondary.value, s, p.cut.floor) ==> gone(s)
  }

  /** A part is only ever built inside an open segment. */
  predicate Inside(p: Pkg) {
    Open(p.win) || (p.cut.part == [] && (p.lanes.primary.Some? ==> p.lanes.primary.value.pending.None?))
  }

  /** Audio is only left out if it may go, and the state stays fit for the next step. */
  ghost predicate Sheds(p: Pkg, q: Pkg, gone: Sample -> bool)
    requires Wf(q)
  {
    Thinned(AudioLine(p), AudioLine(q), gone) && Covers(gone, q)
  }

  lemma {:induction false} TakenIs(lane: Lane, queue: seq<Sample>, end: int, floor: Option<int>, gone: Sample -> bool)
    requires lane.timescale > 0 && forall s :: BelowFloor(lane, s, floor) ==> gone(s)
    ensures var (taken, rest) := TakeAudio(lane, queue, end, floor); Thinned(queue, taken + rest, gone)
    decreases |queue|
  {
    hide Micros, BelowFloor;
    var (taken, rest) := TakeAudio(lane, queue, end, floor);
    if queue == [] || Micros(lane, queue[0].dts) >= end {
      assert taken + rest == queue;
      ThinnedSame(queue, gone);
    } else {
      TakenIs(lane, queue[1..], end, floor, gone);
      var (more, rest') := TakeAudio(lane, queue[1..], end, floor);
      if !BelowFloor(lane, queue[0], floor) {
        assert (taken + rest)[1..] == more + rest';
      }
    }
  }

  lemma {:induction false} PublishedSnoc(segments: seq<Segment>, seg: Segment)
    ensures Published(segments + [seg]) == Published(segments) + PartsAudio(seg.parts)
  {
    assert (segments + [seg])[..|segments|] == segments;
  }

  lemma {:induction false} PartsAudioSnoc(parts: seq<Part>, part: Part)
    ensures PartsAudio(parts + [part]) == PartsAudio(parts) + part.audio
  {
    assert (parts + [part])[..|parts|] == parts;
  }

  /** A part more: its audio comes last. */
  lemma {:induction false} AddPartAudio(w: Window, part: Part)
    requires Open(w)
    ensures Published(All(AddPart(w, part))) == Published(All(w)) + part.audio && Open(AddPart(w, part))
  {
    var last := w.segments[|w.segments| - 1];
    var before := w.evicted + w.segments[..|w.segments| - 1];
    assert All(w) == before + [last];
    assert All(AddPart(w, part)) == before + [last.(parts := last.parts + [part])];
    hide Published, PartsAudio;
    PublishedSnoc(before, last);
    PublishedSnoc(before, last.(parts := last.parts + [part]));
    PartsAudioSnoc(last.parts, part);
  }

  lemma {:induction false} CloseWindowAudio(w: Window)
    ensures Published(All(CloseWindow(w))) == Published(All(w))
  {
    hide Joined, Duration, Round, Flagged, Excess;
    if Open(w) {
      var last := w.segments[|w.segments| - 1];
      var before := w.evicted + w.segments[..|w.segments| - 1];
      assert All(w) == before + [last];
      hide Published;
      PublishedSnoc(before, last);
      if Empty(w) {
        assert All(TakeBack(w)) == before;
      } else {
        PublishedSnoc(before, last.(full := Some(Joined(last.parts))));
        assert All(Seal(w)) == before + [last.(full := Some(Joined(last.parts)))];
        EvictAll(Seal(w));
      }
    }
  }

  lemma {:induction false} EvictAll(w: Window)
    ensures All(Evict(w)) == All(w)
  {
    hide Flagged, Excess;
  }

  lemma {:induction false} ClosePartAudio(p: Pkg, gone: Sample -> bool)
    requires Wf(p) && Covers(gone, p) && (p.cut.part != [] ==> Open(p.win))
    ensures Sheds(p, ClosePart(p), gone) && ClosePart(p).lanes == p.lanes && ClosePart(p).cut.part == []
    ensures Open(p.win) ==> Open(ClosePart(p).win)
    ensures ClosePart(p).cut.segStart == p.cut.segStart
  {
    var q := ClosePart(p);
    if p.cut.part == [] {
      ThinnedSame(AudioLine(p), gone);
    } else {
      var (audio, rest) := PartAudio(p);
      QueueThinned(p, gone);
      hide Thinned, Published, PartAudio, FallbackDur, HeldAudio;
      var part := NewPart(p, (p.cut.fragmentSeq + 1) % 0x1_0000_0000, audio);
      assert part.audio == audio && q.win == AddPart(p.win, part);
      hide NewPart, AddPart;
      AddPartAudio(p.win, part);
      var before, held := Published(All(p.win)), HeldAudio(p.lanes);
      ThinnedInside(before, p.cut.queue, audio + rest, held, gone);
      Reassociate(before, p.cut.queue, audio, rest, held);
    }
  }

  lemma {:induction false} Reassociate(a: seq<Sample>, q: seq<Sample>, b: seq<Sample>, c: seq<Sample>, d: seq<Sample>)
    ensures a + q + d == a + (q + d) && a + (b + c) + d == a + b + (c + d)
  {}

  lemma {:induction false} QueueThinned(p: Pkg, gone: Sample -> bool)
    requires Wf(p) && Covers(gone, p) && p.cut.part != []
    ensures var (audio, rest) := PartAudio(p); Thinned(p.cut.queue, audio + rest, gone)
  {
    hide TakeAudio, BelowFloor, Thinned;
    if p.lanes.secondary.None? {
      assert [] + p.cut.queue == p.cut.queue;
      ThinnedSame(p.cut.queue, gone);
    } else {
      TakenIs(p.lanes.secondary.value, p.cut.queue, Micros(p.lanes.primary.value, End(p.cut.part[|p.cut.part| - 1])),
              p.cut.floor, gone);
    }
  }

  /** A step that touches neither the audio, the floor nor the second track. */
  lemma {:induction false} SameAudio(p: Pkg, q: Pkg, gone: Sample -> bool)
    requires Wf(p) && Wf(q) && Published(All(q.win)) == Published(All(p.win)) && q.cut.queue == p.cut.queue
    requires q.lanes.secondary == p.lanes.secondary
    ensures AudioLine(q) == AudioLine(p) && Thinned(AudioLine(p), AudioLine(q), gone)
    ensures Covers(gone, p) && q.cut.floor == p.cut.floor ==> Covers(gone, q)
  {
    hide Thinned, BelowFloor;
    ThinnedSame(AudioLine(p), gone);
  }

  lemma {:induction false} CloseSegmentAudio(p: Pkg, gone: Sample -> bool)
    requires Wf(p) && Covers(gone, p)
    ensures Sheds(p, CloseSegment(p), gone)
    ensures CloseSegment(p).lanes == p.lanes && CloseSegment(p).cut == p.cut.(segStart := None)
  {
    hide CloseWindow, KeepFrom, Thinned, Published;
    CloseWindowAudio(p.win);
    SameAudio(p, CloseSegment(p), gone);
  }

  lemma {:induction false} ShedsTrans(a: Pkg, b: Pkg, c: Pkg, gone: Sample -> bool)
    requires Wf(b) && Wf(c) && Sheds(a, b, gone) && Sheds(b, c, gone)
    ensures Sheds(a, c, gone)
  {
    hide Thinned, AudioLine, Covers;
    ThinnedTrans(AudioLine(a), AudioLine(b), AudioLine(c), gone);
  }

  lemma {:induction false} CommitAudio(p: Pkg, s: Sample, gone: Sample -> bool)
    requires Wf(p) && Covers(gone, p) && Open(p.win) && p.lanes.primary.Some?
    ensures Sheds(p, CommitPrimary(p, s), gone)
    ensures Open(CommitPrimary(p, s).win) && CommitPrimary(p, s).lanes == p.lanes
  {
    var closes := p.cut.part != [] && End(s) - p.cut.part[0].dts > PartMax(p);
    var c := if closes then ClosePart(p) else p;
    var q := CommitPrimary(p, s);
    assert q == c.(cut := c.cut.(part := c.cut.part + [s]));
    hide ClosePart, CommitPrimary, Sheds, Covers;
    if closes {
      ClosePartAudio(p, gone);
    } else {
      Stays(p, p, gone);
    }
    Stays(c, q, gone);
    ShedsTrans(p, c, q, gone);
  }

  lemma {:induction false} Stays(p: Pkg, q: Pkg, gone: Sample -> bool)
    requires Wf(p) && Wf(q) && q.win == p.win && q.cut.queue == p.cut.queue && q.cut.floor == p.cut.floor
    requires q.lanes.secondary == p.lanes.secondary && Covers(gone, p)
    ensures Sheds(p, q, gone)
  {
    hide Thinned, Published;
    SameAudio(p, q, gone);
  }

  lemma {:induction false} ClosesAudio(p: Pkg, gone: Sample -> bool)
    requires Wf(p) && Covers(gone, p) && (p.cut.part != [] ==> Open(p.win))
    ensures Sheds(p, CloseSegment(ClosePart(p)), gone)
    ensures CloseSegment(ClosePart(p)).lanes == p.lanes
  {
    hide ClosePart, CloseSegment, Thinned, AudioLine, Covers;
    ClosePartAudio(p, gone);
    CloseSegmentAudio(ClosePart(p), gone);
    ShedsTrans(p, ClosePart(p), CloseSegment(ClosePart(p)), gone);
  }

  lemma {:induction false} FlushPrimaryAudio(p: Pkg, gone: Sample -> bool)
    requires Wf(p) && Covers(gone, p) && Inside(p)
    ensures Sheds(p, FlushPrimary(p), gone)
    ensures FlushPrimary(p).cut.part != [] ==> Open(FlushPrimary(p).win)
    ensures FlushPrimary(p).lanes.secondary == p.lanes.secondary
  {
    hide CommitPrimary, Sheds, Covers;
    if p.lanes.primary.None? || p.lanes.primary.value.pending.None? {
      Stays(p, p, gone);
    } else {
      var r := Released(p);
      var c := CommitPrimary(r, Held(p));
      Stays(p, r, gone);
      ShedsCovers(p, r, gone);
      CommitAudio(r, Held(p), gone);
      ShedsTrans(p, r, c, gone);
      ShedsCovers(r, c, gone);
      Stays(c, FlushPrimary(p), gone);
      ShedsTrans(p, c, FlushPrimary(p), gone);
    }
  }

  lemma {:induction false} ShedsCovers(p: Pkg, q: Pkg, gone: Sample -> bool)
    requires Wf(q) && Sheds(p, q, gone)
    ensures Covers(gone, q)
  {}

  lemma {:induction false} FlushSecondaryAudio(p: Pkg, gone: Sample -> bool)
    requires Wf(p) && Covers(gone, p)
    ensures Sheds(p, FlushSecondary(p), gone) && FlushSecondary(p).win == p.win
    ensures FlushSecondary(p).cut.part == p.cut.part && HeldAudio(FlushSecondary(p).lanes) == []
  {
    var q := FlushSecondary(p);
    assert Backlog(q) == Backlog(p);
    hide Thinned, FallbackDur;
    ThinnedSame(AudioLine(p), gone);
    assert forall s, floor :: q.lanes.secondary.Some? ==>
      (BelowFloor(q.lanes.secondary.value, s, floor) <==> BelowFloor(p.lanes.secondary.value, s, floor));
  }

  lemma {:induction false} FlushAudio(p: Pkg, gone: Sample -> bool)
    requires Wf(p) && Covers(gone, p) && Inside(p)
    ensures Sheds(p, Flush(p), gone) && HeldAudio(Flush(p).lanes) == []
  {
    hide FlushPrimary, FlushSecondary, ClosePart, CloseSegment, Sheds, Covers, HeldAudio;
    var a := FlushPrimary(p);
    var b := FlushSecondary(a);
    FlushPrimaryAudio(p, gone);
    ShedsCovers(p, a, gone);
    FlushSecondaryAudio(a, gone);
    ShedsTrans(p, a, b, gone);
    ShedsCovers(a, b, gone);
    ClosesAudio(b, gone);
    ShedsTrans(p, b, Flush(p), gone);
  }

  // ---- Operations ----

  /** A frame for the second track. */
  predicate ForSecondary(p: Pkg, op: Op) {
    && op.OpPush? && !p.ended && p.lanes.secondary.Some?
    && !(p.lanes.primary.Some? && p.lanes.primary.value.coreId == op.frame.track)
    && p.lanes.secondary.value.coreId == op.frame.track
  }

  /** The audio an operation brings. */
  function NewAudio(p: Pkg, op: Op): seq<Sample> {
    if ForSecondary(p, op) then [SampleOf(p.lanes.secondary.value, op.frame, true)] else []
  }

  /** A lag, a successor or another selection of tracks: what waits is given up. */
  predicate Clears(p: Pkg, op: Op) {
    op.OpLagged? || op.OpResume? || (op.OpTracks? && !Unchanged(p, op.sel))
  }

  /** It was over when the first frame after a wait began. */
  predicate TooEarly(p: Pkg, s: Sample) {
    && p.lanes.secondary.Some? && p.lanes.secondary.value.timescale > 0
    && BelowFloor(p.lanes.secondary.value, s, p.cut.floor)
  }

  /** With no segment open, more newer audio waits than is kept. */
  predicate BeyondTail(p: Pkg, op: Op, s: Sample) {
    && ForSecondary(p, op) && p.cut.segStart.None? && |Backlog(p)| > QUEUE_TAIL
    && s in Backlog(p)[..|Backlog(p)| - QUEUE_TAIL]
  }

  /** Why an operation may leave a sample out. */
  predicate Leaves(p: Pkg, op: Op, s: Sample) {
    Clears(p, op) || TooEarly(p, s) || BeyondTail(p, op, s)
  }

  /** The samples but for their durations, which are known only when the next one comes. */
  function Strip(s: seq<Sample>): (t: seq<Sample>)
    ensures |t| == |s| && forall i :: 0 <= i < |s| ==> t[i] == s[i].(dur := 0)
  {
    seq(|s|, i requires 0 <= i < |s| => s[i].(dur := 0))
  }

  /** `left` is what the operation leaves of the audio of `p`; in `q` it is followed by what the operation brings. */
  ghost predicate Carries(p: Pkg, op: Op, q: Pkg, left: seq<Sample>) {
    && Thinned(AudioLine(p), left, (s: Sample) => Leaves(p, op, s))
    && Strip(AudioLine(q)) == Strip(left) + NewAudio(p, op)
  }

  lemma {:induction false} ReadyInside(p: Pkg)
    requires Ready(p)
    ensures Wf(p) && Inside(p) && (p.lanes.primary.Some? && p.lanes.primary.value.pending.Some? ==> Open(p.win))
  {
    hide WindowOk, SegmentsOk, Chained, InitsOk, Linked;
  }

  lemma {:induction false} GoneCovers(p: Pkg, op: Op)
    requires Wf(p)
    ensures Covers((s: Sample) => Leaves(p, op, s), p)
  {
    hide BelowFloor, Clears, BeyondTail;
  }

  lemma {:induction false} CutAudio(p: Pkg, next: Sample, d: nat, gone: Sample -> bool)
    requires Wf(p) && Covers(gone, p) && Open(p.win) && p.lanes.primary.Some?
    ensures Sheds(p, Cut(p, next, d), gone)
  {
    hide ClosePart, CloseSegment, Sheds, Covers;
    ClosesAudio(p, gone);
    ClosePartAudio(p, gone);
    Stays(p, p, gone);
  }

  lemma {:induction false} SettleAudio(p: Pkg, next: Sample, gone: Sample -> bool)
    requires Wf(p) && Covers(gone, p) && Inside(p) && p.lanes.primary.Some?
    ensures Sheds(p, Settle(p, next), gone)
  {
    hide Flush, CommitPrimary, Cut, Sheds, Covers;
    var lane := p.lanes.primary.value;
    if lane.pending.None? {
      Stays(p, p, gone);
    } else if Jump(lane, next.dts - lane.pending.value.dts) {
      FlushAudio(p, gone);
      ShedsCovers(p, Flush(p), gone);
      Stays(Flush(p), Restarted(Flush(p)), gone);
      ShedsTrans(p, Flush(p), Restarted(Flush(p)), gone);
    } else {
      var d: nat := next.dts - lane.pending.value.dts;
      var s, m := lane.pending.value.(dur := d), Measured(p, d);
      Stays(p, m, gone);
      ShedsCovers(p, m, gone);
      CommitAudio(m, s, gone);
      var c := CommitPrimary(m, s);
      ShedsTrans(p, m, c, gone);
      ShedsCovers(m, c, gone);
      CutAudio(c, next, d, gone);
      ShedsTrans(p, c, Cut(c, next, d), gone);
    }
  }

  lemma {:induction false} OpenSegmentAudio(p: Pkg, dts: int, now: int)
    requires Wf(p) && p.lanes.primary.Some?
    ensures AudioLine(OpenSegment(p, dts, now)) == AudioLine(p) && OpenSegment(p, dts, now).lanes == p.lanes
  {
    var seg := NewSegment(p, dts, now);
    assert All(OpenSegment(p, dts, now).win) == All(p.win) + [seg];
    hide NewSegment, Micros, Published;
    PublishedSnoc(All(p.win), seg);
    assert seg.parts == [] && Published(All(p.win)) + [] == Published(All(p.win));
  }

  lemma {:induction false} PushPrimaryAudio(p: Pkg, f: Frame, now: int, gone: Sample -> bool)
    requires Wf(p) && Covers(gone, p) && Inside(p) && p.lanes.primary.Some?
    ensures Thinned(AudioLine(p), AudioLine(PushPrimary(p, f, now)), gone)
  {
    hide Settle, OpenSegment, Thinned, Covers, Published, FallbackDur, SampleOf;
    var next := SampleOf(p.lanes.primary.value, f, p.lanes.primaryIsAudio);
    SettleKeepsLanes(p, next);
    SettleAudio(p, next, gone);
    var q := Settle(p, next);
    OpenSegmentAudio(q, next.dts, now);
    hide Holding, HeldAudio;
    HoldingAudio(q, next);
    HoldingAudio(OpenSegment(q, next.dts, now), next);
  }

  lemma {:induction false} HoldingAudio(p: Pkg, next: Sample)
    requires p.lanes.primary.Some?
    ensures AudioLine(Holding(p, next)) == AudioLine(p)
  {}

  lemma {:induction false} StripAdd(a: seq<Sample>, b: seq<Sample>)
    ensures Strip(a + b) == Strip(a) + Strip(b)
  {}

  /** The older end of what waits goes. */
  lemma {:induction false} TailThinned(before: seq<Sample>, a: seq<Sample>, n: nat, gone: Sample -> bool)
    requires n <= |a| && forall s :: s in a[..n] ==> gone(s)
    ensures Thinned(before + a, before + a[n..], gone)
    decreases n
  {
    hide Thinned;
    if n == 0 {
      assert a[0..] == a;
      ThinnedSame(before + a, gone);
    } else {
      TailThinned(before, a, n - 1, gone);
      assert a[n - 1] in a[..n];
      ThinnedHead(a[n - 1..], gone);
      ThinnedInside(before, a[n - 1..], a[n - 1..][1..], [], gone);
      assert a[n - 1..][1..] == a[n..] && before + a[n..] + [] == before + a[n..];
      assert before + a[n - 1..] + [] == before + a[n - 1..];
      ThinnedTrans(before + a, before + a[n - 1..], before + a[n..], gone);
    }
  }

  lemma {:induction false} ThinnedHead(a: seq<Sample>, gone: Sample -> bool)
    requires a != [] && gone(a[0])
    ensures Thinned(a, a[1..], gone)
  {
    ThinnedSame(a[1..], gone);
  }

  /** How many of the oldest waiting samples a frame for the second track pushes out. */
  function PushedOut(p: Pkg): nat {
    if p.cut.segStart.None? && |Backlog(p)| > QUEUE_TAIL then |Backlog(p)| - QUEUE_TAIL else 0
  }

  lemma {:induction false} PushSecondaryLine(p: Pkg, f: Frame)
    requires Wf(p) && p.lanes.secondary.Some?
    ensures var q := PushSecondary(p, f);
            && q.win == p.win
            && Strip(Backlog(q)) == Strip(Backlog(p)[PushedOut(p)..]) + [SampleOf(p.lanes.secondary.value, f, true)]
  {
    hide FallbackDur, SecondaryDur;
    var q, lane := PushSecondary(p, f), p.lanes.secondary.value;
    var next := SampleOf(lane, f, true);
    assert Strip(HeldAudio(q.lanes)) == [next];
    StripAdd(q.cut.queue, HeldAudio(q.lanes));
    assert Strip(q.cut.queue) == Strip(Backlog(p)[PushedOut(p)..]);
  }

  lemma {:induction false} PushSecondaryAudio(p: Pkg, op: Op)
    requires Wf(p) && ForSecondary(p, op)
    ensures exists left :: Carries(p, op, PushSecondary(p, op.frame), left)
  {
    hide Thinned, Published, PushSecondary, Clears, TooEarly, HeldAudio, SampleOf;
    var q, before, n := PushSecondary(p, op.frame), Published(All(p.win)), PushedOut(p);
    PushSecondaryLine(p, op.frame);
    var left := before + Backlog(p)[n..];
    TailThinned(before, Backlog(p), n, (s: Sample) => Leaves(p, op, s));
    StripAdd(before, Backlog(p)[n..]);
    StripAdd(before, Backlog(q));
    assert Carries(p, op, q, left);
  }

  lemma {:induction false} Dropped(before: seq<Sample>, a: seq<Sample>, gone: Sample -> bool)
    requires forall s :: gone(s)
    ensures Thinned(before + a, before, gone)
  {
    TailThinned(before, a, |a|, gone);
    assert a[|a|..] == [] && before + [] == before;
  }

  /** After a flush that gives up what waits, only what is published is left. */
  lemma {:induction false} ClearAudio(p: Pkg, op: Op, q: Pkg)
    requires Wf(p) && Inside(p) && Clears(p, op) && NewAudio(p, op) == []
    requires q.win == Flush(p).win && Backlog(q) == []
    ensures Carries(p, op, q, AudioLine(q))
  {
    hide Flush, Thinned, Published, HeldAudio, Clears, ForSecondary;
    var gone := (s: Sample) => Leaves(p, op, s);
    GoneCovers(p, op);
    FlushAudio(p, gone);
    Dropped(Published(All(q.win)), Backlog(Flush(p)), gone);
    assert AudioLine(q) == Published(All(q.win));
    ThinnedTrans(AudioLine(p), AudioLine(Flush(p)), AudioLine(q), gone);
    assert Strip(AudioLine(q)) + [] == Strip(AudioLine(q));
  }

  /** Every operation, in every state it can meet. */
  lemma {:induction false} ApplyAudio(p: Pkg, op: Op) returns (left: seq<Sample>)
    requires Ready(p)
    ensures Wf(p) && Carries(p, op, Apply(p, op), left)
  {
    ReadyInside(p);
    hide Ready, Flush, Thinned, PushPrimary, PushSecondary, Carries, AudioLine, Covers, Inside;
    var q, gone := Apply(p, op), (s: Sample) => Leaves(p, op, s);
    GoneCovers(p, op);
    left := AudioLine(q);
    match op
    case OpTracks(sel) =>
      if Unchanged(p, sel) {
        Unmoved(p, op);
      } else {
        FlushEmpties(p);
        RetrackedClear(p, op);
      }
    case OpPush(f, now) =>
      if ForSecondary(p, op) {
        PushSecondaryAudio(p, op);
        left :| Carries(p, op, q, left);
      } else if !p.ended && p.lanes.primary.Some? && p.lanes.primary.value.coreId == f.track {
        PushPrimaryAudio(p, f, now, gone);
        Brought(p, op, q);
      } else {
        Unmoved(p, op);
      }
    case OpLagged => LaggedClear(p, op);
    case OpResume => LaggedClear(p, op);
    case _ =>
      FlushAudio(p, gone);
      FinishedLine(p, op);
      Brought(p, op, q);
  }

  lemma {:induction false} Unmoved(p: Pkg, op: Op)
    requires NewAudio(p, op) == []
    ensures Carries(p, op, p, AudioLine(p))
  {
    hide Thinned, AudioLine, Leaves;
    ThinnedSame(AudioLine(p), (s: Sample) => Leaves(p, op, s));
    assert Strip(AudioLine(p)) + [] == Strip(AudioLine(p));
  }

  lemma {:induction false} Brought(p: Pkg, op: Op, q: Pkg)
    requires NewAudio(p, op) == [] && Thinned(AudioLine(p), AudioLine(q), (s: Sample) => Leaves(p, op, s))
    ensures Carries(p, op, q, AudioLine(q))
  {
    hide Thinned, AudioLine, Leaves;
    assert Strip(AudioLine(q)) + [] == Strip(AudioLine(q));
  }

  lemma {:induction false} FinishedLine(p: Pkg, op: Op)
    requires Wf(p) && (op.OpSuspend? || op.OpEnd?)
    ensures AudioLine(Apply(p, op)) == AudioLine(Flush(p)) && NewAudio(p, op) == []
  {
    hide Flush, Published, FallbackDur;
  }

  lemma {:induction false} RetrackedClear(p: Pkg, op: Op)
    requires Wf(p) && Inside(p) && op.OpTracks? && !Unchanged(p, op.sel)
    ensures Carries(p, op, Apply(p, op), AudioLine(Apply(p, op)))
  {
    hide Flush, Carries, Inside, AudioLine, RotateInits;
    FlushEmpties(p);
    assert Backlog(Apply(p, op)) == [];
    ClearAudio(p, op, Apply(p, op));
  }

  lemma {:induction false} LaggedClear(p: Pkg, op: Op)
    requires Wf(p) && Inside(p) && (op.OpLagged? || op.OpResume?)
    ensures Carries(p, op, Apply(p, op), AudioLine(Apply(p, op)))
  {
    hide Flush, Carries, Inside, AudioLine, HeldAudio, Thinned, Covers, Leaves, Apply, Sheds, Wf, Backlog;
    GoneCovers(p, op);
    FlushAudio(p, (s: Sample) => Leaves(p, op, s));
    NothingWaits(p, op);
    ClearAudio(p, op, Apply(p, op));
  }

  lemma {:induction false} NothingWaits(p: Pkg, op: Op)
    requires Wf(p) && (op.OpLagged? || op.OpResume?) && HeldAudio(Flush(p).lanes) == []
    ensures Apply(p, op).win == Flush(p).win && Backlog(Apply(p, op)) == []
  {
    hide Flush, HeldAudio;
  }

  // ---- Runs ----

  /** All the audio ever pushed for a second track, in order. */
  function Pushed(cfg: Config, ops: seq<Op>): seq<Sample> {
    if ops == [] then [] else
      Pushed(cfg, ops[..|ops| - 1]) + NewAudio(Reach(cfg, ops[..|ops| - 1]), ops[|ops| - 1])
  }

  /** In a part or waiting for one; or left out by an operation. */
  datatype Fate = Kept | LeftOut(step: nat)

  function KeptOf(pushed: seq<Sample>, fates: seq<Fate>): seq<Sample>
    requires |pushed| == |fates|
    decreases |pushed|
  {
    if pushed == [] then [] else (if fates[0].Kept? then [pushed[0]] else []) + KeptOf(pushed[1..], fates[1..])
  }

  /** The operation had a reason to leave out the sample, with the duration it had by then. */
  ghost predicate HadReason(p: Pkg, op: Op, s: Sample) {
    exists x: Sample :: Leaves(p, op, x) && x.(dur := 0) == s
  }

  /** Every sample pushed is accounted for: those kept are, in order, all the audio there is. */
  ghost predicate Accounted(cfg: Config, ops: seq<Op>, fates: seq<Fate>) {
    && |fates| == |Pushed(cfg, ops)|
    && KeptOf(Pushed(cfg, ops), fates) == Strip(AudioLine(Reach(cfg, ops)))
    && forall i :: 0 <= i < |fates| && fates[i].LeftOut? ==>
         Explained(cfg, ops, fates[i].step, Pushed(cfg, ops)[i])
  }

  ghost predicate Explained(cfg: Config, ops: seq<Op>, step: nat, s: Sample) {
    step < |ops| && HadReason(Reach(cfg, ops[..step]), ops[step], s)
  }

  /** What an operation leaves out, marked. */
  lemma {:induction false} Mark(pushed: seq<Sample>, fates: seq<Fate>, a: seq<Sample>, b: seq<Sample>,
          gone: Sample -> bool, step: nat) returns (now: seq<Fate>)
    requires |pushed| == |fates| && KeptOf(pushed, fates) == Strip(a) && Thinned(a, b, gone)
    ensures |now| == |pushed| && KeptOf(pushed, now) == Strip(b)
    ensures forall i :: 0 <= i < |now| ==>
      now[i] == fates[i] || (now[i] == LeftOut(step) && exists x: Sample :: gone(x) && x.(dur := 0) == pushed[i])
    decreases |pushed|
  {
    if pushed == [] {
      now := [];
    } else if !fates[0].Kept? {
      var rest := Mark(pushed[1..], fates[1..], a, b, gone, step);
      now := [fates[0]] + rest;
      assert now[1..] == rest;
    } else {
      KeptHead(pushed, fates, a);
      if b != [] && b[0] == a[0] && Thinned(a[1..], b[1..], gone) {
        var rest := Mark(pushed[1..], fates[1..], a[1..], b[1..], gone, step);
        now := [Kept] + rest;
        assert now[1..] == rest;
        assert Strip(b) == [pushed[0]] + Strip(b[1..]);
      } else {
        var rest := Mark(pushed[1..], fates[1..], a[1..], b, gone, step);
        now := [LeftOut(step)] + rest;
        assert now[1..] == rest;
      }
    }
  }

  lemma {:induction false} KeptHead(pushed: seq<Sample>, fates: seq<Fate>, a: seq<Sample>)
    requires |pushed| == |fates| && pushed != [] && fates[0].Kept? && KeptOf(pushed, fates) == Strip(a)
    ensures a != [] && a[0].(dur := 0) == pushed[0] && KeptOf(pushed[1..], fates[1..]) == Strip(a[1..])
  {
    assert Strip(a)[0] == pushed[0];
    assert Strip(a)[1..] == Strip(a[1..]);
  }

  lemma {:induction false} KeptAdd(pushed: seq<Sample>, fates: seq<Fate>, more: seq<Sample>)
    requires |pushed| == |fates|
    ensures KeptOf(pushed + more, fates + Marks(|more|)) == KeptOf(pushed, fates) + more
    decreases |pushed| + |more|
  {
    hide KeptOf;
    KeptStep(pushed, fates);
    if pushed == [] {
      AllKept(more);
      assert pushed + more == more && fates + Marks(|more|) == Marks(|more|) && [] + more == more;
    } else {
      var head := if fates[0].Kept? then [pushed[0]] else [];
      KeptAdd(pushed[1..], fates[1..], more);
      KeptStep(pushed + more, fates + Marks(|more|));
      HeadAndTail(pushed, more);
      HeadAndTail(fates, Marks(|more|));
      AddAssoc(head, KeptOf(pushed[1..], fates[1..]), more);
    }
  }

  lemma {:induction false} HeadAndTail<T>(a: seq<T>, b: seq<T>)
    requires a != []
    ensures a + b != [] && (a + b)[0] == a[0] && (a + b)[1..] == a[1..] + b
  {}

  function Marks(n: nat): (m: seq<Fate>)
    ensures |m| == n && forall i :: 0 <= i < n ==> m[i] == Kept
  {
    seq(n, _ => Kept)
  }

  lemma {:induction false} KeptStep(pushed: seq<Sample>, fates: seq<Fate>)
    requires |pushed| == |fates|
    ensures KeptOf(pushed, fates) == if pushed == [] then [] else
              (if fates[0].Kept? then [pushed[0]] else []) + KeptOf(pushed[1..], fates[1..])
  {}

  lemma {:induction false} AllKept(more: seq<Sample>)
    ensures KeptOf(more, Marks(|more|)) == more
    decreases |more|
  {
    if more != [] {
      AllKept(more[1..]);
      assert Marks(|more|)[1..] == Marks(|more[1..]|);
    }
  }

  /**
    Over every run, of all the audio pushed for a second track each sample is in exactly one part or still waits, in
    the order of pushing and nowhere else; or an operation left it out, and then because what waits was given up, it
    ended before the first frame after a wait began, or with no segment open too much newer audio waited.
   */
  lemma {:induction false} AudioAccounted(cfg: Config, ops: seq<Op>) returns (fates: seq<Fate>)
    ensures Accounted(cfg, ops, fates)
  {
    if ops == [] {
      fates := [];
      NewSilent(cfg);
    } else {
      var init, op := ops[..|ops| - 1], ops[|ops| - 1];
      var before := AudioAccounted(cfg, init);
      ReachReady(cfg, init);
      fates := StepAccounted(cfg, ops, before);
    }
  }

  lemma {:induction false} NewSilent(cfg: Config)
    ensures AudioLine(New(cfg)) == []
  {}

  lemma {:induction false} StepAccounted(cfg: Config, ops: seq<Op>, before: seq<Fate>) returns (fates: seq<Fate>)
    requires ops != [] && Ready(Reach(cfg, ops[..|ops| - 1])) && Accounted(cfg, ops[..|ops| - 1], before)
    ensures Accounted(cfg, ops, fates)
  {
    hide Ready, Apply, Thinned, AudioLine, KeptOf, NewAudio, Leaves;
    var init, op := ops[..|ops| - 1], ops[|ops| - 1];
    var p := Reach(cfg, init);
    var left := ApplyAudio(p, op);
    var fresh' := NewAudio(p, op);
    var marked := Mark(Pushed(cfg, init), before, AudioLine(p), left, (s: Sample) => Leaves(p, op, s), |init|);
    KeptAdd(Pushed(cfg, init), marked, fresh');
    fates := marked + Marks(|fresh'|);
    forall i | 0 <= i < |fates| && fates[i].LeftOut?
      ensures Explained(cfg, ops, fates[i].step, Pushed(cfg, ops)[i])
    {
      var step := fates[i].step;
      if marked[i] == before[i] {
        assert Explained(cfg, init, step, Pushed(cfg, init)[i]);
        assert init[..step] == ops[..step];
      } else {
        assert step == |init| && HadReason(p, op, Pushed(cfg, init)[i]);
      }
    }
  }
}
