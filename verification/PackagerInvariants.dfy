/** What holds of the packager between any two operations, and why every operation keeps it. */
module PackagerInvariants {
  import opened Util
  import opened Fmp4
  import opened PackagerModel
  import opened PlaylistWindow

  // ---- Samples, parts and segments ----

  /** The primary samples of a segment's parts, in order. */
  function Flat(parts: seq<Part>): seq<Sample> {
    if parts == [] then [] else Flat(parts[..|parts| - 1]) + parts[|parts| - 1].video
  }

  /** Each sample starts where the one before it ends. */
  ghost predicate Contiguous(line: seq<Sample>) {
    forall i :: 0 <= i < |line| - 1 ==> line[i + 1].dts == End(line[i])
  }

  /** A gap-free line of samples that starts on a keyframe at `start`. */
  ghost predicate Tiles(line: seq<Sample>, start: int) {
    && Contiguous(line)
    && (line != [] ==> line[0].dts == start && line[0].key)
  }

  function EndTick(line: seq<Sample>, start: int): int {
    if line == [] then start else End(line[|line| - 1])
  }

  /** More than 15% of the part target. */
  predicate Long(s: Sample, limit: int) {
    s.dur * 100 > 15 * limit
  }

  /** At least 85% of the part target, or holding a frame that excuses it. */
  ghost predicate Firm(video: seq<Sample>, limit: int) {
    Span(video) * 100 >= limit * 85 || exists i :: 0 <= i < |video| && Long(video[i], limit)
  }

  ghost predicate PartOk(part: Part, timescale: nat, limit: int) {
    && part.video != [] && timescale > 0
    && (|part.video| >= 2 ==> Span(part.video) <= limit)
    && part.independent == part.video[0].key
    && part.duration == Span(part.video) as real / timescale as real
  }

  ghost predicate PartsOk(parts: seq<Part>, timescale: nat, limit: int) {
    && (forall j :: 0 <= j < |parts| ==> PartOk(parts[j], timescale, limit))
    && (forall j :: 0 <= j < |parts| - 1 ==> Firm(parts[j].video, limit) || Long(parts[j + 1].video[0], limit))
  }

  ghost predicate SegmentOk(cfg: Config, seg: Segment) {
    && seg.timescale > 0
    && Tiles(Flat(seg.parts), seg.startDts)
    && PartsOk(seg.parts, seg.timescale, PartLimit(cfg, seg.timescale))
  }

  ghost predicate SegmentsOk(cfg: Config, segments: seq<Segment>) {
    forall i :: 0 <= i < |segments| ==> SegmentOk(cfg, segments[i])
  }

  // ---- Neighbouring segments ----

  /** `next` starts no earlier than `prev` ends and at most half a second later. */
  ghost predicate Follows(prev: Segment, next: Segment) {
    && prev.timescale > 0 && next.timescale > 0
    && 0 <= MicrosAt(next.timescale, next.startDts) - EndMicros(prev) <= GAP_MICROS
  }

  function EndMicros(seg: Segment): int
    requires seg.timescale > 0
  {
    MicrosAt(seg.timescale, EndTick(Flat(seg.parts), seg.startDts))
  }

  /** Without a discontinuity, neighbours share their init segment and follow each other in time. */
  ghost predicate Joins(prev: Segment, next: Segment) {
    && prev.initGen <= next.initGen
    && (next.discontinuity || (prev.initGen == next.initGen && Follows(prev, next)))
  }

  ghost predicate Chained(segments: seq<Segment>) {
    forall i :: 0 <= i < |segments| - 1 ==> Joins(segments[i], segments[i + 1])
  }

  // ---- Init segments ----

  ghost predicate Ascending(inits: seq<(nat, Bytes)>, below: nat) {
    && (forall i :: 0 <= i < |inits| ==> inits[i].0 < below)
    && (forall i, j :: 0 <= i < j < |inits| ==> inits[i].0 < inits[j].0)
  }

  ghost predicate Resolves(p: Pkg, seg: Segment) {
    && seg.initGen <= p.inits.initGen
    && (if seg.initGen == p.inits.initGen then p.inits.init == Some(seg.init)
         else (seg.initGen, seg.init) in p.inits.oldInits)
  }

  ghost predicate InitsOk(p: Pkg) {
    && Ascending(p.inits.oldInits, p.inits.initGen)
    && (forall i :: 0 <= i < |p.win.segments| ==> Resolves(p, p.win.segments[i]))
    && (p.lanes.primary.Some? ==> p.inits.init.Some?)
  }

  // ---- The open segment ----

  function Line(p: Pkg): seq<Sample>
    requires Open(p.win)
  {
    Flat(Newest(p.win).parts) + p.cut.part
  }

  ghost predicate OpenOk(p: Pkg) {
    && Open(p.win) && p.lanes.primary.Some?
    && Newest(p.win).timescale == p.lanes.primary.value.timescale
    && Newest(p.win).initGen == p.inits.initGen
    && p.cut.segStart == Some(Newest(p.win).startDts)
    && Tiles(Line(p), Newest(p.win).startDts)
    && (|p.cut.part| >= 2 ==> Span(p.cut.part) <= PartMax(p))
    && (p.cut.part != [] ==> LastFirm(p) || Long(p.cut.part[0], PartMax(p)))
  }

  /** The open segment's last part, if it has one, is firm. */
  ghost predicate LastFirm(p: Pkg)
    requires Open(p.win)
  {
    var parts := Newest(p.win).parts;
    parts != [] ==> Firm(parts[|parts| - 1].video, PartMax(p))
  }

  ghost predicate IdleOk(p: Pkg) {
    && !Open(p.win) && p.cut.segStart.None? && p.cut.part == []
    && (p.lanes.primary.Some? ==> p.lanes.primary.value.pending.None?)
  }

  /** What also holds in the middle of an operation. */
  ghost predicate Mid(p: Pkg) {
    && Wf(p) && WindowOk(p.win)
    && SegmentsOk(p.cfg, All(p.win))
    && Chained(All(p.win))
    && InitsOk(p)
    && (p.win.segments != [] ==>
          Newest(p.win).initGen <= p.inits.initGen
            && (Newest(p.win).initGen != p.inits.initGen ==> p.cut.discontinuityNext))
  }

  /** With no segment open, what the next one needs to know about the last one is at hand. */
  ghost predicate Linked(p: Pkg) {
    p.win.segments != [] ==>
      || p.cut.discontinuityNext
      || (Newest(p.win).timescale > 0 && p.cut.resumeFrom == Some(EndMicros(Newest(p.win))))
  }

  /** The held-back frame continues the open segment. */
  ghost predicate HeldBack(p: Pkg)
    requires OpenOk(p)
  {
    && p.lanes.primary.value.pending.Some?
    && p.lanes.primary.value.pending.value.dts == EndTick(Line(p), Newest(p.win).startDts)
    && (Line(p) == [] ==> p.lanes.primary.value.pending.value.key)
    && (p.cut.part == [] ==> LastFirm(p))
  }

  /** The invariant between operations. */
  ghost predicate Ready(p: Pkg) {
    Mid(p) && (if Open(p.win) then OpenOk(p) && HeldBack(p) else IdleOk(p) && Linked(p))
  }

  // ---- Small lemmas ----

  lemma {:induction false} FlatSnoc(parts: seq<Part>, part: Part)
    ensures Flat(parts + [part]) == Flat(parts) + part.video
  {
    assert (parts + [part])[..|parts|] == parts;
  }

  lemma {:induction false} PartsSnoc(parts: seq<Part>, part: Part, timescale: nat, limit: int)
    requires PartsOk(parts, timescale, limit) && PartOk(part, timescale, limit)
    requires parts != [] ==> Firm(parts[|parts| - 1].video, limit) || Long(part.video[0], limit)
    ensures PartsOk(parts + [part], timescale, limit)
  {
    hide Firm, Long;
    var all := parts + [part];
    forall j | 0 <= j < |all|
      ensures PartOk(all[j], timescale, limit)
    {
      if j < |parts| {
        assert all[j] == parts[j];
      }
    }
    forall j | 0 <= j < |all| - 1
      ensures Firm(all[j].video, limit) || Long(all[j + 1].video[0], limit)
    {
      assert PartOk(all[j + 1], timescale, limit);
      assert all[j] == parts[j];
      if j + 1 < |parts| {
        assert all[j + 1] == parts[j + 1];
      }
    }
  }

  /** Replacing the newest segment by one that begins alike keeps the chain. */
  lemma {:induction false} ChainedUpdate(segments: seq<Segment>, last: Segment)
    requires segments != [] && Chained(segments)
    requires var was := segments[|segments| - 1];
             last.initGen == was.initGen && last.discontinuity == was.discontinuity
             && last.timescale == was.timescale && last.startDts == was.startDts
    ensures Chained(segments[..|segments| - 1] + [last])
  {
    hide MicrosAt, EndMicros;
    var all := segments[..|segments| - 1] + [last];
    forall i | 0 <= i < |all| - 1
      ensures Joins(all[i], all[i + 1])
    {
      assert Joins(segments[i], segments[i + 1]);
      assert all[i] == segments[i];
    }
  }

  /** The window after a change to its newest segment: everything but sizes and tiling carries over. */
  lemma {:induction false} MidUpdate(p: Pkg, q: Pkg)
    requires Mid(p) && p.win.segments != [] && Wf(q) && WindowOk(q.win) && q.win.segments != []
    requires All(q.win) == All(p.win)[..|All(p.win)| - 1] + [Newest(q.win)]
    requires |q.win.segments| <= |p.win.segments|
    requires Newest(q.win) == Newest(p.win).(parts := Newest(q.win).parts, full := Newest(q.win).full)
    requires SegmentOk(q.cfg, Newest(q.win))
    requires q.cfg == p.cfg && q.inits.initGen == p.inits.initGen && q.inits.init == p.inits.init
      && q.inits.oldInits == p.inits.oldInits
    requires q.cut.discontinuityNext == p.cut.discontinuityNext && (q.lanes.primary.Some? <==> p.lanes.primary.Some?)
    ensures Mid(q)
  {
    hide WindowOk, SegmentOk, Joins, Ascending, Wf;
    var a, b := All(p.win), All(q.win);
    assert a[|a| - 1] == Newest(p.win) && b[|b| - 1] == Newest(q.win);
    forall i | 0 <= i < |b|
      ensures SegmentOk(q.cfg, b[i])
    {
      if i < |b| - 1 {
        assert b[i] == a[i];
      }
    }
    ChainedUpdate(a, Newest(q.win));
    forall i | 0 <= i < |q.win.segments|
      ensures Resolves(q, q.win.segments[i])
    {
      var k := |q.win.evicted| + i;
      assert b[k] == q.win.segments[i];
      assert a[k] == p.win.segments[k - |p.win.evicted|];
      assert Resolves(p, p.win.segments[k - |p.win.evicted|]);
    }
  }

  // ---- Closing a part ----

  lemma {:induction false} ClosePartMid(p: Pkg)
    requires Mid(p) && OpenOk(p)
    ensures var q := ClosePart(p);
            && Mid(q) && OpenOk(q) && Grows(p.win, q.win)
            && q.cut.part == [] && q.lanes.primary == p.lanes.primary && q.cfg == p.cfg
               && q.lanes.primaryIsAudio == p.lanes.primaryIsAudio
            && Line(q) == Line(p)
            && Newest(q.win).startDts == Newest(p.win).startDts
            && (p.cut.part == [] ==> q == p)
            && (p.cut.part != [] ==>
                  && |All(q.win)| == |All(p.win)|
                  && |Newest(q.win).parts| == |Newest(p.win).parts| + 1
                  && Newest(q.win).parts[|Newest(p.win).parts|].video == p.cut.part)
  {
    hide SegmentsOk, Chained, InitsOk, WindowOk, SegmentOk, Fragment, TakeAudio, MicrosAt, PartLimit, Tiles, Firm, Long;
    var q := ClosePart(p);
    if p.cut.part != [] {
      var (audio, queue) := PartAudio(p);
      var part := NewPart(p, q.cut.fragmentSeq, audio);
      var seg := Newest(p.win);
      assert WindowOk(p.win) && SegmentOk(p.cfg, seg) by { MidParts(p); }
      AddPartOk(p.win, part);
      assert q.win == AddPart(p.win, part);
      AddPartSegment(p, part);
      FlatSnoc(seg.parts, part);
      assert Line(q) == Line(p);
      MidUpdate(p, q);
    }
  }

  lemma {:induction false} MidParts(p: Pkg)
    requires Mid(p) && p.win.segments != []
    ensures WindowOk(p.win) && SegmentOk(p.cfg, Newest(p.win))
  {
    hide WindowOk, SegmentOk;
    assert All(p.win)[|All(p.win)| - 1] == Newest(p.win);
  }

  lemma {:induction false} AddPartSegment(p: Pkg, part: Part)
    requires Wf(p) && OpenOk(p) && SegmentOk(p.cfg, Newest(p.win)) && p.cut.part != []
    requires part.video == p.cut.part && part.independent == p.cut.part[0].key
    requires part.duration == Span(p.cut.part) as real / p.lanes.primary.value.timescale as real
    ensures SegmentOk(p.cfg, Newest(p.win).(parts := Newest(p.win).parts + [part]))
  {
    hide Tiles, Firm, Long, Span, PartLimit;
    var seg := Newest(p.win);
    FlatSnoc(seg.parts, part);
    PartsSnoc(seg.parts, part, seg.timescale, PartMax(p));
  }

  // ---- Committing a sample ----

  lemma {:induction false} TilesSnoc(line: seq<Sample>, s: Sample, start: int)
    requires Tiles(line, start) && s.dts == EndTick(line, start) && (line == [] ==> s.key)
    ensures Tiles(line + [s], start)
  {
    var all := line + [s];
    forall i | 0 <= i < |all| - 1
      ensures all[i + 1].dts == End(all[i])
    {
      assert all[i] == line[i];
      if i + 1 < |line| {
        assert all[i + 1] == line[i + 1];
      }
    }
  }

  /** Two states that agree on everything `Mid` looks at. */
  lemma {:induction false} MidFrame(p: Pkg, q: Pkg)
    requires Mid(p) && Wf(q)
    requires q.win == p.win && q.cfg == p.cfg && q.inits.init == p.inits.init && q.inits.initGen == p.inits.initGen
      && q.inits.oldInits == p.inits.oldInits
    requires q.cut.discontinuityNext == p.cut.discontinuityNext && (q.lanes.primary.Some? ==> p.lanes.primary.Some?)
    ensures Mid(q)
  {
    hide WindowOk, SegmentsOk, Chained, Ascending;
    forall i | 0 <= i < |q.win.segments|
      ensures Resolves(q, q.win.segments[i])
    {
      assert Resolves(p, p.win.segments[i]);
    }
  }

  lemma {:induction false} LastOfLine(p: Pkg)
    requires OpenOk(p) && p.cut.part != []
    ensures EndTick(Line(p), Newest(p.win).startDts) == End(p.cut.part[|p.cut.part| - 1])
  {
    assert Line(p)[|Line(p)| - 1] == p.cut.part[|p.cut.part| - 1];
  }

  lemma {:induction false} CommitMid(p: Pkg, s: Sample)
    requires Mid(p) && OpenOk(p)
    requires s.dts == EndTick(Line(p), Newest(p.win).startDts) && (Line(p) == [] ==> s.key)
    requires p.cut.part == [] ==> LastFirm(p)
    ensures var q := CommitPrimary(p, s);
            && Mid(q) && OpenOk(q) && Grows(p.win, q.win) && |All(q.win)| == |All(p.win)|
            && Line(q) == Line(p) + [s] && q.cut.part != [] && q.cut.part[|q.cut.part| - 1] == s
            && |Newest(p.win).parts| <= |Newest(q.win).parts|
            && Newest(q.win).startDts == Newest(p.win).startDts
            && q.lanes.primary == p.lanes.primary && q.cfg == p.cfg && q.lanes.primaryIsAudio == p.lanes.primaryIsAudio
  {
    if p.cut.part != [] && End(s) - p.cut.part[0].dts > PartMax(p) {
      CommitSplit(p, s);
    } else {
      CommitJoin(p, s);
    }
  }

  lemma {:induction false} CommitSplit(p: Pkg, s: Sample)
    requires Mid(p) && OpenOk(p)
    requires s.dts == EndTick(Line(p), Newest(p.win).startDts)
    requires p.cut.part != [] && End(s) - p.cut.part[0].dts > PartMax(p)
    ensures var q := CommitPrimary(p, s);
            && Mid(q) && OpenOk(q) && Grows(p.win, q.win) && |All(q.win)| == |All(p.win)|
            && Line(q) == Line(p) + [s] && q.cut.part == [s]
            && |Newest(p.win).parts| <= |Newest(q.win).parts|
            && Newest(q.win).startDts == Newest(p.win).startDts
            && q.lanes.primary == p.lanes.primary && q.cfg == p.cfg && q.lanes.primaryIsAudio == p.lanes.primaryIsAudio
  {
    ClosePartMid(p);
    LastOfLine(p);
    var c := ClosePart(p);
    var q := CommitPrimary(p, s);
    hide Mid, Tiles, Grows, Flat, PartLimit, ClosePart, CommitPrimary;
    assert q == c.(cut := c.cut.(part := c.cut.part + [s]));
    MidFrame(c, q);
    assert Line(q) == Line(c) + [s];
    TilesSnoc(Line(p), s, Newest(p.win).startDts);
  }

  lemma {:induction false} CommitJoin(p: Pkg, s: Sample)
    requires Mid(p) && OpenOk(p)
    requires s.dts == EndTick(Line(p), Newest(p.win).startDts) && (Line(p) == [] ==> s.key)
    requires p.cut.part == [] ==> LastFirm(p)
    requires p.cut.part == [] || End(s) - p.cut.part[0].dts <= PartMax(p)
    ensures var q := CommitPrimary(p, s);
            && Mid(q) && OpenOk(q) && q.win == p.win && q.cut.part == p.cut.part + [s]
            && Line(q) == Line(p) + [s]
            && q.lanes.primary == p.lanes.primary && q.cfg == p.cfg && q.lanes.primaryIsAudio == p.lanes.primaryIsAudio
  {
    var q := CommitPrimary(p, s);
    assert q == p.(cut := p.cut.(part := p.cut.part + [s]));
    hide Mid, Tiles, Flat, PartLimit, CommitPrimary, Firm, Long;
    MidFrame(p, q);
    assert Line(q) == Line(p) + [s];
    TilesSnoc(Line(p), s, Newest(p.win).startDts);
    assert q.cut.part[0] == if p.cut.part != [] then p.cut.part[0] else s;
  }

  lemma {:induction false} GrowsRefl(w: Window)
    ensures Grows(w, w)
  {}

  // ---- Closing a segment ----

  lemma {:induction false} GensAscend(segments: seq<Segment>, i: nat, j: nat)
    requires Chained(segments) && i <= j < |segments|
    ensures segments[i].initGen <= segments[j].initGen
    decreases j - i
  {
    hide Follows;
    if i < j {
      GensAscend(segments, i, j - 1);
      assert Joins(segments[j - 1], segments[j - 1 + 1]);
    }
  }

  lemma {:induction false} KeepFromMembers(inits: seq<(nat, Bytes)>, first: nat)
    ensures forall x :: x in KeepFrom(inits, first) <==> x in inits && x.0 >= first
  {
    if inits != [] {
      KeepFromMembers(inits[1..], first);
      assert inits == [inits[0]] + inits[1..];
    }
  }

  lemma {:induction false} KeepFromIs(inits: seq<(nat, Bytes)>, first: nat, below: nat)
    requires Ascending(inits, below)
    ensures Ascending(KeepFrom(inits, first), below)
    ensures forall x :: x in KeepFrom(inits, first) <==> x in inits && x.0 >= first
  {
    KeepFromMembers(inits, first);
    if inits != [] {
      var rest := inits[1..];
      KeepFromIs(rest, first, below);
      var kept := KeepFrom(rest, first);
      assert KeepFrom(inits, first) == (if inits[0].0 >= first then [inits[0]] else []) + kept;
      hide KeepFrom;
      forall x | x in kept
        ensures inits[0].0 < x.0
      {
        assert x in rest;
      }
      PrependAscending(inits[0], kept, below);
    }
  }

  lemma {:induction false} PrependAscending(x: (nat, Bytes), inits: seq<(nat, Bytes)>, below: nat)
    requires Ascending(inits, below) && x.0 < below && forall y :: y in inits ==> x.0 < y.0
    ensures Ascending([x] + inits, below)
  {
    forall i, j | 0 <= i < j < |[x] + inits|
      ensures ([x] + inits)[i].0 < ([x] + inits)[j].0
    {
      assert ([x] + inits)[j] in inits;
    }
  }

  lemma {:induction false} DropInits(p: Pkg)
    requires Mid(p) && p.win.segments != []
    ensures Mid(p.(inits := p.inits.(oldInits := KeepFrom(p.inits.oldInits, p.win.segments[0].initGen))))
  {
    hide WindowOk, SegmentsOk, Ascending;
    var q := p.(inits := p.inits.(oldInits := KeepFrom(p.inits.oldInits, p.win.segments[0].initGen)));
    KeepFromIs(p.inits.oldInits, p.win.segments[0].initGen, p.inits.initGen);
    var a, n := All(p.win), |p.win.evicted|;
    forall i | 0 <= i < |p.win.segments|
      ensures Resolves(q, p.win.segments[i])
    {
      assert Resolves(p, p.win.segments[i]);
      assert a[n] == p.win.segments[0] && a[n + i] == p.win.segments[i];
      GensAscend(a, n, n + i);
    }
  }

  lemma {:induction false} CloseSegmentMid(p: Pkg)
    requires Mid(p) && OpenOk(p) && p.cut.part == [] && Newest(p.win).parts != []
    ensures var q := CloseSegment(p);
            && Mid(q) && !Open(q.win) && q.cut.segStart.None? && q.cut.part == [] && Grows(p.win, q.win)
            && q.win.segments != [] && |All(q.win)| == |All(p.win)|
            && Newest(q.win) == Newest(p.win).(full := Newest(q.win).full)
            && q == p.(win := q.win, cut := p.cut.(segStart := None), inits := p.inits.(oldInits := q.inits.oldInits))
  {
    hide Joined, Duration, Round, Grows, Tiles, PartsOk, SegmentsOk, Chained, WindowOk;
    assert !Empty(p.win);
    CloseWindowOk(p.win);
    MidParts(p);
    var q := CloseSegment(p);
    assert q.win == CloseWindow(p.win);
    var r := q.(inits := q.inits.(oldInits := p.inits.oldInits));
    MidUpdate(p, r);
    DropInits(r);
  }

  // ---- Opening a segment ----

  /** A segment may open at `dts`: its distance from the last one is known to be zero, measured, or flagged. */
  ghost predicate LinkedTo(p: Pkg, dts: int) {
    || Linked(p)
    || (&& p.win.segments != [] && p.lanes.primary.Some?
        && Newest(p.win).timescale == p.lanes.primary.value.timescale
        && EndTick(Flat(Newest(p.win).parts), Newest(p.win).startDts) == dts)
  }

  lemma {:induction false} OpenSegmentMid(p: Pkg, dts: int, now: int)
    requires Mid(p) && !Open(p.win) && p.cut.part == [] && p.lanes.primary.Some? && LinkedTo(p, dts)
    ensures var q := OpenSegment(p, dts, now);
            && Mid(q) && OpenOk(q) && Grows(p.win, q.win) && |All(q.win)| == |All(p.win)| + 1
            && Line(q) == [] && LastFirm(q) && Newest(q.win).startDts == dts
            && q.lanes.primary == p.lanes.primary && q.cfg == p.cfg && q.lanes.primaryIsAudio == p.lanes.primaryIsAudio
  {
    hide WindowOk, SegmentOk, Grows, MicrosAt, Ascending, PartLimit, Firm;
    var seg := NewSegment(p, dts, now);
    assert seg.msn == p.win.nextMsn && !seg.Complete();
    AppendOk(p.win, seg);
    var q := OpenSegment(p, dts, now);
    var a, b := All(p.win), All(q.win);
    NewSegmentOk(p, dts, now);
    forall i | 0 <= i < |b| - 1
      ensures Joins(b[i], b[i + 1])
    {
      if i + 1 < |a| {
        assert Joins(a[i], a[i + 1]);
        assert b[i] == a[i] && b[i + 1] == a[i + 1];
      } else {
        ListedIfAny(p.win);
        assert b[i] == a[i] == Newest(p.win) && b[i + 1] == seg;
        OpensJoined(p, dts, now);
      }
    }
    forall i | 0 <= i < |q.win.segments|
      ensures Resolves(q, q.win.segments[i])
    {
      if i < |p.win.segments| {
        assert Resolves(p, p.win.segments[i]);
        assert q.win.segments[i] == p.win.segments[i];
      }
    }
  }

  lemma {:induction false} NewSegmentOk(p: Pkg, dts: int, now: int)
    requires Wf(p) && p.lanes.primary.Some?
    ensures SegmentOk(p.cfg, NewSegment(p, dts, now))
  {}

  lemma {:induction false} OpensJoined(p: Pkg, dts: int, now: int)
    requires Mid(p) && !Open(p.win) && p.lanes.primary.Some? && LinkedTo(p, dts) && p.win.segments != []
    ensures Joins(Newest(p.win), NewSegment(p, dts, now))
  {
    hide WindowOk, SegmentsOk, Chained, InitsOk, MicrosAt;
    MidParts(p);
  }

  // ---- Closing the part and the segment ----

  /** Tracks, init segment and what is known about the next segment are the same. */
  ghost predicate SameSetup(p: Pkg, q: Pkg) {
    && q.cfg == p.cfg && q.lanes == p.lanes && q.suspended == p.suspended && q.ended == p.ended
    && q.inits.init == p.inits.init && q.inits.initGen == p.inits.initGen
    && q.cut.discontinuityNext == p.cut.discontinuityNext && q.cut.resumeFrom == p.cut.resumeFrom
  }

  lemma {:induction false} CloseBothMid(p: Pkg)
    requires Mid(p) && OpenOk(p) && p.cut.part != []
    ensures var q := CloseSegment(ClosePart(p));
            && Mid(q) && !Open(q.win) && q.cut.segStart.None? && q.cut.part == [] && Grows(p.win, q.win)
            && q.win.segments != [] && |All(q.win)| == |All(p.win)|
            && |Newest(q.win).parts| == |Newest(p.win).parts| + 1
            && Newest(q.win).timescale == p.lanes.primary.value.timescale
            && EndTick(Flat(Newest(q.win).parts), Newest(q.win).startDts) == End(p.cut.part[|p.cut.part| - 1])
    ensures var q := CloseSegment(ClosePart(p));
            SameSetup(p, q)
  {
    var c := ClosePart(p);
    ClosePartMid(p);
    LastOfLine(p);
    assert SameSetup(p, c);
    assert Line(c) == Flat(Newest(c.win).parts);
    hide Mid, Tiles, Flat, PartLimit, ClosePart, Firm, Long;
    CloseSegmentMid(c);
    GrowsTrans(p.win, c.win, CloseSegment(c).win);
  }

  /** The same closes, with the newest segment's new size read off the history. */
  lemma {:induction false} NewestInAll(w: Window, v: Window)
    requires w.segments != [] && v.segments != [] && |All(w)| == |All(v)|
    ensures All(v)[|All(w)| - 1] == Newest(v)
  {}

  // ---- Flush ----

  /** An open segment only closes together with a new part of it. */
  ghost predicate Advances(a: Window, b: Window) {
    && Grows(a, b)
    && (Open(a) && All(b)[|All(a)| - 1].Complete() ==> |Newest(a).parts| < |All(b)[|All(a)| - 1].parts|)
  }

  lemma {:induction false} FlushIdle(p: Pkg)
    requires Mid(p) && IdleOk(p) && Linked(p)
    ensures var q := Flush(p);
            && Mid(q) && IdleOk(q) && Linked(q)
            && q == p.(lanes := q.lanes, cut := q.cut) && SameButSecondary(p, q)
  {
    FlushIdleShape(p);
    hide Mid, MicrosAt, Flat, Flush, FlushSecondary, CloseSegment, ClosePart;
    MidFrame(p, Flush(p));
  }

  ghost predicate SameButSecondary(p: Pkg, q: Pkg) {
    && q.lanes == p.lanes.(secondary := q.lanes.secondary)
    && q.cut == p.cut.(queue := q.cut.queue)
  }

  lemma {:induction false} FlushIdleShape(p: Pkg)
    requires Wf(p) && IdleOk(p)
    ensures var q := Flush(p); Wf(q) && q == p.(lanes := q.lanes, cut := q.cut) && SameButSecondary(p, q)
  {
    hide FallbackDur, CommitPrimary, NewPart, PartAudio, Seal, Evict, KeepFrom;
  }

  lemma {:induction false} CommitShape(p: Pkg, s: Sample)
    requires Wf(p) && p.lanes.primary.Some?
    ensures var q := CommitPrimary(p, s);
            SameSetup(p, q) && q.inits == p.inits && q.cut.segStart == p.cut.segStart
  {
    hide PartAudio, NewPart, AddPart, Span, PartMax;
  }

  lemma {:induction false} ReleasedOk(p: Pkg)
    requires Ready(p) && Open(p.win)
    ensures var r := Released(p);
            Mid(r) && OpenOk(r) && Line(r) == Line(p) && (r.cut.part == [] ==> LastFirm(r)) && r.win == p.win
  {
    hide Tiles, Flat, PartLimit, Long, SegmentsOk, Chained, WindowOk, Ascending;
    MidFrame(p, Released(p));
  }

  lemma {:induction false} CommitHeld(p: Pkg)
    requires Ready(p) && Open(p.win)
    ensures var q := CommitPrimary(Released(p), Held(p));
            && Mid(q) && OpenOk(q) && q.cut.part != [] && Grows(p.win, q.win) && |All(q.win)| == |All(p.win)|
            && |Newest(p.win).parts| <= |Newest(q.win).parts|
            && q.cut.part[|q.cut.part| - 1] == Held(p) && SameSetup(Released(p), q)
  {
    ReleasedOk(p);
    CommitShape(Released(p), Held(p));
    hide Mid, Tiles, Flat, CommitPrimary, Long, Grows, FallbackDur, Firm, Span, PartLimit;
    CommitMid(Released(p), Held(p));
  }

  lemma {:induction false} FlushPrimaryMid(p: Pkg)
    requires Ready(p) && Open(p.win)
    ensures var q := FlushPrimary(p);
            && Mid(q) && OpenOk(q) && q.cut.part != [] && Grows(p.win, q.win) && |All(q.win)| == |All(p.win)|
            && |Newest(p.win).parts| <= |Newest(q.win).parts|
            && q.cut.resumeFrom == Some(MicrosAt(q.lanes.primary.value.timescale, End(q.cut.part[|q.cut.part| - 1])))
            && SameSetup(Resumable(Released(p), q.cut.resumeFrom.value), q)
  {
    CommitHeld(p);
    var c := CommitPrimary(Released(p), Held(p));
    var q := Resumable(c, Micros(p.lanes.primary.value, End(Held(p))));
    assert FlushPrimary(p) == q;
    hide Mid, OpenOk, CommitPrimary, FlushPrimary, MicrosAt, Grows, FallbackDur, Ready;
    FrameOk(c, q);
  }

  /** Closing what is open after the held-back frames were committed. */
  lemma {:induction false} FlushOpen(p: Pkg)
    requires Ready(p) && Open(p.win)
    ensures var q := Flush(p);
            && Mid(q) && IdleOk(q) && Linked(q) && Advances(p.win, q.win) && |All(q.win)| == |All(p.win)|
            && q.win.segments != []
            && Flushed(p, q)
  {
    hide Mid, OpenOk, Tiles, Flat, CloseSegment, ClosePart, MicrosAt, Flush, FlushPrimary, FlushSecondary, Grows, Ready;
    hide IdleOk, Linked, Advances, All, Flushed, Released, Resumable, SameSetup, SameButSecondary, Newest, Line, Wf;
    ReadyIsWf(p);
    var a := FlushPrimary(p);
    FlushIsClose(p);
    FlushPrimaryMid(p);
    SecondaryMid(a);
    FlushClose(p, a, FlushSecondary(a));
  }

  lemma {:induction false} ReadyIsWf(p: Pkg)
    requires Ready(p)
    ensures Wf(p)
  {
    hide WindowOk, SegmentsOk, Chained, InitsOk, OpenOk, IdleOk, Linked;
  }

  lemma {:induction false} FlushIsClose(p: Pkg)
    requires Ready(p) && Open(p.win)
    ensures p.lanes.primary.Some? && Flush(p) == CloseSegment(ClosePart(FlushSecondary(FlushPrimary(p))))
  {
    hide FlushPrimary, FlushSecondary, ClosePart, CloseSegment;
  }

  /** The last two steps of a flush, from what the first two left. */
  lemma {:induction false} FlushClose(p: Pkg, a: Pkg, b: Pkg)
    requires Open(p.win) && p.lanes.primary.Some?
    requires Mid(a) && OpenOk(a) && a.cut.part != [] && Grows(p.win, a.win) && |All(a.win)| == |All(p.win)|
    requires |Newest(p.win).parts| <= |Newest(a.win).parts|
    requires a.cut.resumeFrom == Some(MicrosAt(a.lanes.primary.value.timescale, End(a.cut.part[|a.cut.part| - 1])))
    requires SameSetup(Resumable(Released(p), a.cut.resumeFrom.value), a)
    requires Mid(b) && OpenOk(b) && b == a.(lanes := b.lanes, cut := b.cut) && SameButSecondary(a, b)
    ensures var q := CloseSegment(ClosePart(b));
            && Mid(q) && IdleOk(q) && Linked(q) && Advances(p.win, q.win) && |All(q.win)| == |All(p.win)|
            && q.win.segments != []
            && Flushed(p, q)
  {
    hide Mid, OpenOk, Tiles, Flat, CloseSegment, ClosePart, MicrosAt, Grows, All, Newest, Released, Resumable, Line;
    hide SameSetup, IdleOk, Linked, Advances, Flushed, Wf;
    OpenShape(b);
    CloseBothMid(b);
    var q := CloseSegment(ClosePart(b));
    ClosedAdvances(p, b, q);
    SetupOf(p, a, b, q);
    ClosedIdle(b, q);
  }

  lemma {:induction false} OpenShape(p: Pkg)
    requires Mid(p) && OpenOk(p)
    ensures Wf(p) && p.win.segments != [] && p.lanes.primary.Some? && p.lanes.primary.value.timescale > 0
  {
    hide WindowOk, SegmentsOk, Chained, InitsOk, Tiles, Flat, Firm, Long, PartLimit;
  }

  /** Closing after a flush: the history grew, and the open segment by a part. */
  lemma {:induction false} ClosedAdvances(p: Pkg, b: Pkg, q: Pkg)
    requires Open(p.win) && Grows(p.win, b.win) && |All(b.win)| == |All(p.win)| && Grows(b.win, q.win)
    requires |All(q.win)| == |All(b.win)| && q.win.segments != [] && b.win.segments != []
    requires |Newest(p.win).parts| <= |Newest(b.win).parts| && |Newest(q.win).parts| == |Newest(b.win).parts| + 1
    ensures Advances(p.win, q.win)
  {
    hide Grows, All, Newest;
    GrowsTrans(p.win, b.win, q.win);
    NewestInAll(p.win, q.win);
  }

  lemma {:induction false} SetupOf(p: Pkg, a: Pkg, b: Pkg, q: Pkg)
    requires p.lanes.primary.Some? && a.cut.resumeFrom.Some?
    requires SameSetup(Resumable(Released(p), a.cut.resumeFrom.value), a) && SameButSecondary(a, b)
    requires b == a.(lanes := b.lanes, cut := b.cut) && SameSetup(b, q)
    ensures Flushed(p, q) && q.cut.resumeFrom == a.cut.resumeFrom && q.lanes.primary == a.lanes.primary
    ensures q.lanes.primary == Some(p.lanes.primary.value.(pending := None))
  {}

  /** What the next segment needs to know about the last one is where its last frame ended. */
  lemma {:induction false} ClosedIdle(b: Pkg, q: Pkg)
    requires Mid(q) && !Open(q.win) && q.cut.segStart.None? && q.cut.part == [] && b.lanes.primary.Some?
      && b.cut.part != []
    requires q.win.segments != [] && Newest(q.win).timescale == b.lanes.primary.value.timescale
    requires EndTick(Flat(Newest(q.win).parts), Newest(q.win).startDts) == End(b.cut.part[|b.cut.part| - 1])
    requires b.lanes.primary.value.timescale > 0 && q.lanes.primary.Some? && q.lanes.primary.value.pending.None?
    requires q.cut.resumeFrom == Some(MicrosAt(b.lanes.primary.value.timescale, End(b.cut.part[|b.cut.part| - 1])))
    ensures IdleOk(q) && Linked(q)
  {
    hide Mid, MicrosAt, Flat, End, EndTick;
  }

  /** What a flush leaves as it was. */
  ghost predicate Flushed(p: Pkg, q: Pkg) {
    && q.cfg == p.cfg && q.inits.init == p.inits.init && q.inits.initGen == p.inits.initGen && q.ended == p.ended
    && q.lanes.primaryIsAudio == p.lanes.primaryIsAudio && q.cut.discontinuityNext == p.cut.discontinuityNext
    && q.lanes.primary
       == (if p.lanes.primary.Some? then Some(p.lanes.primary.value.(pending := None)) else None)
  }

  /** `Mid` and `OpenOk` do not look at the secondary track or at where the last flush ended. */
  lemma {:induction false} FrameOk(p: Pkg, q: Pkg)
    requires Mid(p) && OpenOk(p) && Wf(q)
    requires q == p.(lanes := q.lanes, cut := q.cut)
    requires q.lanes == p.lanes.(secondary := q.lanes.secondary)
    requires q.cut == p.cut.(queue := q.cut.queue, resumeFrom := q.cut.resumeFrom)
    ensures Mid(q) && OpenOk(q) && Line(q) == Line(p)
  {
    hide Tiles, Flat, Firm, Long, PartLimit, SegmentsOk, Chained, InitsOk, WindowOk, Span;
    MidFrame(p, q);
  }

  lemma {:induction false} SecondaryMid(p: Pkg)
    requires Mid(p) && OpenOk(p)
    ensures var q := FlushSecondary(p);
            && Mid(q) && OpenOk(q) && Line(q) == Line(p)
            && q == p.(lanes := q.lanes, cut := q.cut) && SameButSecondary(p, q)
  {
    FrameOk(p, FlushSecondary(p));
  }

  lemma {:induction false} FlushReady(p: Pkg)
    requires Ready(p)
    ensures var q := Flush(p);
            && Ready(q) && IdleOk(q) && Advances(p.win, q.win) && |All(q.win)| == |All(p.win)|
            && (p.win.segments != [] ==> q.win.segments != [])
            && (!Open(p.win) ==> q.win == p.win && q.cut.resumeFrom == p.cut.resumeFrom)
            && Flushed(p, q)
  {
    GrowsRefl(p.win);
    if Open(p.win) {
      FlushOpen(p);
    } else {
      FlushIdle(p);
    }
  }
}
