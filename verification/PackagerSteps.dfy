/** Every operation keeps the packager's invariant, and only ever adds to what was published. */
module PackagerSteps {
  import opened Util
  import opened Fmp4
  import opened PackagerModel
  import opened PlaylistWindow
  import opened PackagerInvariants

  // ---- A primary frame ----

  /** After the held-back frame was committed: what the cuts leave for the frame at `tick`. */
  ghost predicate CutTo(p: Pkg, q: Pkg, next: Sample)
    requires p.win.segments != []
  {
    && Mid(q) && Grows(p.win, q.win) && |All(q.win)| == |All(p.win)| && q.win.segments != []
    && q.lanes.primary.Some? && q.cfg == p.cfg && q.lanes.primaryIsAudio == p.lanes.primaryIsAudio
    && (if Open(q.win) then
          && OpenOk(q) && Line(q) != [] && next.dts == EndTick(Line(q), Newest(q.win).startDts)
          && (q.cut.part == [] ==> LastFirm(q))
        else
          && q.cut.segStart.None? && q.cut.part == [] && LinkedTo(q, next.dts) && (next.key || Linked(q))
          && |Newest(p.win).parts| < |Newest(q.win).parts|)
  }

  lemma {:induction false} CutShape(p: Pkg, next: Sample, d: nat)
    requires Wf(p) && p.lanes.primary.Some? && p.cut.part != []
    ensures var q := Cut(p, next, d);
            || q == p
            || (q == ClosePart(p) && (Span(p.cut.part) * 100 >= PartMax(p) * 85 || Span(p.cut.part) + d > PartMax(p)))
            || (q == CloseSegment(ClosePart(p)) && next.key)
    ensures PartMax(p) > 0
  {
    hide ClosePart, CloseSegment, Span;
  }

  lemma {:induction false} FirmByDuration(video: seq<Sample>, limit: int)
    requires video != [] && limit > 0
    requires Span(video) * 100 >= limit * 85 || Span(video) + video[|video| - 1].dur > limit
    ensures Firm(video, limit)
  {
    assert Long(video[|video| - 1], limit) || Span(video) * 100 >= limit * 85;
  }

  lemma {:induction false} CutMid(p: Pkg, next: Sample)
    requires Mid(p) && OpenOk(p) && p.cut.part != []
    requires End(p.cut.part[|p.cut.part| - 1]) == next.dts
    ensures CutTo(p, Cut(p, next, p.cut.part[|p.cut.part| - 1].dur), next)
    ensures Cut(p, next, p.cut.part[|p.cut.part| - 1].dur).lanes.primary == p.lanes.primary
  {
    var d := p.cut.part[|p.cut.part| - 1].dur;
    var q := Cut(p, next, d);
    CutShape(p, next, d);
    CutKeepsLanes(p, next, d);
    hide Mid, OpenOk, Cut, ClosePart, CloseSegment, CutTo, Span, PartMax;
    if q == CloseSegment(ClosePart(p)) {
      CutBoth(p, next);
    } else if q != p {
      CutPart(p, next);
    } else {
      CutNothing(p, next);
    }
  }

  lemma {:induction false} CutBoth(p: Pkg, next: Sample)
    requires Mid(p) && OpenOk(p) && p.cut.part != [] && End(p.cut.part[|p.cut.part| - 1]) == next.dts && next.key
    ensures CutTo(p, CloseSegment(ClosePart(p)), next)
  {
    CloseBothMid(p);
    hide Mid, Tiles, Flat, ClosePart, CloseSegment, Grows, MicrosAt;
  }

  lemma {:induction false} CutPart(p: Pkg, next: Sample)
    requires Mid(p) && OpenOk(p) && p.cut.part != [] && End(p.cut.part[|p.cut.part| - 1]) == next.dts && PartMax(p) > 0
    requires Span(p.cut.part) * 100 >= PartMax(p) * 85
      || Span(p.cut.part) + p.cut.part[|p.cut.part| - 1].dur > PartMax(p)
    ensures CutTo(p, ClosePart(p), next)
  {
    ClosePartMid(p);
    FirmByDuration(p.cut.part, PartMax(p));
    LastOfLine(p);
    hide Mid, Tiles, ClosePart, Grows, Firm, Span, Flat, PartLimit;
    assert Line(p) != [];
  }

  lemma {:induction false} CutNothing(p: Pkg, next: Sample)
    requires Mid(p) && OpenOk(p) && p.cut.part != [] && End(p.cut.part[|p.cut.part| - 1]) == next.dts
    ensures CutTo(p, p, next)
  {
    GrowsRefl(p.win);
    LastOfLine(p);
    hide Mid, Tiles, Grows, Firm, Span, Flat, PartLimit;
    assert Line(p) != [];
  }

  lemma {:induction false} MeasuredOk(p: Pkg, d: nat)
    requires Ready(p) && Open(p.win)
    ensures var r := Measured(p, d);
            Mid(r) && OpenOk(r) && Line(r) == Line(p) && (r.cut.part == [] ==> LastFirm(r)) && r.win == p.win
  {
    hide Tiles, Flat, PartLimit, Long, SegmentsOk, Chained, WindowOk, Ascending;
    MidFrame(p, Measured(p, d));
  }

  lemma {:induction false} SettleShape(p: Pkg, next: Sample)
    requires Wf(p) && p.lanes.primary.Some? && p.lanes.primary.value.pending.Some?
    ensures var s := p.lanes.primary.value.pending.value;
            var d := next.dts - s.dts;
            if Jump(p.lanes.primary.value, d) then Settle(p, next) == Restarted(Flush(p))
            else Settle(p, next) == Cut(CommitPrimary(Measured(p, d), s.(dur := d)), next, d)
  {
    hide Flush, CommitPrimary, Cut;
  }

  lemma {:induction false} RestartedOk(p: Pkg)
    requires Mid(p) && IdleOk(p) && p.win.segments != []
    ensures Mid(Restarted(p)) && IdleOk(Restarted(p)) && Linked(Restarted(p))
  {
    hide WindowOk, SegmentsOk, Chained, Ascending;
    var q := Restarted(p);
    forall i | 0 <= i < |q.win.segments|
      ensures Resolves(q, q.win.segments[i])
    {
      assert Resolves(p, p.win.segments[i]);
    }
  }

  lemma {:induction false} CutFrom(p: Pkg, c: Pkg, q: Pkg, next: Sample)
    requires p.win.segments != [] && c.win.segments != []
    requires Grows(p.win, c.win) && |All(c.win)| == |All(p.win)| && |Newest(p.win).parts| <= |Newest(c.win).parts|
    requires c.cfg == p.cfg && c.lanes.primaryIsAudio == p.lanes.primaryIsAudio
    requires CutTo(c, q, next)
    ensures CutTo(p, q, next)
  {
    hide Mid, OpenOk, Grows, LinkedTo, Linked, LastFirm;
    GrowsTrans(p.win, c.win, q.win);
  }

  lemma {:induction false} SettleJump(p: Pkg, next: Sample)
    requires Ready(p) && Open(p.win)
    ensures CutTo(p, Restarted(Flush(p)), next)
    ensures Flush(p).lanes.primary == Some(p.lanes.primary.value.(pending := None))
  {
    FlushReady(p);
    hide Flush, MicrosAt, Grows, Flat, Tiles, SegmentsOk, Chained, InitsOk, WindowOk;
    JumpCut(p, Flush(p), next);
  }

  lemma {:induction false} JumpCut(p: Pkg, q: Pkg, next: Sample)
    requires p.win.segments != [] && Open(p.win)
    requires Mid(q) && IdleOk(q) && Advances(p.win, q.win) && |All(q.win)| == |All(p.win)| && q.win.segments != []
    requires q.lanes.primary.Some? && q.cfg == p.cfg && q.lanes.primaryIsAudio == p.lanes.primaryIsAudio
    ensures CutTo(p, Restarted(q), next)
  {
    hide Mid, Grows, MicrosAt, Flat;
    NewestInAll(p.win, q.win);
    RestartedOk(q);
    assert Newest(q.win).Complete();
  }

  lemma {:induction false} CommitMeasured(p: Pkg, d: nat) returns (c: Pkg)
    requires Ready(p) && Open(p.win)
    ensures c == CommitPrimary(Measured(p, d), p.lanes.primary.value.pending.value.(dur := d))
    ensures Mid(c) && OpenOk(c) && c.cut.part != []
      && c.cut.part[|c.cut.part| - 1] == p.lanes.primary.value.pending.value.(dur := d)
    ensures Grows(p.win, c.win) && |All(c.win)| == |All(p.win)| && |Newest(p.win).parts| <= |Newest(c.win).parts|
    ensures c.cfg == p.cfg && c.lanes.primaryIsAudio == p.lanes.primaryIsAudio
      && c.lanes.primary == Measured(p, d).lanes.primary
  {
    MeasuredOk(p, d);
    c := CommitPrimary(Measured(p, d), p.lanes.primary.value.pending.value.(dur := d));
    hide Mid, Tiles, Flat, CommitPrimary, Long, Grows, Firm, Span, PartLimit;
    CommitMid(Measured(p, d), p.lanes.primary.value.pending.value.(dur := d));
  }

  lemma {:induction false} SettleStep(p: Pkg, next: Sample, d: nat)
    requires Ready(p) && Open(p.win) && p.lanes.primary.Some? && p.lanes.primary.value.pending.Some?
    requires d == next.dts - p.lanes.primary.value.pending.value.dts
    ensures var c := CommitPrimary(Measured(p, d), p.lanes.primary.value.pending.value.(dur := d));
            && CutTo(p, Cut(c, next, d), next)
            && Cut(c, next, d).lanes.primary == Measured(p, d).lanes.primary
  {
    hide Ready, Mid, OpenOk, CommitPrimary, Cut, Grows, CutTo;
    var c := CommitMeasured(p, d);
    assert p.win.segments != [];
    CutCommitted(p, c, next);
  }

  lemma {:induction false} CutCommitted(p: Pkg, c: Pkg, next: Sample)
    requires Mid(c) && OpenOk(c) && c.cut.part != [] && End(c.cut.part[|c.cut.part| - 1]) == next.dts
    requires p.win.segments != []
    requires Grows(p.win, c.win) && |All(c.win)| == |All(p.win)| && |Newest(p.win).parts| <= |Newest(c.win).parts|
    requires c.cfg == p.cfg && c.lanes.primaryIsAudio == p.lanes.primaryIsAudio
    ensures CutTo(p, Cut(c, next, c.cut.part[|c.cut.part| - 1].dur), next)
    ensures Cut(c, next, c.cut.part[|c.cut.part| - 1].dur).lanes.primary == c.lanes.primary
  {
    CutMid(c, next);
    CutFrom(p, c, Cut(c, next, c.cut.part[|c.cut.part| - 1].dur), next);
  }

  lemma {:induction false} SettleOpen(p: Pkg, next: Sample)
    requires Ready(p) && Open(p.win)
    requires Wf(p) && p.lanes.primary.Some? && p.lanes.primary.value.pending.Some?
    ensures CutTo(p, Settle(p, next), next)
    ensures Settle(p, next).lanes.primary.Some? && Settle(p, next).lanes.primary.value.pending.None?
  {
    hide Ready, Mid, OpenOk, CutTo, Settle, Flush, CommitPrimary, Cut;
    SettleShape(p, next);
    if Jump(p.lanes.primary.value, next.dts - p.lanes.primary.value.pending.value.dts) {
      SettleJump(p, next);
    } else {
      SettleStep(p, next, next.dts - p.lanes.primary.value.pending.value.dts);
    }
  }

  lemma {:induction false} SettleIdle(p: Pkg, next: Sample)
    requires Ready(p) && !Open(p.win) && p.lanes.primary.Some?
    ensures Settle(p, next) == p
  {}

  lemma {:induction false} HeldOk(p: Pkg, next: Sample)
    requires Mid(p) && OpenOk(p)
    requires next.dts == EndTick(Line(p), Newest(p.win).startDts)
    requires (Line(p) == [] ==> next.key) && (p.cut.part == [] ==> LastFirm(p))
    ensures Ready(Holding(p, next))
  {
    hide Tiles, Flat, PartLimit, Long, SegmentsOk, Chained, WindowOk, Ascending;
    MidFrame(p, Holding(p, next));
  }

  lemma {:induction false} PushPrimaryShape(p: Pkg, f: Frame, now: int)
    requires Wf(p) && p.lanes.primary.Some?
    ensures var next := SampleOf(p.lanes.primary.value, f, p.lanes.primaryIsAudio);
            var q := Settle(p, next);
            && q.lanes.primary.Some?
            && PushPrimary(p, f, now)
               == if q.cut.segStart.None? && !next.key then Waiting(q) else Hold(q, next, now)
  {
    SettleKeepsLanes(p, SampleOf(p.lanes.primary.value, f, p.lanes.primaryIsAudio));
    hide Settle, OpenSegment, SampleOf;
  }

  lemma {:induction false} WaitingOk(p: Pkg)
    requires Mid(p) && IdleOk(p) && Linked(p)
    ensures Ready(Waiting(p))
  {
    hide WindowOk, SegmentsOk, Chained, Ascending, MicrosAt, Flat;
    MidFrame(p, Waiting(p));
  }

  lemma {:induction false} HoldOpen(p: Pkg, q: Pkg, next: Sample, now: int)
    requires p.win.segments != [] && CutTo(p, q, next) && Open(q.win)
    ensures Ready(Hold(q, next, now)) && Advances(p.win, Hold(q, next, now).win)
  {
    hide Mid, Grows, LastFirm, Tiles, Flat;
    NewestInAll(p.win, q.win);
    HeldOk(q, next);
  }

  lemma {:induction false} HoldNew(q: Pkg, next: Sample, now: int)
    requires Mid(q) && !Open(q.win) && q.cut.segStart.None? && q.cut.part == [] && q.lanes.primary.Some?
      && LinkedTo(q, next.dts)
    requires next.key
    ensures Ready(Hold(q, next, now)) && Grows(q.win, Hold(q, next, now).win)
    ensures All(Hold(q, next, now).win)[..|All(q.win)|] == All(q.win)
  {
    OpenSegmentMid(q, next.dts, now);
    var r := OpenSegment(q, next.dts, now);
    assert All(r.win) == All(q.win) + [Newest(r.win)];
    hide Mid, Grows, LastFirm, Tiles, Flat, OpenSegment, LinkedTo;
    HeldOk(r, next);
  }

  lemma {:induction false} HoldClosed(p: Pkg, q: Pkg, next: Sample, now: int)
    requires p.win.segments != [] && CutTo(p, q, next) && !Open(q.win) && next.key
    ensures Ready(Hold(q, next, now)) && Advances(p.win, Hold(q, next, now).win)
  {
    assert Wf(q);
    hide Mid, Grows, Ready, OpenOk, LinkedTo, Linked, Hold;
    HoldNew(q, next, now);
    GrowsTrans(p.win, q.win, Hold(q, next, now).win);
    NewestInAll(p.win, q.win);
    assert All(Hold(q, next, now).win)[|All(p.win)| - 1] == Newest(q.win);
  }

  lemma {:induction false} PushPrimaryReady(p: Pkg, f: Frame, now: int)
    requires Ready(p) && Wf(p) && p.lanes.primary.Some?
    ensures Ready(PushPrimary(p, f, now)) && Advances(p.win, PushPrimary(p, f, now).win)
  {
    var next := SampleOf(p.lanes.primary.value, f, p.lanes.primaryIsAudio);
    PushPrimaryShape(p, f, now);
    var q := Settle(p, next);
    if Open(p.win) {
      assert p.lanes.primary.value.pending.Some?;
      hide Ready, Mid, OpenOk, CutTo, Settle, Hold, PushPrimary, SampleOf, Grows;
      SettleOpen(p, next);
      PushOpenReady(p, q, next, now);
    } else {
      SettleIdle(p, next);
      PushIdleReady(p, next, now);
    }
  }

  lemma {:induction false} PushOpenReady(p: Pkg, q: Pkg, next: Sample, now: int)
    requires p.win.segments != [] && CutTo(p, q, next)
    requires Wf(q) && q.lanes.primary.Some? && q.lanes.primary.value.pending.None?
    ensures var r := if q.cut.segStart.None? && !next.key then Waiting(q) else Hold(q, next, now);
            Ready(r) && Advances(p.win, r.win)
  {
    hide Ready, Mid, Hold, Grows, LinkedTo, Linked;
    if Open(q.win) {
      HoldOpen(p, q, next, now);
    } else if next.key {
      HoldClosed(p, q, next, now);
    } else {
      NewestInAll(p.win, q.win);
      ClosedIdle(p, q, next);
      WaitingOk(q);
    }
  }

  lemma {:induction false} ClosedIdle(p: Pkg, q: Pkg, next: Sample)
    requires p.win.segments != [] && CutTo(p, q, next) && !Open(q.win) && !next.key
    requires q.lanes.primary.Some? && q.lanes.primary.value.pending.None?
    ensures Mid(q) && IdleOk(q) && Linked(q)
  {}

  lemma {:induction false} PushIdleReady(p: Pkg, next: Sample, now: int)
    requires Ready(p) && !Open(p.win) && p.lanes.primary.Some?
    ensures var r := if p.cut.segStart.None? && !next.key then Waiting(p) else Hold(p, next, now);
            Ready(r) && Advances(p.win, r.win)
  {
    GrowsRefl(p.win);
    if next.key {
      HoldNew(p, next, now);
    } else {
      WaitingOk(p);
    }
  }

  // ---- The other operations ----

  lemma {:induction false} PushSecondaryReady(p: Pkg, f: Frame)
    requires Ready(p) && p.lanes.secondary.Some?
    ensures Ready(PushSecondary(p, f)) && PushSecondary(p, f).win == p.win
  {
    var q := PushSecondary(p, f);
    assert q == p.(lanes := q.lanes, cut := q.cut) && SameButSecondary(p, q) && Wf(q);
    hide PushSecondary, Tiles, Flat, PartLimit, Long, SegmentsOk, Chained, WindowOk, InitsOk;
    MidFrame(p, q);
    assert Open(p.win) ==> Line(q) == Line(p);
  }

  /** The state after a flush, with what concerns the next segment set anew. */
  lemma {:induction false} IdleReset(p: Pkg, q: Pkg)
    requires Mid(p) && IdleOk(p) && Linked(p) && Wf(q)
    requires q.win == p.win && q.cfg == p.cfg && q.inits.init == p.inits.init && q.inits.initGen == p.inits.initGen
      && q.inits.oldInits == p.inits.oldInits
    requires q.lanes.primary == p.lanes.primary && q.cut.part == [] && q.cut.segStart.None?
    requires || (q.cut.discontinuityNext == p.cut.discontinuityNext && q.cut.resumeFrom == p.cut.resumeFrom)
             || q.cut.discontinuityNext == (p.win.segments != [])
    ensures Ready(q)
  {
    hide WindowOk, SegmentsOk, Chained, Ascending, MicrosAt, Flat;
    forall i | 0 <= i < |q.win.segments|
      ensures Resolves(q, q.win.segments[i])
    {
      assert Resolves(p, p.win.segments[i]);
    }
  }

  lemma {:induction false} RetrackReady(q: Pkg, sel: Selection)
    requires Ready(q) && IdleOk(q)
    ensures Ready(Retrack(q, sel)) && Retrack(q, sel).win == q.win
  {
    RetrackInits(q, sel);
    RetrackShape(q, sel);
    hide WindowOk, SegmentsOk, Chained, InitsOk, Retrack, LanesOf, RotateInits;
  }

  lemma {:induction false} RetrackShape(q: Pkg, sel: Selection)
    requires Wf(q) && q.cut.part == []
    ensures var r := Retrack(q, sel);
            && r.win == q.win && r.cfg == q.cfg && r.cut.segStart == q.cut.segStart && r.cut.part == []
            && r.inits.initGen >= q.inits.initGen && (q.win.segments != [] ==> r.cut.discontinuityNext)
            && (r.lanes.primary.Some? ==> r.lanes.primary.value.pending.None?)
  {}

  /** The init segments of everything listed are kept when the tracks change. */
  lemma {:induction false} RetrackInits(q: Pkg, sel: Selection)
    requires Wf(q) && q.cut.part == [] && InitsOk(q)
    ensures InitsOk(Retrack(q, sel))
  {
    var r := Retrack(q, sel);
    if sel.init != q.inits.init && q.win.segments != [] && q.inits.init.Some? {
      assert r.inits.oldInits == q.inits.oldInits + [(q.inits.initGen, q.inits.init.value)];
      assert forall x :: x in q.inits.oldInits ==> x in r.inits.oldInits;
      assert (q.inits.initGen, q.inits.init.value) in r.inits.oldInits;
    }
    forall i | 0 <= i < |r.win.segments|
      ensures Resolves(r, r.win.segments[i])
    {
      assert Resolves(q, q.win.segments[i]);
    }
  }

  lemma {:induction false} SetTracksReady(p: Pkg, sel: Selection)
    requires Ready(p)
    ensures Ready(SetTracks(p, sel)) && Advances(p.win, SetTracks(p, sel).win)
  {
    GrowsRefl(p.win);
    if !Unchanged(p, sel) {
      FlushReady(p);
      FlushEmpties(p);
      hide Ready, Grows, Flush, Retrack;
      RetrackReady(Flush(p), sel);
    }
  }

  lemma {:induction false} ResetReady(p: Pkg)
    requires Ready(p)
    ensures Ready(Lagged(p)) && Advances(p.win, Lagged(p).win)
    ensures Ready(Finish(p)) && Advances(p.win, Finish(p).win)
    ensures Ready(Suspend(p)) && Advances(p.win, Suspend(p).win)
    ensures Ready(Resume(p)) && Advances(p.win, Resume(p).win)
  {
    FlushReady(p);
    var q := Flush(p);
    assert Mid(q) && IdleOk(q) && Linked(q) && Wf(q);
    hide Mid, Ready, Flush, Grows, MicrosAt, Flat;
    IdleReset(q, Lagged(p));
    IdleReset(q, Finish(p));
    IdleReset(q, Suspend(p));
    IdleReset(q, Resume(p));
  }

  lemma {:induction false} PushReady(p: Pkg, f: Frame, now: int)
    requires Ready(p)
    ensures Ready(Push(p, f, now)) && Advances(p.win, Push(p, f, now).win)
  {
    GrowsRefl(p.win);
    assert Wf(p);
    hide Mid, OpenOk, Grows, PushPrimary, PushSecondary;
    if !p.ended && p.lanes.primary.Some? && p.lanes.primary.value.coreId == f.track {
      PushPrimaryReady(p, f, now);
    } else if !p.ended && p.lanes.secondary.Some? && p.lanes.secondary.value.coreId == f.track {
      PushSecondaryReady(p, f);
    }
  }

  /** Every operation, in any state the invariant allows. */
  lemma {:induction false} ApplyReady(p: Pkg, op: Op)
    requires Ready(p)
    ensures Ready(Apply(p, op)) && Advances(p.win, Apply(p, op).win)
  {
    hide Mid, OpenOk, Grows, SetTracks, Push, Lagged, Suspend, Resume, Finish, Ready;
    match op
    case OpTracks(sel) => SetTracksReady(p, sel);
    case OpPush(f, now) => PushReady(p, f, now);
    case _ => ResetReady(p);
  }

  lemma {:induction false} NewReady(cfg: Config)
    ensures Ready(New(cfg))
  {
    hide Duration, Joined, Flat, MicrosAt;
  }

  /** The invariant holds after every sequence of operations. */
  lemma {:induction false} ReachReady(cfg: Config, ops: seq<Op>)
    ensures Ready(Reach(cfg, ops))
  {
    hide Ready, Apply;
    if ops == [] {
      NewReady(cfg);
    } else {
      ReachReady(cfg, ops[..|ops| - 1]);
      ApplyReady(Reach(cfg, ops[..|ops| - 1]), ops[|ops| - 1]);
    }
  }
}
