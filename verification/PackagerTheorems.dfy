/** What the invariant means for a player: numbering, addressing, bytes, init segments, discontinuities, sizes. */
module PackagerTheorems {
  import opened Util
  import opened Fmp4
  import opened PackagerModel
  import opened PlaylistWindow
  import opened PackagerInvariants
  import opened PackagerSteps

  // ---- Parts form a successor chain ----

  /** The coordinates of every part ever closed, in order. */
  function Coords(segments: seq<Segment>): seq<Coord> {
    if segments == [] then []
    else Coords(segments[..|segments| - 1]) + PartCoords(|segments| - 1, |segments[|segments| - 1].parts|)
  }

  function PartCoords(msn: nat, parts: nat): (c: seq<Coord>)
    ensures |c| == parts && forall i :: 0 <= i < parts ==> c[i] == (msn, i)
  {
    seq(parts, i => (msn, i))
  }

  predicate Successor(a: Coord, b: Coord) {
    b == (a.0, a.1 + 1) || b == (a.0 + 1, 0)
  }

  ghost predicate SuccessorChain(coords: seq<Coord>, next: Coord) {
    && (forall k :: 0 <= k < |coords| - 1 ==> Successor(coords[k], coords[k + 1]))
    && (if coords == [] then next == (0, 0) else coords[0] == (0, 0) && Successor(coords[|coords| - 1], next))
  }

  /** Where the next part goes, told from the history alone. */
  function NextCoord(segments: seq<Segment>): Coord {
    if segments != [] && !segments[|segments| - 1].Complete()
    then (|segments| - 1, |segments[|segments| - 1].parts|)
    else (|segments|, 0)
  }

  ghost predicate Published(segments: seq<Segment>) {
    && (forall i :: 0 <= i < |segments| - 1 ==> segments[i].Complete())
    && (forall i :: 0 <= i < |segments| && segments[i].Complete() ==> segments[i].parts != [])
  }

  lemma {:induction false} NextPartIsNextCoord(w: Window)
    requires WindowOk(w)
    ensures Published(All(w)) && NextPart(w) == NextCoord(All(w))
  {
    if All(w) != [] {
      ListedIfAny(w);
    }
  }

  lemma {:induction false} CoordsChain(segments: seq<Segment>)
    requires Published(segments)
    ensures SuccessorChain(Coords(segments), NextCoord(segments))
  {
    if segments != [] {
      var init, last := segments[..|segments| - 1], segments[|segments| - 1];
      CoordsChain(init);
      assert init != [] ==> init[|init| - 1].Complete();
      assert NextCoord(init) == (|init|, 0);
      var a, b := Coords(init), PartCoords(|init|, |last.parts|);
      var all := a + b;
      forall k | 0 <= k < |all| - 1
        ensures Successor(all[k], all[k + 1])
      {
        if k + 1 < |a| {
          assert all[k] == a[k] && all[k + 1] == a[k + 1];
        } else if k + 1 == |a| {
          assert all[k] == a[|a| - 1] && all[k + 1] == b[0];
        } else {
          assert all[k] == b[k - |a|] && all[k + 1] == b[k + 1 - |a|];
        }
      }
    }
  }

  /** What was published between two states: the older coordinates come first, and the new ones start at `next`. */
  ghost predicate Extends(older: seq<Coord>, newer: seq<Coord>, next: Coord) {
    older <= newer && (newer != older ==> newer[|older|] == next)
  }

  ghost predicate HistoryAdvances(a: seq<Segment>, b: seq<Segment>) {
    && |a| <= |b|
    && (forall i :: 0 <= i < |a| ==> SegmentGrows(a[i], b[i]))
    && (a != [] && !a[|a| - 1].Complete() && b[|a| - 1].Complete() ==> |a[|a| - 1].parts| < |b[|a| - 1].parts|)
  }

  lemma {:induction false} CoordsExtend(a: seq<Segment>, b: seq<Segment>)
    requires Published(a) && Published(b) && HistoryAdvances(a, b)
    ensures Extends(Coords(a), Coords(b), NextCoord(a))
    ensures Coords(a) == Coords(b) ==> NextCoord(a) == NextCoord(b)
    decreases |b|
  {
    if |b| > |a| {
      var c, last := b[..|b| - 1], b[|b| - 1];
      assert c != [] ==> c[|c| - 1].Complete();
      CoordsExtend(a, c);
      assert Coords(b) == Coords(c) + PartCoords(|c|, |last.parts|);
      if Coords(c) == Coords(a) {
        NoNewParts(a, c);
        if Coords(a) == Coords(b) {
          assert |PartCoords(|c|, |last.parts|)| == 0;
        }
      }
    } else if a != [] {
      SameLength(a, b);
    }
  }

  lemma {:induction false} SameLength(a: seq<Segment>, b: seq<Segment>)
    requires Published(a) && Published(b) && HistoryAdvances(a, b) && a != [] && |a| == |b|
    ensures Extends(Coords(a), Coords(b), NextCoord(a))
    ensures Coords(a) == Coords(b) ==> NextCoord(a) == NextCoord(b)
  {
    var n := |a| - 1;
    assert SegmentGrows(a[n], b[n]);
    SameInit(a, b);
    var x, y := PartCoords(n, |a[n].parts|), PartCoords(n, |b[n].parts|);
    var before := Coords(a[..n]);
    assert Coords(a) == before + x && Coords(b) == before + y;
    hide Coords, Published, SegmentGrows;
    assert y == x + y[|x|..];
    assert before + y == before + x + y[|x|..];
    if Coords(a) == Coords(b) {
      assert |x| == |y|;
    }
  }

  lemma {:induction false} SameInit(a: seq<Segment>, b: seq<Segment>)
    requires HistoryAdvances(a, b) && a != []
    requires forall i :: 0 <= i < |a| - 1 ==> a[i].Complete()
    ensures a[..|a| - 1] == b[..|a| - 1]
  {
    forall i | 0 <= i < |a| - 1
      ensures a[i] == b[i]
    {
      assert SegmentGrows(a[i], b[i]);
    }
  }

  /** If nothing new closed up to a complete segment, the history itself is complete and as long. */
  lemma {:induction false} NoNewParts(a: seq<Segment>, c: seq<Segment>)
    requires Published(a) && Published(c) && HistoryAdvances(a, c)
    requires Coords(a) == Coords(c) && (c != [] ==> c[|c| - 1].Complete())
    ensures NextCoord(a) == (|c|, 0)
  {
    CoordsChain(a);
    CoordsChain(c);
    var n := Coords(c);
    if c != [] {
      CoordsLast(c);
      if |a| < |c| {
        CoordsBelow(a);
      } else if !a[|a| - 1].Complete() {
        CountCoords(a, c);
      }
    }
  }

  lemma {:induction false} CoordsLast(c: seq<Segment>)
    requires c != [] && c[|c| - 1].parts != []
    ensures Coords(c) != [] && Coords(c)[|Coords(c)| - 1].0 == |c| - 1
  {
    var last := PartCoords(|c| - 1, |c[|c| - 1].parts|);
    assert Coords(c)[|Coords(c)| - 1] == last[|last| - 1];
  }

  lemma {:induction false} CoordsBelow(a: seq<Segment>)
    ensures forall k :: 0 <= k < |Coords(a)| ==> Coords(a)[k].0 < |a|
  {
    if a != [] {
      CoordsBelow(a[..|a| - 1]);
    }
  }

  lemma {:induction false} CountCoords(a: seq<Segment>, c: seq<Segment>)
    requires a != [] && |c| == |a| && HistoryAdvances(a, c)
    requires !a[|a| - 1].Complete() && c[|a| - 1].Complete()
    requires forall i :: 0 <= i < |a| - 1 ==> a[i].Complete()
    ensures |Coords(a)| < |Coords(c)|
  {
    SameInit(a, c);
  }

  /** In every state, the parts closed so far are numbered without gap or repetition, and `NextPart` follows them. */
  lemma {:induction false} PartsFormAChain(p: Pkg)
    requires Ready(p)
    ensures SuccessorChain(Coords(All(p.win)), NextPart(p.win))
    ensures |All(p.win)| == p.win.nextMsn && forall i :: 0 <= i < |All(p.win)| ==> All(p.win)[i].msn == i
  {
    NextPartIsNextCoord(p.win);
    CoordsChain(All(p.win));
  }

  /** Whatever the next operation is, the next part to close is the one `NextPart` names. */
  lemma {:induction false} NextPartCloses(p: Pkg, op: Op)
    requires Ready(p)
    ensures Extends(Coords(All(p.win)), Coords(All(Apply(p, op).win)), NextPart(p.win))
    ensures Coords(All(p.win)) == Coords(All(Apply(p, op).win)) ==> NextPart(Apply(p, op).win) == NextPart(p.win)
    ensures p.win.nextMsn <= Apply(p, op).win.nextMsn
  {
    hide OpenOk, Apply, MicrosAt, SegmentsOk, Chained, InitsOk;
    ApplyReady(p, op);
    HistoryOf(p, Apply(p, op));
    CoordsExtend(All(p.win), All(Apply(p, op).win));
  }

  lemma {:induction false} HistoryOf(p: Pkg, q: Pkg)
    requires WindowOk(p.win) && WindowOk(q.win) && Advances(p.win, q.win)
    ensures Published(All(p.win)) && Published(All(q.win)) && HistoryAdvances(All(p.win), All(q.win))
    ensures NextPart(p.win) == NextCoord(All(p.win)) && NextPart(q.win) == NextCoord(All(q.win))
  {
    NextPartIsNextCoord(p.win);
    NextPartIsNextCoord(q.win);
    if All(p.win) != [] {
      ListedIfAny(p.win);
    }
  }

  // ---- Segments: tiling, sizes, target ----

  /** A listed or evicted segment is one gap-free line of frames from a keyframe, cut into parts. */
  lemma {:induction false} SegmentsTile(p: Pkg, i: nat)
    requires Ready(p) && i < |All(p.win)|
    ensures var seg := All(p.win)[i];
            && Tiles(Flat(seg.parts), seg.startDts)
            && (forall j :: 0 <= j < |seg.parts| ==> |seg.parts[j].video| >= 2 ==>
                  Span(seg.parts[j].video) <= PartLimit(p.cfg, seg.timescale))
            && (seg.Complete() ==> seg.parts != [] && Round(Duration(seg.parts)) <= p.win.target)
  {
    hide Tiles, PartLimit, Firm, Duration, Round, Chained, InitsOk, OpenOk, IdleOk, Linked;
    assert SegmentOk(p.cfg, All(p.win)[i]);
  }

  /**
    With frames of at most 15% of the part target, every part that is not the last of its segment
    reaches 85% of it (section 4.4.4.9 of RFC 8216bis).
   */
  lemma {:induction false} PartsLongEnough(p: Pkg, i: nat, j: nat)
    requires Ready(p) && i < |All(p.win)| && j + 1 < |All(p.win)[i].parts|
    requires forall k, n :: 0 <= k < |All(p.win)[i].parts| && 0 <= n < |All(p.win)[i].parts[k].video| ==>
      All(p.win)[i].parts[k].video[n].dur * 100 <= 15 * PartLimit(p.cfg, All(p.win)[i].timescale)
    ensures Span(All(p.win)[i].parts[j].video) * 100 >= 85 * PartLimit(p.cfg, All(p.win)[i].timescale)
  {
    hide Tiles, PartLimit, Duration, Round, Chained, InitsOk, OpenOk, IdleOk, Linked, WindowOk, Span;
    var seg := All(p.win)[i];
    assert SegmentOk(p.cfg, seg);
    assert PartOk(seg.parts[j + 1], seg.timescale, PartLimit(p.cfg, seg.timescale));
  }

  /** `Flat` cuts at part borders: each part starts where the one before it ends. */
  lemma {:induction false} PartsMeet(p: Pkg, i: nat, j: nat)
    requires Ready(p) && i < |All(p.win)| && j + 1 < |All(p.win)[i].parts|
    ensures var parts := All(p.win)[i].parts;
            && parts[j].video != [] && parts[j + 1].video != []
            && parts[j + 1].video[0].dts == End(parts[j].video[|parts[j].video| - 1])
  {
    hide PartLimit, Duration, Round, Chained, InitsOk, OpenOk, IdleOk, Linked, WindowOk, Span, Firm, Long;
    var seg := All(p.win)[i];
    assert SegmentOk(p.cfg, seg);
    var parts := seg.parts;
    assert PartOk(parts[j], seg.timescale, PartLimit(p.cfg, seg.timescale));
    assert PartOk(parts[j + 1], seg.timescale, PartLimit(p.cfg, seg.timescale));
    FlatPrefix(parts, j);
    FlatPrefix(parts, j + 1);
    var n := |Flat(parts[..j])| + |parts[j].video|;
    assert Flat(parts)[n - 1] == parts[j].video[|parts[j].video| - 1];
    assert Flat(parts)[n] == parts[j + 1].video[0];
  }

  lemma {:induction false} FlatPrefix(parts: seq<Part>, j: nat)
    requires j < |parts|
    ensures Flat(parts[..j]) + parts[j].video <= Flat(parts)
    ensures Flat(parts[..j + 1]) == Flat(parts[..j]) + parts[j].video
  {
    var init := parts[..|parts| - 1];
    assert parts[..j + 1][..j] == parts[..j];
    if j < |init| {
      FlatPrefix(init, j);
      assert init[..j] == parts[..j] && init[j] == parts[j] && init[..j + 1] == parts[..j + 1];
    }
  }

  /** A part exceeds the target exactly when it is a single frame that is too long. */
  lemma {:induction false} PartExceedsExactly(p: Pkg, i: nat, j: nat)
    requires Ready(p) && i < |All(p.win)| && j < |All(p.win)[i].parts|
    ensures var seg := All(p.win)[i];
            var video, limit := seg.parts[j].video, PartLimit(p.cfg, seg.timescale);
            Span(video) > limit <==> |video| == 1 && video[0].dur > limit
  {
    SegmentsTile(p, i);
    hide PartLimit, WindowOk, SegmentsOk, Chained, InitsOk, OpenOk, IdleOk, Linked;
  }

  const ONE_VIDEO := Selection(Some([]), [LaneInfo(0, 90_000, false, false)])

  /** One keyframe at time zero, held back in a segment that is open and empty. */
  function OneKeyHeld(): Pkg {
    var sample := Sample(900_000, 0, 0, true, []);
    Pkg(Config(200, 1000), Lanes(Some(Lane(1, 90_000, 0, false, 900_000, Some(sample), 3000)), None, false),
      Inits(Some([]), 0, []),
        Cutter([], [], Some(900_000), Some(10_000_000), false, None, false, 0),
        Window([Segment(0, [], 0, 0, false, 0, None, 900_000, 90_000, [])], 1, 0, 1, []), false, false)
  }

  lemma {:induction false} OneKeyIsHeld()
    ensures Push(SetTracks(New(Config(200, 1000)), ONE_VIDEO), Frame(0, 0, 0, true, []), 0) == OneKeyHeld()
  {
    hide Fragment, Round, Duration, Joined;
  }

  lemma {:induction false} SecondKeyCloses()
    ensures var p := Push(OneKeyHeld(), Frame(0, 90_000, 90_000, true, []), 0);
            && All(p.win) != [] && All(p.win)[0].parts != [] && p.cfg == Config(200, 1000)
            && Span(All(p.win)[0].parts[0].video) == 90_000
  {
    hide Fragment, Round, Duration, Joined;
    var next := SampleOf(OneKeyHeld().lanes.primary.value, Frame(0, 90_000, 90_000, true, []), false);
    var part := Sample(900_000, 0, 90_000, true, []);
    assert next == Sample(990_000, 0, 0, true, []);
    var q := Settle(OneKeyHeld(), next);
    assert |q.win.segments| == 1 && q.win.segments[0].parts != [] && q.win.segments[0].parts[0].video == [part];
  }

  /** It happens: keyframes a second apart make one-second parts under a part target of 200 ms. */
  lemma {:induction false} OneFrameCanExceed()
    ensures var ops := [OpTracks(ONE_VIDEO), OpPush(Frame(0, 0, 0, true, []), 0),
                        OpPush(Frame(0, 90_000, 90_000, true, []), 0)];
            var p := Reach(Config(200, 1000), ops);
            && All(p.win) != [] && All(p.win)[0].parts != []
            && Span(All(p.win)[0].parts[0].video) == 90_000 > PartLimit(p.cfg, 90_000) == 18_000
  {
    hide SetTracks, Push, All, Span;
    var cfg := Config(200, 1000);
    var f0, f1 := Frame(0, 0, 0, true, []), Frame(0, 90_000, 90_000, true, []);
    var ops := [OpTracks(ONE_VIDEO), OpPush(f0, 0), OpPush(f1, 0)];
    assert ops[..2] == [OpTracks(ONE_VIDEO), OpPush(f0, 0)] && ops[..2][..1] == [OpTracks(ONE_VIDEO)]
      && ops[..2][..1][..0] == [];
    assert Reach(cfg, ops[..2][..1]) == SetTracks(New(cfg), ONE_VIDEO);
    assert Reach(cfg, ops[..2]) == Push(SetTracks(New(cfg), ONE_VIDEO), f0, 0);
    OneKeyIsHeld();
    SecondKeyCloses();
  }

  // ---- Init segments and discontinuities ----

  /** Ascending generations are found where they were put. */
  lemma {:induction false} FindInitIn(inits: seq<(nat, Bytes)>, generation: nat, init: Bytes, below: nat)
    requires Ascending(inits, below) && (generation, init) in inits
    ensures FindInit(inits, generation) == Some(init)
  {
    var rest := inits[1..];
    if inits[0].0 == generation {
      var k :| 0 <= k < |inits| && inits[k] == (generation, init);
    } else {
      assert (generation, init) in rest;
      FindInitIn(rest, generation, init, below);
    }
  }

  /** Every listed segment's init URI serves the init segment that was in force when it was opened. */
  lemma {:induction false} InitForListed(p: Pkg, i: nat)
    requires Ready(p) && i < |p.win.segments|
    ensures InitFor(p, p.win.segments[i].initGen) == Some(p.win.segments[i].init)
  {
    hide WindowOk, SegmentsOk, Chained, OpenOk, IdleOk, Linked, Ascending;
    var seg := p.win.segments[i];
    assert Resolves(p, seg);
    if seg.initGen != p.inits.initGen {
      FindInitIn(p.inits.oldInits, seg.initGen, seg.init, p.inits.initGen);
    }
  }

  /** While a segment is open, the init segment it remembers is the current one. */
  lemma {:induction false} OpenedUnderInit(p: Pkg)
    requires Ready(p) && Open(p.win)
    ensures p.inits.init == Some(Newest(p.win).init) && Newest(p.win).initGen == p.inits.initGen
  {
    hide WindowOk, SegmentsOk, Chained, Ascending, Tiles, LastFirm, HeldBack;
    assert Resolves(p, p.win.segments[|p.win.segments| - 1]);
  }

  /**
    Neighbouring segments, listed or not: without an `EXT-X-DISCONTINUITY` they share their init segment
    and the second starts 0 to 500 ms after the first ends.
   */
  lemma {:induction false} DiscontinuitiesAreMarked(p: Pkg, i: nat)
    requires Ready(p) && i + 1 < |All(p.win)|
    ensures var a, b := All(p.win)[i], All(p.win)[i + 1];
            !b.discontinuity ==> a.initGen == b.initGen && Follows(a, b)
  {
    hide WindowOk, SegmentsOk, OpenOk, IdleOk, Linked, InitsOk, Follows;
    assert Joins(All(p.win)[i], All(p.win)[i + 1]);
  }

  /** `EXT-X-DISCONTINUITY-SEQUENCE` plus the tags in the playlist are all the discontinuities there ever were. */
  lemma {:induction false} DiscontinuitiesAreCounted(p: Pkg)
    requires Ready(p)
    ensures p.win.discontinuitySeq + Flagged(p.win.segments) == Flagged(All(p.win))
  {
    FlaggedAdd(p.win.evicted, p.win.segments);
  }

  // ---- Requests ----

  lemma {:induction false} SegmentAtIs(w: Window, msn: nat)
    requires WindowOk(w)
    ensures SegmentAt(w, msn) == if |w.evicted| <= msn < |All(w)| then Some(All(w)[msn]) else None
  {
    if w.segments != [] {
      assert All(w)[|w.evicted|] == w.segments[0];
    }
  }

  /** Which requests find bytes, which are worth waiting for, and which are answered at once with "not found". */
  lemma {:induction false} LookUpPart(p: Pkg, msn: nat, i: nat)
    requires Ready(p)
    ensures var r := LookUp(p, msn, Some(i));
            && (r.Found? <==> |p.win.evicted| <= msn < |All(p.win)| && i < |All(p.win)[msn].parts|)
            && (r.Found? ==> r.data == All(p.win)[msn].parts[i].data)
            && (r.Pending? <==> !p.ended && (msn, i) == NextPart(p.win))
  {
    hide SegmentsOk, Chained, InitsOk, OpenOk, IdleOk, Linked, MicrosAt, Joined, Flagged, CompleteCount;
    hide Duration, Round;
    SegmentAtIs(p.win, msn);
    NextPartIsNextCoord(p.win);
    assert |All(p.win)| == p.win.nextMsn;
    assert forall k :: 0 <= k < |p.win.evicted| ==> p.win.evicted[k].Complete();
    hide WindowOk, SegmentAt, NextPart;
    AwaitedPart(p, msn, i);
  }

  lemma {:induction false} AwaitedPart(p: Pkg, msn: nat, i: nat)
    requires Published(All(p.win)) && NextPart(p.win) == NextCoord(All(p.win))
    requires forall k :: 0 <= k < |p.win.evicted| ==> p.win.evicted[k].Complete()
    ensures msn < |All(p.win)| && i >= |All(p.win)[msn].parts| ==>
              (!All(p.win)[msn].Complete() && AtMost((msn, i), NextPart(p.win)) <==> (msn, i) == NextPart(p.win))
    ensures msn >= |All(p.win)| ==> (AtMost((msn, i), NextPart(p.win)) <==> (msn, i) == NextPart(p.win))
    ensures msn < |p.win.evicted| ==> (msn, i) != NextPart(p.win)
  {}

  lemma {:induction false} LookUpSegment(p: Pkg, msn: nat)
    requires Ready(p)
    ensures var r := LookUp(p, msn, None);
            && (r.Found? <==> |p.win.evicted| <= msn < |All(p.win)| && All(p.win)[msn].Complete())
            && (r.Found? ==> r.data == Joined(All(p.win)[msn].parts))
            && (r.Pending? <==> !p.ended && msn == NextPart(p.win).0)
  {
    hide SegmentsOk, Chained, InitsOk, OpenOk, IdleOk, Linked, MicrosAt, Joined, Flagged, CompleteCount;
    hide Duration, Round;
    SegmentAtIs(p.win, msn);
    NextPartIsNextCoord(p.win);
    assert |All(p.win)| == p.win.nextMsn;
    assert forall k :: 0 <= k < |p.win.evicted| ==> p.win.evicted[k].Complete();
    assert forall k :: 0 <= k < |All(p.win)| && All(p.win)[k].Complete() ==>
      All(p.win)[k].full.value == Joined(All(p.win)[k].parts);
    hide WindowOk, SegmentAt, NextPart, LookUp, NextCoord;
    AwaitedSegment(p, msn);
    AnswerSegment(p, msn);
  }

  lemma {:induction false} AwaitedSegment(p: Pkg, msn: nat)
    requires Published(All(p.win)) && NextPart(p.win) == NextCoord(All(p.win))
    requires forall k :: 0 <= k < |p.win.evicted| ==> p.win.evicted[k].Complete()
    ensures msn < |All(p.win)| && !All(p.win)[msn].Complete() ==> msn == NextPart(p.win).0
    ensures msn < |All(p.win)| && All(p.win)[msn].Complete() ==> msn != NextPart(p.win).0
    ensures msn >= |All(p.win)| ==> (msn <= NextPart(p.win).0 <==> msn == NextPart(p.win).0)
    ensures msn < |p.win.evicted| ==> All(p.win)[msn].Complete()
  {
    assert msn < |p.win.evicted| ==> p.win.evicted[msn] == All(p.win)[msn];
  }

  lemma {:induction false} AnswerSegment(p: Pkg, msn: nat)
    requires |All(p.win)| == p.win.nextMsn
    requires SegmentAt(p.win, msn) == if |p.win.evicted| <= msn < |All(p.win)| then Some(All(p.win)[msn]) else None
    requires msn < |All(p.win)| && !All(p.win)[msn].Complete() ==> msn == NextPart(p.win).0
    requires msn < |All(p.win)| && All(p.win)[msn].Complete() ==> msn != NextPart(p.win).0
    requires msn >= |All(p.win)| ==> (msn <= NextPart(p.win).0 <==> msn == NextPart(p.win).0)
    requires msn < |p.win.evicted| ==> All(p.win)[msn].Complete()
    ensures var r := LookUp(p, msn, None);
            && (r.Found? <==> |p.win.evicted| <= msn < |All(p.win)| && All(p.win)[msn].Complete())
            && (r.Found? ==> r.data == All(p.win)[msn].full.value)
            && (r.Pending? <==> !p.ended && msn == NextPart(p.win).0)
  {
    hide SegmentAt, NextPart;
  }

  /** The bytes behind a URI never change: found once, they are found again, the same, until the segment is evicted. */
  lemma {:induction false} BytesNeverChange(p: Pkg, op: Op, msn: nat, part: Option<nat>)
    requires Ready(p) && LookUp(p, msn, part).Found?
    ensures var r := LookUp(Apply(p, op), msn, part);
            r == LookUp(p, msn, part) || msn < |Apply(p, op).win.evicted|
  {
    var q := Apply(p, op);
    ApplyReady(p, op);
    if part.Some? {
      LookUpPart(p, msn, part.value);
      LookUpPart(q, msn, part.value);
    } else {
      LookUpSegment(p, msn);
      LookUpSegment(q, msn);
    }
    hide Apply, LookUp, Ready, WindowOk, Joined;
    assert SegmentGrows(All(p.win)[msn], All(q.win)[msn]);
  }
}
