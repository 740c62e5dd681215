/** What every operation keeps about the listed segments: numbering, completeness, sizes, counters. */
module PlaylistWindow {
  import opened Util
  import opened Fmp4
  import opened PackagerModel

  /** Every segment there ever was, oldest first. */
  function All(w: Window): seq<Segment> {
    w.evicted + w.segments
  }

  function Newest(w: Window): Segment
    requires w.segments != []
  {
    w.segments[|w.segments| - 1]
  }

  ghost predicate Numbered(w: Window) {
    && |All(w)| == w.nextMsn
    && forall i :: 0 <= i < |All(w)| ==> All(w)[i].msn == i
  }

  /** Complete segments hold their parts, concatenated; only the newest can be incomplete. */
  ghost predicate Sealed(w: Window) {
    && (forall i :: 0 <= i < |All(w)| && All(w)[i].Complete() ==>
          All(w)[i].parts != [] && All(w)[i].full.value == Joined(All(w)[i].parts))
    && (forall i :: 0 <= i < |All(w)| - 1 ==> All(w)[i].Complete())
    && (forall i :: 0 <= i < |w.evicted| ==> w.evicted[i].Complete())
  }

  /** The discontinuities that left the window are exactly the ones counted. */
  ghost predicate Counted(w: Window) {
    && w.discontinuitySeq == Flagged(w.evicted)
    && CompleteCount(w.segments) <= WINDOW
    && (w.evicted != [] ==> CompleteCount(w.segments) == WINDOW)
  }

  ghost predicate WithinTarget(w: Window) {
    forall i :: 0 <= i < |All(w)| && All(w)[i].Complete() ==> Round(Duration(All(w)[i].parts)) <= w.target
  }

  ghost predicate WindowOk(w: Window) {
    Numbered(w) && Sealed(w) && Counted(w) && WithinTarget(w)
  }

  // ---- How the history may change ----

  /** `b` is `a` later: the same segment, with more parts or completed. */
  ghost predicate SegmentGrows(a: Segment, b: Segment) {
    && b == a.(parts := b.parts, full := b.full)
    && a.parts <= b.parts
    && (a.Complete() ==> a == b)
  }

  ghost predicate Grows(a: Window, b: Window) {
    && |All(a)| <= |All(b)|
    && (forall i :: 0 <= i < |All(a)| ==> SegmentGrows(All(a)[i], All(b)[i]))
    && a.nextMsn <= b.nextMsn && a.target <= b.target && a.discontinuitySeq <= b.discontinuitySeq
    && a.evicted <= b.evicted
  }

  lemma {:induction false} GrowsTrans(a: Window, b: Window, c: Window)
    requires Grows(a, b) && Grows(b, c)
    ensures Grows(a, c)
  {
    forall i | 0 <= i < |All(a)|
      ensures SegmentGrows(All(a)[i], All(c)[i])
    {
      assert SegmentGrows(All(a)[i], All(b)[i]) && SegmentGrows(All(b)[i], All(c)[i]);
    }
  }

  // ---- Counting lemmas ----

  lemma {:induction false} CompleteCountSnoc(segments: seq<Segment>, s: Segment)
    ensures CompleteCount(segments + [s]) == CompleteCount(segments) + if s.Complete() then 1 else 0
  {
    if segments != [] {
      CompleteCountSnoc(segments[1..], s);
      assert (segments + [s])[0] == segments[0] && (segments + [s])[1..] == segments[1..] + [s];
    }
  }

  lemma {:induction false} AllComplete(segments: seq<Segment>)
    requires forall i :: 0 <= i < |segments| ==> segments[i].Complete()
    ensures CompleteCount(segments) == |segments|
  {
    if segments != [] {
      AllComplete(segments[1..]);
    }
  }

  lemma {:induction false} FlaggedAdd(a: seq<Segment>, b: seq<Segment>)
    ensures Flagged(a + b) == Flagged(a) + Flagged(b)
  {
    if a == [] {
      assert a + b == b;
    } else {
      FlaggedAdd(a[1..], b);
      assert (a + b)[0] == a[0] && (a + b)[1..] == a[1..] + b;
    }
  }

  lemma {:induction false} ExcessIs(segments: seq<Segment>)
    requires forall i :: 0 <= i < |segments| ==> segments[i].Complete()
    ensures Excess(segments) == if |segments| > WINDOW then |segments| - WINDOW else 0
    decreases |segments|
  {
    AllComplete(segments);
    if segments != [] && |segments| > WINDOW {
      ExcessIs(segments[1..]);
    }
  }

  // ---- The three changes to the window ----

  lemma {:induction false} AddPartOk(w: Window, part: Part)
    requires WindowOk(w) && Open(w)
    ensures var v := AddPart(w, part);
            && WindowOk(v) && Open(v) && Grows(w, v)
            && Newest(v) == Newest(w).(parts := Newest(w).parts + [part])
            && All(v) == All(w)[..|All(w)| - 1] + [Newest(v)]
            && v.segments == w.segments[..|w.segments| - 1] + [Newest(v)] && v.evicted == w.evicted
  {
    hide Joined, Duration, Round, Flagged, CompleteCount;
    var v := AddPart(w, part);
    var last := |w.segments| - 1;
    assert w.segments == w.segments[..last] + [w.segments[last]];
    CompleteCountSnoc(w.segments[..last], w.segments[last]);
    assert v.segments == w.segments[..last] + [Newest(v)] && Newest(v) == Newest(w).(parts := Newest(w).parts + [part]);
    CompleteCountSnoc(w.segments[..last], Newest(v));
    SameButLast(w, v);
  }

  lemma {:induction false} SameButLast(w: Window, v: Window)
    requires w.segments != [] && |v.segments| == |w.segments| && v.evicted == w.evicted
    requires v.segments == w.segments[..|w.segments| - 1] + [Newest(v)]
    ensures All(v) == All(w)[..|All(w)| - 1] + [Newest(v)]
    ensures |All(w)| == |All(v)| && All(w)[|All(w)| - 1] == Newest(w) && All(v)[|All(w)| - 1] == Newest(v)
    ensures forall i :: 0 <= i < |All(w)| - 1 ==> All(v)[i] == All(w)[i]
  {}

  lemma {:induction false} SealOk(w: Window)
    requires WindowOk(w) && Open(w) && Newest(w).parts != []
    ensures var v := Seal(w);
            && Numbered(v) && Sealed(v) && WithinTarget(v) && Grows(w, v)
            && (forall i :: 0 <= i < |v.segments| ==> v.segments[i].Complete())
            && Newest(v) == Newest(w).(full := Some(Joined(Newest(w).parts)))
            && All(v) == All(w)[..|All(w)| - 1] + [Newest(v)]
            && v.evicted == w.evicted && |v.segments| == |w.segments|
            && |v.segments| <= WINDOW + 1 && (v.evicted != [] ==> |v.segments| == WINDOW + 1)
  {
    hide Joined, Duration, Round, Flagged, CompleteCount;
    SealShape(w);
    SealCounts(w);
    hide Seal;
    SealKeeps(w, Seal(w));
  }

  lemma {:induction false} SealShape(w: Window)
    requires Open(w)
    ensures var v := Seal(w);
            && v.segments == w.segments[..|w.segments| - 1] + [Newest(v)] && v.evicted == w.evicted
            && |v.segments| == |w.segments| && v.nextMsn == w.nextMsn && v.discontinuitySeq == w.discontinuitySeq
            && Newest(v) == Newest(w).(full := Some(Joined(Newest(w).parts)))
            && v.target == Max(w.target, Round(Duration(Newest(w).parts)))
  {
    hide Joined, Duration, Round;
  }

  lemma {:induction false} SealCounts(w: Window)
    requires WindowOk(w) && Open(w)
    ensures var v := Seal(w);
            && (forall i :: 0 <= i < |v.segments| ==> v.segments[i].Complete())
            && |v.segments| <= WINDOW + 1 && (v.evicted != [] ==> |v.segments| == WINDOW + 1)
  {
    hide Joined, Duration, Round, Flagged, CompleteCount;
    var last := |w.segments| - 1;
    assert w.segments == w.segments[..last] + [w.segments[last]];
    CompleteCountSnoc(w.segments[..last], w.segments[last]);
    assert forall i :: 0 <= i < last ==> w.segments[i] == All(w)[|w.evicted| + i];
    AllComplete(w.segments[..last]);
  }

  lemma {:induction false} SealKeeps(w: Window, v: Window)
    requires WindowOk(w) && Open(w) && Newest(w).parts != []
    requires v.segments != [] && v.segments == w.segments[..|w.segments| - 1] + [Newest(v)] && v.evicted == w.evicted
    requires |v.segments| == |w.segments| && v.nextMsn == w.nextMsn && v.discontinuitySeq == w.discontinuitySeq
    requires Newest(v) == Newest(w).(full := Some(Joined(Newest(w).parts)))
    requires v.target == Max(w.target, Round(Duration(Newest(w).parts)))
    ensures Numbered(v) && Sealed(v) && WithinTarget(v) && Grows(w, v)
    ensures All(v) == All(w)[..|All(w)| - 1] + [Newest(v)]
  {
    hide Joined, Duration, Round, Flagged, CompleteCount;
    SameButLast(w, v);
  }

  lemma {:induction false} EvictOk(w: Window)
    requires Numbered(w) && Sealed(w) && WithinTarget(w) && w.discontinuitySeq == Flagged(w.evicted)
    requires w.segments != [] && forall i :: 0 <= i < |w.segments| ==> w.segments[i].Complete()
    requires |w.segments| <= WINDOW + 1 && (w.evicted != [] ==> |w.segments| == WINDOW + 1)
    ensures var v := Evict(w);
            && WindowOk(v) && Grows(w, v) && !Open(v) && All(v) == All(w)
            && v.segments != [] && Newest(v) == Newest(w)
            && v.segments == w.segments[|w.segments| - |v.segments|..]
  {
    hide Joined, Duration, Round, Flagged, CompleteCount, Excess;
    var v := Evict(w);
    ExcessIs(w.segments);
    var n := Excess(w.segments);
    assert w.segments == w.segments[..n] + w.segments[n..];
    assert All(v) == All(w);
    AllComplete(v.segments);
    FlaggedAdd(w.evicted, w.segments[..n]);
    forall i | 0 <= i < |v.evicted|
      ensures v.evicted[i].Complete()
    {
      if i >= |w.evicted| {
        assert v.evicted[i] == w.segments[i - |w.evicted|];
      }
    }
  }

  lemma {:induction false} CloseWindowOk(w: Window)
    requires WindowOk(w) && !Empty(w)
    ensures var v := CloseWindow(w);
            && WindowOk(v) && !Open(v) && Grows(w, v)
            && |All(v)| == |All(w)|
            && (w.segments != [] ==> v.segments != [])
            && (Open(w) ==> Newest(v) == Newest(w).(full := Some(Joined(Newest(w).parts))))
            && (Open(w) ==> All(v) == All(w)[..|All(w)| - 1] + [Newest(v)])
            && (Open(w) ==> |v.segments| <= |w.segments|)
            && (!Open(w) ==> v == w)
  {
    if Open(w) {
      hide Joined, Duration, Round, Evict;
      SealOk(w);
      var s := Seal(w);
      EvictOk(s);
      GrowsTrans(w, s, Evict(s));
    }
  }

  lemma {:induction false} AppendOk(w: Window, seg: Segment)
    requires WindowOk(w) && !Open(w)
    requires seg.msn == w.nextMsn && !seg.Complete()
    ensures var v := w.(segments := w.segments + [seg], nextMsn := w.nextMsn + 1);
            && WindowOk(v) && Open(v) && Grows(w, v) && Newest(v) == seg
            && All(v) == All(w) + [seg]
  {
    hide Joined, Duration, Round, Flagged, CompleteCount;
    var v := w.(segments := w.segments + [seg], nextMsn := w.nextMsn + 1);
    assert All(v) == All(w) + [seg];
    CompleteCountSnoc(w.segments, seg);
    assert w.segments != [] ==> All(w)[|All(w)| - 1] == Newest(w);
    NewestLast(w, v, seg);
  }

  lemma {:induction false} NewestLast(w: Window, v: Window, seg: Segment)
    requires v.evicted == w.evicted && All(v) == All(w) + [seg] && v.nextMsn == w.nextMsn + 1 && v.target == w.target
    requires v.discontinuitySeq == w.discontinuitySeq
    ensures Grows(w, v)
  {}

  /** Something is always listed once anything ever was. */
  lemma {:induction false} ListedIfAny(w: Window)
    requires WindowOk(w) && All(w) != []
    ensures w.segments != [] && All(w)[|All(w)| - 1] == Newest(w)
  {}
}
