/** The packager as the object the live task drives; every method is proved equal to the model's step. */
module Packager {
  import opened Util
  import opened Fmp4
  import M = PackagerModel

  class Packager {
    const cfg: M.Config
    var lanes: M.Lanes
    var inits: M.Inits
    var cut: M.Cutter
    var win: M.Window
    var suspended: bool
    var ended: bool

    function State(): M.Pkg
      reads this
    {
      M.Pkg(cfg, lanes, inits, cut, win, suspended, ended)
    }

    constructor (cfg: M.Config)
      ensures State() == M.New(cfg)
    {
      this.cfg := cfg;
      lanes := M.Lanes(None, None, false);
      inits := M.Inits(None, 0, []);
      cut := M.Cutter([], [], None, None, true, None, false, 0);
      win := M.Window([], 0, 0, Max(CeilDiv(cfg.segmentMs, 1000), 1), []);
      suspended, ended := false, false;
    }

    /** Splits the queue: the audio that starts before `endMicros`, and the rest. */
    method TakeAudio(lane: M.Lane, endMicros: int) returns (audio: seq<Sample>, rest: seq<Sample>)
      requires lane.timescale > 0
      ensures (audio, rest) == M.TakeAudio(lane, cut.queue, endMicros, cut.floor)
    {
      hide M.MicrosAt;
      audio, rest := [], cut.queue;
      ghost var whole := M.TakeAudio(lane, cut.queue, endMicros, cut.floor);
      assert audio + whole.0 == whole.0;
      while rest != [] && M.Micros(lane, rest[0].dts) < endMicros
        invariant var tail := M.TakeAudio(lane, rest, endMicros, cut.floor);
                  whole == (audio + tail.0, tail.1)
        decreases |rest|
      {
        var s := rest[0];
        ghost var tail := M.TakeAudio(lane, rest[1..], endMicros, cut.floor);
        rest := rest[1..];
        if !M.BelowFloor(lane, s, cut.floor) {
          assert audio + ([s] + tail.0) == audio + [s] + tail.0;
          audio := audio + [s];
        }
      }
      assert audio + [] == audio;
    }

    method EncodePart(sequence: nat, audio: seq<Sample>) returns (closed: M.Part)
      requires M.Wf(State()) && cut.part != []
      ensures closed == M.NewPart(State(), sequence, audio)
    {
      hide Fragment, M.Span;
      var part := cut.part;
      var runs := [Run(lanes.primary.value.trackId, part)];
      if lanes.secondary.Some? {
        runs := runs + [Run(lanes.secondary.value.trackId, audio)];
      }
      assert runs == M.Runs(State(), audio);
      var data := WriteFragment(sequence, runs);
      closed := M.Part(M.Span(part) as real / lanes.primary.value.timescale as real, part[0].key, data, part, audio);
    }

    /** The audio that goes into the part now closed, and what stays queued. */
    method AudioOfPart() returns (audio: seq<Sample>, rest: seq<Sample>)
      requires M.Wf(State()) && cut.part != []
      ensures (audio, rest) == M.PartAudio(State())
    {
      hide M.TakeAudio, M.MicrosAt;
      audio, rest := [], cut.queue;
      if lanes.secondary.Some? {
        var end := M.End(cut.part[|cut.part| - 1]);
        audio, rest := TakeAudio(lanes.secondary.value, M.Micros(lanes.primary.value, end));
      }
    }

    method ClosePart()
      requires M.Wf(State())
      modifies this`cut, this`win
      ensures State() == M.ClosePart(old(State()))
    {
      if cut.part == [] {
        return;
      }
      hide M.TakeAudio, M.MicrosAt, M.NewPart, M.PartAudio, M.Wf;
      var audio, rest := AudioOfPart();
      var sequence := (cut.fragmentSeq + 1) % 0x1_0000_0000;
      var closed := EncodePart(sequence, audio);
      cut := cut.(part := [], queue := rest, floor := None, fragmentSeq := sequence);
      var segments := win.segments;
      if segments != [] && !segments[|segments| - 1].Complete() {
        var last := |segments| - 1;
        win := win.(segments := segments[..last] + [segments[last].(parts := segments[last].parts + [closed])]);
      }
    }

    method CommitPrimary(s: Sample)
      requires M.Wf(State()) && lanes.primary.Some?
      modifies this`cut, this`win
      ensures State() == M.CommitPrimary(old(State()), s)
    {
      hide M.ClosePart;
      if cut.part != [] && M.End(s) - cut.part[0].dts > M.PartLimit(cfg, lanes.primary.value.timescale) {
        ClosePart();
      }
      cut := cut.(part := cut.part + [s]);
    }

    /** All the parts' bytes, and every part as a view into them. */
    method Concatenate(parts: seq<M.Part>) returns (full: Bytes, views: seq<M.Part>)
      ensures full == M.Joined(parts) && views == parts
    {
      full := [];
      for i := 0 to |parts|
        invariant full == M.Joined(parts[..i])
      {
        assert parts[..i + 1][..i] == parts[..i];
        full := full + parts[i].data;
      }
      assert parts[..|parts|] == parts;
      views := [];
      var at := 0;
      for i := 0 to |parts|
        invariant at == |M.Joined(parts[..i])| && at <= |full|
        invariant views == parts[..i]
      {
        var len := |parts[i].data|;
        JoinedSlice(parts, i);
        assert parts[..i + 1][..i] == parts[..i];
        views := views + [parts[i].(data := full[at..at + len])];
        at := at + len;
      }
    }

    method TotalDuration(parts: seq<M.Part>) returns (d: real)
      ensures d == M.Duration(parts)
    {
      d := 0.0;
      for i := 0 to |parts|
        invariant d == M.Duration(parts[..i])
      {
        assert parts[..i + 1][..i] == parts[..i];
        d := d + parts[i].duration;
      }
      assert parts[..|parts|] == parts;
    }

    /** What is left of the window after eviction, and how many of the dropped segments were discontinuities. */
    method EvictOldest(window: seq<M.Segment>) returns (rest: seq<M.Segment>, flagged: nat)
      ensures rest == window[M.Excess(window)..] && flagged == M.Flagged(window[..M.Excess(window)])
    {
      rest, flagged := window, 0;
      ghost var n := 0;
      while rest != [] && M.CompleteCount(rest) > M.WINDOW
        invariant n <= |window| && rest == window[n..] && flagged == M.Flagged(window[..n])
        invariant M.Excess(window) == n + M.Excess(rest)
        decreases |rest|
      {
        assert window[..n + 1] == window[..n] + [rest[0]];
        FlaggedSnoc(window[..n], rest[0]);
        if rest[0].discontinuity {
          flagged := flagged + 1;
        }
        rest := rest[1..];
        n := n + 1;
      }
    }

    method RetainInits(first: nat) returns (kept: seq<(nat, Bytes)>)
      ensures kept == M.KeepFrom(inits.oldInits, first)
    {
      kept := [];
      var all := inits.oldInits;
      for i := 0 to |all|
        invariant M.KeepFrom(all, first) == kept + M.KeepFrom(all[i..], first)
      {
        assert all[i..][1..] == all[i + 1..];
        if all[i].0 >= first {
          kept := kept + [all[i]];
        }
      }
    }

    /** The open segment becomes complete, and the oldest ones leave the window. */
    method SealAndEvict()
      requires win.segments != []
      modifies this`win
      ensures win == M.Evict(M.Seal(old(win)))
    {
      hide M.Joined, M.Duration, M.Round, M.Excess, M.Flagged;
      var last := |win.segments| - 1;
      var seg := win.segments[last];
      var full, views := Concatenate(seg.parts);
      var duration := TotalDuration(seg.parts);
      var window := win.segments[..last] + [seg.(parts := views, full := Some(full))];
      var rest, flagged := EvictOldest(window);
      var gone := window[..|window| - |rest|];
      win := win.(segments := rest, discontinuitySeq := win.discontinuitySeq + flagged,
                  target := Max(win.target, M.Round(duration)), evicted := win.evicted + gone);
    }

    method CloseSegment()
      requires M.Wf(State())
      modifies this`cut, this`win, this`inits
      ensures State() == M.CloseSegment(old(State()))
    {
      hide M.Seal, M.Evict, M.KeepFrom;
      cut := cut.(segStart := None);
      var segments := win.segments;
      if segments != [] && !segments[|segments| - 1].Complete() {
        if segments[|segments| - 1].parts == [] {
          win := win.(segments := segments[..|segments| - 1], nextMsn := Max(win.nextMsn, 1) - 1);
        } else {
          SealAndEvict();
          var kept := RetainInits(if win.segments == [] then inits.initGen else win.segments[0].initGen);
          inits := inits.(oldInits := kept);
        }
      }
    }

    method OpenSegment(dts: int, now: int)
      requires M.Wf(State()) && lanes.primary.Some?
      modifies this`cut, this`win
      ensures State() == M.OpenSegment(old(State()), dts, now)
    {
      hide M.MicrosAt;
      var lane := lanes.primary.value;
      var start := M.Micros(lane, dts);
      var discontinuity := cut.discontinuityNext;
      if cut.resumeFrom.Some? {
        var gap := start - cut.resumeFrom.value;
        if !(0 <= gap <= M.GAP_MICROS) && win.segments != [] {
          discontinuity := true;
        }
      }
      var seg := M.Segment(win.nextMsn, [], now, M.Micros(lane, dts - lane.shift), discontinuity, inits.initGen, None,
                           dts, lane.timescale, if inits.init.Some? then inits.init.value else []);
      cut := cut.(discontinuityNext := false, resumeFrom := None);
      if cut.waitingKey {
        cut := cut.(floor := Some(start), waitingKey := false);
      }
      cut := cut.(segStart := Some(dts));
      win := win.(segments := win.segments + [seg], nextMsn := win.nextMsn + 1);
    }

    /**
      Nothing stays open: frames still waiting for a successor go in on a fallback duration, then part and segment
      end.
     */
    method Flush()
      requires M.Wf(State())
      modifies this`lanes, this`cut, this`win, this`inits
      ensures State() == M.Flush(old(State()))
    {
      hide M.CommitPrimary, M.ClosePart, M.CloseSegment, M.FallbackDur, M.MicrosAt;
      if lanes.primary.Some? && lanes.primary.value.pending.Some? {
        var lane := lanes.primary.value;
        var s := lane.pending.value.(dur := M.FallbackDur(lane, lane.pending.value.data));
        lanes := lanes.(primary := Some(lane.(pending := None)));
        CommitPrimary(s);
        cut := cut.(resumeFrom := Some(M.Micros(lane, M.End(s))));
      }
      if lanes.secondary.Some? && lanes.secondary.value.pending.Some? {
        var lane := lanes.secondary.value;
        var s := lane.pending.value.(dur := M.FallbackDur(lane, lane.pending.value.data));
        lanes := lanes.(secondary := Some(lane.(pending := None)));
        cut := cut.(queue := cut.queue + [s]);
      }
      ClosePart();
      CloseSegment();
    }

    /** The cuts before frame `next`, once the frame before it was committed with duration `d`. */
    method Cut(next: Sample, d: nat)
      requires M.Wf(State()) && lanes.primary.Some?
      modifies this`cut, this`win, this`inits
      ensures State() == M.Cut(old(State()), next, d)
    {
      hide M.ClosePart, M.CloseSegment, M.Span;
      var timescale := lanes.primary.value.timescale;
      var limit := M.PartLimit(cfg, timescale);
      var segLen := next.dts - (if cut.segStart.Some? then cut.segStart.value else next.dts);
      if next.key && segLen >= cfg.segmentMs * timescale / 1000 {
        ClosePart();
        CloseSegment();
      } else if next.key && !lanes.primaryIsAudio && cut.part != [] {
        var longEnough := M.Span(cut.part) * 100 >= limit * 85;
        ClosePart();
        if !longEnough {
          CloseSegment();
        }
      } else if cut.part != [] && M.Span(cut.part) + d > limit {
        ClosePart();
      }
    }

    /** The held-back frame gets its duration, and what must end before frame `next` ends. */
    method Settle(next: Sample)
      requires M.Wf(State()) && lanes.primary.Some?
      modifies this`lanes, this`cut, this`win, this`inits
      ensures State() == M.Settle(old(State()), next)
    {
      hide M.Flush, M.CommitPrimary, M.Cut;
      var lane := lanes.primary.value;
      if lane.pending.Some? {
        var d := next.dts - lane.pending.value.dts;
        if M.Jump(lane, d) {
          Flush();
          cut := cut.(discontinuityNext := win.segments != [], waitingKey := true);
        } else {
          var s := lane.pending.value.(dur := d);
          lanes := lanes.(primary := Some(lane.(pending := None, lastDur := d)));
          M.CommitKeepsLanes(State(), s);
          CommitPrimary(s);
          Cut(next, d);
        }
      }
    }

    method PushPrimary(f: M.Frame, now: int)
      requires M.Wf(State()) && lanes.primary.Some?
      modifies this`lanes, this`cut, this`win, this`inits
      ensures State() == M.PushPrimary(old(State()), f, now)
    {
      hide M.Settle, M.OpenSegment, M.SampleOf;
      var next := M.SampleOf(lanes.primary.value, f, lanes.primaryIsAudio);
      M.SettleKeepsLanes(State(), next);
      Settle(next);
      if cut.segStart.None? {
        if !next.key {
          cut := cut.(waitingKey := true);
          return;
        }
        OpenSegment(next.dts, now);
      }
      lanes := lanes.(primary := Some(lanes.primary.value.(pending := Some(next))));
    }

    /** Without a segment to go into, only a short tail of the audio is kept. */
    method Trimmed(queue: seq<Sample>) returns (tail: seq<Sample>)
      ensures tail == M.Tail(queue)
    {
      tail := queue;
      while |tail| > M.QUEUE_TAIL
        invariant |tail| <= |queue| && tail == queue[|queue| - |tail|..]
        invariant |tail| >= Min(|queue|, M.QUEUE_TAIL)
        decreases |tail|
      {
        tail := tail[1..];
      }
    }

    method PushSecondary(f: M.Frame)
      requires M.Wf(State()) && lanes.secondary.Some?
      modifies this`lanes, this`cut
      ensures State() == M.PushSecondary(old(State()), f)
    {
      hide M.SampleOf, M.FallbackDur, M.Tail;
      var lane := lanes.secondary.value;
      var next := M.SampleOf(lane, f, true);
      var queue := cut.queue;
      if lane.pending.Some? {
        var s := lane.pending.value;
        var d := next.dts - s.dts;
        var dur: nat := if M.Jump(lane, d) then M.FallbackDur(lane, s.data) else d;
        lane := lane.(lastDur := dur);
        queue := queue + [s.(dur := dur)];
      }
      if cut.segStart.None? {
        queue := Trimmed(queue);
      }
      lanes := lanes.(secondary := Some(lane.(pending := Some(next))));
      cut := cut.(queue := queue);
    }

    /** Feeds one frame, received at wall-clock time `now`. */
    method Push(f: M.Frame, now: int)
      requires M.Wf(State())
      modifies this`lanes, this`cut, this`win, this`inits
      ensures State() == M.Push(old(State()), f, now)
    {
      hide M.PushPrimary, M.PushSecondary;
      if ended {
        return;
      }
      if lanes.primary.Some? && lanes.primary.value.coreId == f.track {
        PushPrimary(f, now);
      } else if lanes.secondary.Some? && lanes.secondary.value.coreId == f.track {
        PushSecondary(f);
      }
    }

    /** A new init segment gets a generation of its own, unless nobody can have seen the old one. */
    method Rotated(next: Option<Bytes>) returns (r: M.Inits)
      ensures r == M.RotateInits(inits, next, win.segments != [])
    {
      r := inits;
      if next != inits.init {
        if win.segments != [] {
          if inits.init.Some? {
            r := r.(oldInits := r.oldInits + [(r.initGen, inits.init.value)]);
          }
          r := r.(initGen := r.initGen + 1);
        } else {
          r := r.(oldInits := []);
        }
      }
      r := r.(init := next);
    }

    /** Takes another selection of tracks; `reset` says whether that ended the output so far. */
    method SetTracks(sel: M.Selection) returns (reset: bool)
      requires M.Wf(State())
      modifies this`lanes, this`cut, this`win, this`inits
      ensures State() == M.SetTracks(old(State()), sel)
      ensures reset <==> !M.Unchanged(old(State()), sel)
    {
      if sel.init == inits.init && M.CoreId(lanes.primary) == M.CoreId(M.LaneOf(sel, 0))
         && M.CoreId(lanes.secondary) == M.CoreId(M.LaneOf(sel, 1)) {
        return false;
      }
      M.FlushEmpties(State());
      hide M.Flush, M.LaneOf, M.RotateInits;
      Flush();
      inits := Rotated(sel.init);
      cut := cut.(discontinuityNext := win.segments != [], resumeFrom := None, queue := [], floor := None,
                  waitingKey := true);
      lanes := M.Lanes(if sel.init.Some? then M.LaneOf(sel, 0) else None,
                       if sel.init.Some? then M.LaneOf(sel, 1) else None,
                       sel.lanes != [] && sel.lanes[0].audio);
      reset := true;
    }

    /** Frames are missing from the input: what is open ends, and output goes on at the next key frame. */
    method Lagged()
      requires M.Wf(State())
      modifies this`lanes, this`cut, this`win, this`inits
      ensures State() == M.Lagged(old(State()))
    {
      hide M.Flush;
      Flush();
      cut := cut.(queue := [], waitingKey := true);
    }

    method End()
      requires M.Wf(State())
      modifies this
      ensures State() == M.Finish(old(State()))
    {
      hide M.Flush;
      Flush();
      suspended, ended := false, true;
    }

    /** Everything open ends, but the playlist stays live for a successor. */
    method Suspend()
      requires M.Wf(State())
      modifies this
      ensures State() == M.Suspend(old(State()))
    {
      hide M.Flush;
      Flush();
      suspended := true;
    }

    /** A new publisher took over: numbering goes on, on a new timeline. */
    method Resume()
      requires M.Wf(State())
      modifies this
      ensures State() == M.Resume(old(State()))
    {
      hide M.Flush;
      Flush();
      suspended := false;
      cut := cut.(discontinuityNext := win.segments != [], resumeFrom := None, queue := [], floor := None,
                  waitingKey := true);
    }

    method InitFor(generation: nat) returns (r: Option<Bytes>)
      ensures r == M.InitFor(State(), generation)
    {
      if generation == inits.initGen {
        return inits.init;
      }
      var all := inits.oldInits;
      for i := 0 to |all|
        invariant M.FindInit(all, generation) == M.FindInit(all[i..], generation)
      {
        assert all[i..][1..] == all[i + 1..];
        if all[i].0 == generation {
          return Some(all[i].1);
        }
      }
      r := None;
    }

    /** The newest complete part, from the back of the window. */
    method LastPart() returns (r: Option<M.Coord>)
      ensures r == M.LastPart(win.segments)
    {
      var segments := win.segments;
      var i := |segments|;
      assert segments[..i] == segments;
      while i > 0
        invariant 0 <= i <= |segments| && M.LastPart(segments) == M.LastPart(segments[..i])
      {
        i := i - 1;
        assert segments[..i + 1][..i] == segments[..i];
        if segments[i].parts != [] {
          return Some((segments[i].msn, |segments[i].parts| - 1));
        }
      }
      r := None;
    }

    /** The newest complete segment, from the back of the window. */
    method LastComplete() returns (r: Option<nat>)
      ensures r == M.LastComplete(win.segments)
    {
      var segments := win.segments;
      var i := |segments|;
      assert segments[..i] == segments;
      while i > 0
        invariant 0 <= i <= |segments| && M.LastComplete(segments) == M.LastComplete(segments[..i])
      {
        i := i - 1;
        assert segments[..i + 1][..i] == segments[..i];
        if segments[i].Complete() {
          return Some(segments[i].msn);
        }
      }
      r := None;
    }
  }

  lemma {:induction false} FlaggedSnoc(a: seq<M.Segment>, s: M.Segment)
    ensures M.Flagged(a + [s]) == M.Flagged(a) + if s.discontinuity then 1 else 0
  {
    if a != [] {
      FlaggedSnoc(a[1..], s);
      assert (a + [s])[0] == a[0] && (a + [s])[1..] == a[1..] + [s];
    }
  }

  lemma {:induction false} JoinedSlice(parts: seq<M.Part>, i: nat)
    requires i < |parts|
    ensures var at, all := |M.Joined(parts[..i])|, M.Joined(parts);
            at + |parts[i].data| <= |all| && all[at..at + |parts[i].data|] == parts[i].data
    ensures |M.Joined(parts[..i + 1])| == |M.Joined(parts[..i])| + |parts[i].data|
  {
    var init := parts[..|parts| - 1];
    assert parts[..i + 1][..i] == parts[..i];
    if i < |init| {
      JoinedSlice(init, i);
      assert init[..i] == parts[..i] && init[i] == parts[i];
    }
  }
}
