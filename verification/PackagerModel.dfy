/**
  The LL-HLS segmenter of one stream as a state machine on values, from frames to parts and segments.

  `Packager.Packager` is the same machine as an object; its methods are proved equal to these functions.
  `evicted` remembers the segments that left the window, and a segment remembers where it began, on which
  clock and with which init segment; the program keeps none of these, and no cut depends on them.
 */
module PackagerModel {
  import opened Util
  import opened Fmp4

  const WINDOW := 6
  const PART_SEGMENTS := 3
  const SHIFT_SECS := 10
  const JUMP_SECS := 5
  const GAP_MICROS := 500_000
  const QUEUE_TAIL := 256

  datatype Config = Config(partMs: nat, segmentMs: nat)

  /** What a `TrackInfo` says that the cuts depend on. */
  datatype LaneInfo = LaneInfo(coreId: nat, timescale: nat, opus: bool, audio: bool)

  /** The tracks picked from a track list, primary first, and the init segment built for them, if it could be. */
  datatype Selection = Selection(init: Option<Bytes>, lanes: seq<LaneInfo>)

  datatype Frame = Frame(track: nat, dts: int, pts: int, keyframe: bool, data: Bytes)

  datatype Lane = Lane(trackId: nat, timescale: nat, coreId: nat, opus: bool, shift: int,
                       pending: Option<Sample>, lastDur: nat)

  /** `video` and `audio` are the samples that `data` encodes. */
  datatype Part = Part(duration: real, independent: bool, data: Bytes, video: seq<Sample>, audio: seq<Sample>)

  datatype Segment = Segment(msn: nat, parts: seq<Part>, pdt: int, startUs: int, discontinuity: bool, initGen: nat,
                             full: Option<Bytes>, startDts: int, timescale: nat, init: Bytes)
  {
    predicate Complete() { full.Some? }
  }

  /** What the playlist shows, and how it counts. */
  datatype Window = Window(segments: seq<Segment>, nextMsn: nat, discontinuitySeq: nat, target: nat,
                           evicted: seq<Segment>)

  datatype Lanes = Lanes(primary: Option<Lane>, secondary: Option<Lane>, primaryIsAudio: bool)

  datatype Inits = Inits(init: Option<Bytes>, initGen: nat, oldInits: seq<(nat, Bytes)>)

  /** Where the next cut stands. */
  datatype Cutter = Cutter(part: seq<Sample>, queue: seq<Sample>, segStart: Option<int>, floor: Option<int>,
                           waitingKey: bool, resumeFrom: Option<int>, discontinuityNext: bool, fragmentSeq: nat)

  /** The program's fields, grouped by what they are for. */
  datatype Pkg = Pkg(cfg: Config, lanes: Lanes, inits: Inits, cut: Cutter, win: Window, suspended: bool, ended: bool)

  function New(cfg: Config): Pkg {
    Pkg(cfg, Lanes(None, None, false), Inits(None, 0, []), Cutter([], [], None, None, true, None, false, 0),
        Window([], 0, 0, Max(CeilDiv(cfg.segmentMs, 1000), 1), []), false, false)
  }

  // ---- Lanes ----

  function NewLane(trackId: nat, info: LaneInfo): Lane {
    var timescale := Max(info.timescale, 1);
    Lane(trackId, timescale, info.coreId, info.opus, SHIFT_SECS * timescale, None,
         Max(if info.audio then 1024 else info.timescale / 30, 1))
  }

  function FallbackDur(lane: Lane, data: Bytes): nat {
    if lane.opus then OpusDuration(data) else lane.lastDur
  }

  function Clamp32(v: int): int {
    Max(-0x8000_0000, Min(v, 0x7fff_ffff))
  }

  function SampleOf(lane: Lane, f: Frame, audio: bool): Sample {
    Sample(f.dts + lane.shift, Clamp32(f.pts - f.dts), 0, f.keyframe || audio, f.data)
  }

  function Micros(lane: Lane, ticks: int): int
    requires lane.timescale > 0
  {
    MicrosAt(lane.timescale, ticks)
  }

  function MicrosAt(timescale: nat, ticks: int): int
    requires timescale > 0
  {
    MicrosOf(ticks, timescale)
  }

  // ---- Parts ----

  function End(s: Sample): int { s.dts + s.dur }

  function Span(part: seq<Sample>): int {
    if part == [] then 0 else End(part[|part| - 1]) - part[0].dts
  }

  function PartMax(p: Pkg): int {
    PartLimit(p.cfg, if p.lanes.primary.Some? then p.lanes.primary.value.timescale else 1)
  }

  function PartLimit(cfg: Config, timescale: nat): int {
    Max(cfg.partMs * timescale / 1000, 1)
  }

  /** The queued audio that starts before the part ends, without what ended by the floor; and what stays queued. */
  function TakeAudio(lane: Lane, queue: seq<Sample>, endMicros: int, floor: Option<int>): (seq<Sample>, seq<Sample>)
    requires lane.timescale > 0
    decreases |queue|
  {
    if queue == [] || Micros(lane, queue[0].dts) >= endMicros then ([], queue) else
      var (taken, rest) := TakeAudio(lane, queue[1..], endMicros, floor);
      if BelowFloor(lane, queue[0], floor) then (taken, rest) else ([queue[0]] + taken, rest)
  }

  predicate BelowFloor(lane: Lane, s: Sample, floor: Option<int>)
    requires lane.timescale > 0
  {
    floor.Some? && Micros(lane, s.dts) + Micros(lane, s.dur) <= floor.value
  }

  /** Facts about a state that hold between any two statements of the program. */
  predicate Wf(p: Pkg) {
    && (p.lanes.primary.Some? ==> p.lanes.primary.value.timescale > 0)
    && (p.lanes.secondary.Some? ==> p.lanes.secondary.value.timescale > 0)
    && (p.cut.part != [] ==> p.lanes.primary.Some?)
  }

  predicate Open(w: Window) {
    w.segments != [] && !w.segments[|w.segments| - 1].Complete()
  }

  function Runs(p: Pkg, audio: seq<Sample>): seq<Run>
    requires p.lanes.primary.Some?
  {
    [Run(p.lanes.primary.value.trackId, p.cut.part)]
    + if p.lanes.secondary.Some? then [Run(p.lanes.secondary.value.trackId, audio)] else []
  }

  function NewPart(p: Pkg, sequence: nat, audio: seq<Sample>): Part
    requires Wf(p) && p.cut.part != []
  {
    Part(Span(p.cut.part) as real / p.lanes.primary.value.timescale as real, p.cut.part[0].key,
         Fragment(sequence, Runs(p, audio)), p.cut.part, audio)
  }

  function PartAudio(p: Pkg): (seq<Sample>, seq<Sample>)
    requires Wf(p) && p.cut.part != []
  {
    if p.lanes.secondary.None? then ([], p.cut.queue) else
      var end := Micros(p.lanes.primary.value, End(p.cut.part[|p.cut.part| - 1]));
      TakeAudio(p.lanes.secondary.value, p.cut.queue, end, p.cut.floor)
  }

  function ClosePart(p: Pkg): (q: Pkg)
    requires Wf(p)
    ensures Wf(q)
  {
    if p.cut.part == [] then p else
      var (audio, queue) := PartAudio(p);
      var sequence := (p.cut.fragmentSeq + 1) % 0x1_0000_0000;
      p.(cut := p.cut.(part := [], queue := queue, floor := None, fragmentSeq := sequence),
         win := if Open(p.win) then AddPart(p.win, NewPart(p, sequence, audio)) else p.win)
  }

  function AddPart(w: Window, part: Part): Window
    requires w.segments != []
  {
    var last := |w.segments| - 1;
    w.(segments := w.segments[..last] + [w.segments[last].(parts := w.segments[last].parts + [part])])
  }

  function CommitPrimary(p: Pkg, s: Sample): (q: Pkg)
    requires Wf(p) && p.lanes.primary.Some?
    ensures Wf(q)
  {
    var q := if p.cut.part != [] && End(s) - p.cut.part[0].dts > PartMax(p) then ClosePart(p) else p;
    q.(cut := q.cut.(part := q.cut.part + [s]))
  }

  // ---- Segments ----

  function Joined(parts: seq<Part>): Bytes {
    if parts == [] then [] else Joined(parts[..|parts| - 1]) + parts[|parts| - 1].data
  }

  function Duration(parts: seq<Part>): real {
    if parts == [] then 0.0 else Duration(parts[..|parts| - 1]) + parts[|parts| - 1].duration
  }

  /** Rust's `round() as u64`. */
  function Round(d: real): nat {
    if d < 0.0 then 0 else (d + 0.5).Floor
  }

  function CompleteCount(segments: seq<Segment>): (n: nat)
    ensures n <= |segments|
  {
    if segments == [] then 0 else (if segments[0].Complete() then 1 else 0) + CompleteCount(segments[1..])
  }

  function Flagged(segments: seq<Segment>): nat {
    if segments == [] then 0 else (if segments[0].discontinuity then 1 else 0) + Flagged(segments[1..])
  }

  /** How many of the oldest segments to drop until at most `WINDOW` complete ones are left. */
  function Excess(segments: seq<Segment>): (n: nat)
    ensures n <= |segments|
    decreases |segments|
  {
    if segments == [] || CompleteCount(segments) <= WINDOW then 0 else 1 + Excess(segments[1..])
  }

  function Evict(w: Window): Window {
    var n := Excess(w.segments);
    w.(segments := w.segments[n..], evicted := w.evicted + w.segments[..n],
       discontinuitySeq := w.discontinuitySeq + Flagged(w.segments[..n]))
  }

  function KeepFrom(inits: seq<(nat, Bytes)>, first: nat): seq<(nat, Bytes)> {
    if inits == [] then []
    else (if inits[0].0 >= first then [inits[0]] else []) + KeepFrom(inits[1..], first)
  }

  /** The last segment is complete: its parts concatenated, and its length counted into the target. */
  function Seal(w: Window): Window
    requires w.segments != []
  {
    var last := |w.segments| - 1;
    var parts := w.segments[last].parts;
    w.(segments := w.segments[..last] + [w.segments[last].(full := Some(Joined(parts)))],
       target := Max(w.target, Round(Duration(parts))))
  }

  /** An open segment that never got a part is taken back. */
  function TakeBack(w: Window): Window
    requires w.segments != []
  {
    w.(segments := w.segments[..|w.segments| - 1], nextMsn := Max(w.nextMsn, 1) - 1)
  }

  predicate Empty(w: Window) {
    Open(w) && w.segments[|w.segments| - 1].parts == []
  }

  function CloseWindow(w: Window): Window {
    if Empty(w) then TakeBack(w) else if Open(w) then Evict(Seal(w)) else w
  }

  function CloseSegment(p: Pkg): (q: Pkg)
    requires Wf(p)
    ensures Wf(q)
  {
    var w := CloseWindow(p.win);
    var first := if w.segments == [] then p.inits.initGen else w.segments[0].initGen;
    var oldInits := if Open(p.win) && !Empty(p.win) then KeepFrom(p.inits.oldInits, first) else p.inits.oldInits;
    p.(win := w, cut := p.cut.(segStart := None), inits := p.inits.(oldInits := oldInits))
  }

  /** Whether the silence between the last frame before a flush and this one is too long or negative. */
  predicate Gap(p: Pkg, start: int) {
    p.cut.resumeFrom.Some? && p.win.segments != [] && !(0 <= start - p.cut.resumeFrom.value <= GAP_MICROS)
  }

  function NewSegment(p: Pkg, dts: int, now: int): Segment
    requires Wf(p) && p.lanes.primary.Some?
  {
    var lane := p.lanes.primary.value;
    Segment(p.win.nextMsn, [], now, Micros(lane, dts - lane.shift),
            p.cut.discontinuityNext || Gap(p, Micros(lane, dts)), p.inits.initGen, None,
            dts, lane.timescale, if p.inits.init.Some? then p.inits.init.value else [])
  }

  function OpenSegment(p: Pkg, dts: int, now: int): (q: Pkg)
    requires Wf(p) && p.lanes.primary.Some?
    ensures Wf(q)
  {
    var floor := if p.cut.waitingKey then Some(Micros(p.lanes.primary.value, dts)) else p.cut.floor;
    p.(cut := p.cut.(resumeFrom := None, discontinuityNext := false, floor := floor, waitingKey := false,
                     segStart := Some(dts)),
       win := p.win.(segments := p.win.segments + [NewSegment(p, dts, now)], nextMsn := p.win.nextMsn + 1))
  }

  /** Ends everything that is open; frames still waiting for a successor go in on a fallback duration. */
  function Flush(p: Pkg): (q: Pkg)
    requires Wf(p)
    ensures Wf(q)
  {
    CloseSegment(ClosePart(FlushSecondary(FlushPrimary(p))))
  }

  /** The held-back frame, with the duration it is given when nothing follows it. */
  function Held(p: Pkg): Sample
    requires p.lanes.primary.Some? && p.lanes.primary.value.pending.Some?
  {
    var lane := p.lanes.primary.value;
    lane.pending.value.(dur := FallbackDur(lane, lane.pending.value.data))
  }

  function Released(p: Pkg): Pkg
    requires p.lanes.primary.Some?
  {
    p.(lanes := p.lanes.(primary := Some(p.lanes.primary.value.(pending := None))))
  }

  function Resumable(p: Pkg, at: int): Pkg {
    p.(cut := p.cut.(resumeFrom := Some(at)))
  }

  function FlushPrimary(p: Pkg): (q: Pkg)
    requires Wf(p)
    ensures Wf(q)
  {
    if p.lanes.primary.None? || p.lanes.primary.value.pending.None? then p else
      Resumable(CommitPrimary(Released(p), Held(p)), Micros(p.lanes.primary.value, End(Held(p))))
  }

  function FlushSecondary(p: Pkg): (q: Pkg)
    requires Wf(p)
    ensures Wf(q)
  {
    if p.lanes.secondary.None? || p.lanes.secondary.value.pending.None? then p else
      var lane := p.lanes.secondary.value;
      var s := lane.pending.value.(dur := FallbackDur(lane, lane.pending.value.data));
      p.(lanes := p.lanes.(secondary := Some(lane.(pending := None))), cut := p.cut.(queue := p.cut.queue + [s]))
  }

  // ---- Operations ----

  predicate Jump(lane: Lane, d: int) {
    d <= 0 || d > JUMP_SECS * lane.timescale
  }

  /** After the held-back frame got its duration `d` and was committed: the cuts before frame `next`. */
  function Cut(p: Pkg, next: Sample, d: nat): (q: Pkg)
    requires Wf(p) && p.lanes.primary.Some?
    ensures Wf(q)
  {
    var segLen := next.dts - (if p.cut.segStart.Some? then p.cut.segStart.value else next.dts);
    if next.key && segLen >= p.cfg.segmentMs * p.lanes.primary.value.timescale / 1000 then
      CloseSegment(ClosePart(p))
    else if next.key && !p.lanes.primaryIsAudio && p.cut.part != [] then
      if Span(p.cut.part) * 100 >= PartMax(p) * 85 then ClosePart(p) else CloseSegment(ClosePart(p))
    else if p.cut.part != [] && Span(p.cut.part) + d > PartMax(p) then
      ClosePart(p)
    else p
  }

  /** The held-back frame's track once the frame has its duration `d`. */
  function Measured(p: Pkg, d: nat): Pkg
    requires p.lanes.primary.Some?
  {
    p.(lanes := p.lanes.(primary := Some(p.lanes.primary.value.(pending := None, lastDur := d))))
  }

  /** After a timestamp jump: the next frame starts over, marked as a discontinuity. */
  function Restarted(p: Pkg): Pkg {
    p.(cut := p.cut.(discontinuityNext := p.win.segments != [], waitingKey := true))
  }

  /** Gives the held-back frame its duration and makes room for frame `next`. */
  function Settle(p: Pkg, next: Sample): (q: Pkg)
    requires Wf(p) && p.lanes.primary.Some?
    ensures Wf(q)
  {
    var lane := p.lanes.primary.value;
    if lane.pending.None? then p else
      var s := lane.pending.value;
      var d := next.dts - s.dts;
      if Jump(lane, d) then Restarted(Flush(p)) else
        CommitKeepsLanes(Measured(p, d), s.(dur := d));
        Cut(CommitPrimary(Measured(p, d), s.(dur := d)), next, d)
  }

  function Holding(p: Pkg, next: Sample): Pkg
    requires p.lanes.primary.Some?
  {
    p.(lanes := p.lanes.(primary := Some(p.lanes.primary.value.(pending := Some(next)))))
  }

  /** The frame becomes the held-back one, in a segment of its own if none is open. */
  function Hold(q: Pkg, next: Sample, now: int): (r: Pkg)
    requires Wf(q) && q.lanes.primary.Some?
    ensures Wf(r)
  {
    Holding(if q.cut.segStart.None? then OpenSegment(q, next.dts, now) else q, next)
  }

  function Waiting(p: Pkg): Pkg {
    p.(cut := p.cut.(waitingKey := true))
  }

  function PushPrimary(p: Pkg, f: Frame, now: int): (q: Pkg)
    requires Wf(p) && p.lanes.primary.Some?
    ensures Wf(q)
  {
    var next := SampleOf(p.lanes.primary.value, f, p.lanes.primaryIsAudio);
    SettleKeepsLanes(p, next);
    var q := Settle(p, next);
    if q.cut.segStart.None? && !next.key then Waiting(q) else Hold(q, next, now)
  }

  /** The duration of the held-back secondary frame `s` when `next` arrives. */
  function SecondaryDur(lane: Lane, s: Sample, next: Sample): nat {
    if Jump(lane, next.dts - s.dts) then FallbackDur(lane, s.data) else next.dts - s.dts
  }

  function Tail(queue: seq<Sample>): seq<Sample> {
    if |queue| > QUEUE_TAIL then queue[|queue| - QUEUE_TAIL..] else queue
  }

  function PushSecondary(p: Pkg, f: Frame): (q: Pkg)
    requires Wf(p) && p.lanes.secondary.Some?
    ensures Wf(q)
  {
    var lane := p.lanes.secondary.value;
    var next := SampleOf(lane, f, true);
    var lastDur := if lane.pending.Some? then SecondaryDur(lane, lane.pending.value, next) else lane.lastDur;
    var queue := if lane.pending.Some? then p.cut.queue + [lane.pending.value.(dur := lastDur)] else p.cut.queue;
    p.(lanes := p.lanes.(secondary := Some(lane.(pending := Some(next), lastDur := lastDur))),
       cut := p.cut.(queue := if p.cut.segStart.None? then Tail(queue) else queue))
  }

  function Push(p: Pkg, f: Frame, now: int): (q: Pkg)
    requires Wf(p)
    ensures Wf(q)
  {
    if p.ended then p
    else if p.lanes.primary.Some? && p.lanes.primary.value.coreId == f.track then PushPrimary(p, f, now)
    else if p.lanes.secondary.Some? && p.lanes.secondary.value.coreId == f.track then PushSecondary(p, f)
    else p
  }

  function CoreId(lane: Option<Lane>): Option<nat> {
    if lane.Some? then Some(lane.value.coreId) else None
  }

  function LaneOf(sel: Selection, i: nat): Option<Lane> {
    if i < |sel.lanes| then Some(NewLane(i + 1, sel.lanes[i])) else None
  }

  predicate Unchanged(p: Pkg, sel: Selection) {
    && sel.init == p.inits.init
    && CoreId(p.lanes.primary) == CoreId(LaneOf(sel, 0))
    && CoreId(p.lanes.secondary) == CoreId(LaneOf(sel, 1))
  }

  function SetTracks(p: Pkg, sel: Selection): (q: Pkg)
    requires Wf(p)
    ensures Wf(q)
  {
    if Unchanged(p, sel) then p else
      FlushEmpties(p);
      var q := Flush(p);
      Retrack(q, sel)
  }

  /** A new init segment gets a generation of its own, unless nobody can have seen the old one. */
  function RotateInits(inits: Inits, next: Option<Bytes>, listed: bool): Inits {
    if next == inits.init then inits
    else if !listed then Inits(next, inits.initGen, [])
    else Inits(next, inits.initGen + 1,
               if inits.init.Some? then inits.oldInits + [(inits.initGen, inits.init.value)] else inits.oldInits)
  }

  function LanesOf(sel: Selection): Lanes {
    Lanes(if sel.init.Some? then LaneOf(sel, 0) else None, if sel.init.Some? then LaneOf(sel, 1) else None,
          sel.lanes != [] && sel.lanes[0].audio)
  }

  /** New tracks over a flushed state: what was listed stays, under its own init segment. */
  function Retrack(q: Pkg, sel: Selection): (r: Pkg)
    requires Wf(q) && q.cut.part == []
    ensures Wf(r)
  {
    var listed := q.win.segments != [];
    q.(inits := RotateInits(q.inits, sel.init, listed), lanes := LanesOf(sel),
       cut := q.cut.(discontinuityNext := listed, resumeFrom := None, queue := [], floor := None, waitingKey := true))
  }

  function Lagged(p: Pkg): (q: Pkg)
    requires Wf(p)
    ensures Wf(q)
  {
    var q := Flush(p);
    q.(cut := q.cut.(queue := [], waitingKey := true))
  }

  function Finish(p: Pkg): (q: Pkg)
    requires Wf(p)
    ensures Wf(q)
  {
    Flush(p).(suspended := false, ended := true)
  }

  function Suspend(p: Pkg): (q: Pkg)
    requires Wf(p)
    ensures Wf(q)
  {
    Flush(p).(suspended := true)
  }

  function Resume(p: Pkg): (q: Pkg)
    requires Wf(p)
    ensures Wf(q)
  {
    var q := Flush(p);
    q.(suspended := false,
       cut := q.cut.(discontinuityNext := q.win.segments != [], resumeFrom := None, queue := [], floor := None,
                     waitingKey := true))
  }

  datatype Op =
    | OpTracks(sel: Selection)
    | OpPush(frame: Frame, now: int)
    | OpLagged
    | OpSuspend
    | OpResume
    | OpEnd

  function Apply(p: Pkg, op: Op): (q: Pkg)
    requires Wf(p)
    ensures Wf(q)
  {
    match op
    case OpTracks(sel) => SetTracks(p, sel)
    case OpPush(f, now) => Push(p, f, now)
    case OpLagged => Lagged(p)
    case OpSuspend => Suspend(p)
    case OpResume => Resume(p)
    case OpEnd => Finish(p)
  }

  /** The state after any sequence of operations. */
  function Reach(cfg: Config, ops: seq<Op>): (p: Pkg)
    ensures Wf(p)
  {
    if ops == [] then New(cfg) else Apply(Reach(cfg, ops[..|ops| - 1]), ops[|ops| - 1])
  }

  lemma {:induction false} CommitKeepsLanes(p: Pkg, s: Sample)
    requires Wf(p) && p.lanes.primary.Some?
    ensures CommitPrimary(p, s).lanes.primary == p.lanes.primary
      && CommitPrimary(p, s).lanes.secondary == p.lanes.secondary
  {}

  lemma {:induction false} CloseSegmentKeeps(p: Pkg)
    requires Wf(p)
    ensures CloseSegment(p).lanes.primary == p.lanes.primary && CloseSegment(p).cut.part == p.cut.part
  {}

  lemma {:induction false} FlushEmpties(p: Pkg)
    requires Wf(p)
    ensures Flush(p).cut.part == [] && (p.lanes.primary.Some? <==> Flush(p).lanes.primary.Some?)
  {
    CloseSegmentKeeps(ClosePart(FlushSecondary(FlushPrimary(p))));
  }

  lemma {:induction false} CutKeepsLanes(p: Pkg, next: Sample, d: nat)
    requires Wf(p) && p.lanes.primary.Some?
    ensures Cut(p, next, d).lanes.primary == p.lanes.primary
  {
    CloseSegmentKeeps(ClosePart(p));
  }

  lemma {:induction false} SettleKeepsLanes(p: Pkg, next: Sample)
    requires Wf(p) && p.lanes.primary.Some?
    ensures Settle(p, next).lanes.primary.Some?
  {
    hide Flush, CommitPrimary, Cut;
    var lane := p.lanes.primary.value;
    if lane.pending.Some? {
      var d := next.dts - lane.pending.value.dts;
      if Jump(lane, d) {
        FlushEmpties(p);
      } else {
        CommitKeepsLanes(Measured(p, d), lane.pending.value.(dur := d));
        CutKeepsLanes(CommitPrimary(Measured(p, d), lane.pending.value.(dur := d)), next, d);
      }
    }
  }

  // ---- Queries ----

  function InitFor(p: Pkg, generation: nat): Option<Bytes> {
    if generation == p.inits.initGen then p.inits.init else FindInit(p.inits.oldInits, generation)
  }

  function FindInit(inits: seq<(nat, Bytes)>, generation: nat): Option<Bytes> {
    if inits == [] then None
    else if inits[0].0 == generation then Some(inits[0].1)
    else FindInit(inits[1..], generation)
  }

  type Coord = (nat, nat)

  predicate AtMost(a: Coord, b: Coord) {
    a.0 < b.0 || (a.0 == b.0 && a.1 <= b.1)
  }

  function NextPart(w: Window): Coord {
    if Open(w) then
      var last := w.segments[|w.segments| - 1];
      (last.msn, |last.parts|)
    else (w.nextMsn, 0)
  }

  /** The newest complete part, searching from the back. */
  function LastPart(segments: seq<Segment>): Option<Coord> {
    if segments == [] then None else
      var last := segments[|segments| - 1];
      if last.parts != [] then Some((last.msn, |last.parts| - 1)) else LastPart(segments[..|segments| - 1])
  }

  /** The newest complete segment. */
  function LastComplete(segments: seq<Segment>): Option<nat> {
    if segments == [] then None else
      var last := segments[|segments| - 1];
      if last.Complete() then Some(last.msn) else LastComplete(segments[..|segments| - 1])
  }

  function SegmentAt(w: Window, msn: nat): Option<Segment> {
    if w.segments == [] || msn < w.segments[0].msn || msn - w.segments[0].msn >= |w.segments| then None
    else Some(w.segments[msn - w.segments[0].msn])
  }

  datatype Lookup = Found(data: Bytes) | Pending | Gone

  predicate Awaited(p: Pkg, msn: nat, part: Option<nat>) {
    && !p.ended
    && (if part.Some? then AtMost((msn, part.value), NextPart(p.win)) else msn <= NextPart(p.win).0)
  }

  function LookUp(p: Pkg, msn: nat, part: Option<nat>): Lookup {
    var seg := SegmentAt(p.win, msn);
    if seg.Some? then
      if part.Some? && part.value < |seg.value.parts| then Found(seg.value.parts[part.value].data)
      else if part.None? && seg.value.full.Some? then Found(seg.value.full.value)
      else if !seg.value.Complete() && Awaited(p, msn, part) then Pending
      else Gone
    else if msn >= p.win.nextMsn && Awaited(p, msn, part) then Pending
    else Gone
  }
}
