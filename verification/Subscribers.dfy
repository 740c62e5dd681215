/** Viewers of the live ring: what each one is given of the log, in any interleaving with the publisher. */
module Subscribers {
  import opened Util
  import opened Fmp4
  import opened Ring
  import opened RingLog

  datatype StartAt = LiveEdge | Oldest

  datatype Event = Delivered(item: Item) | TracksChanged | Lagged(skipped: int) | Finished

  /** `next` is `None` while the viewer waits for the first join point that arrives. */
  datatype Cursor = Cursor(next: Option<nat>, version: nat)

  datatype Read = Read(cursor: Cursor, event: Option<Event>)

  function Join(l: Live, start: StartAt): Cursor {
    var keys := l.buf.keys;
    Cursor(if keys == [] then None else if start.LiveEdge? then Some(keys[|keys| - 1]) else Some(keys[0]), 0)
  }

  function FirstFrom(keys: seq<nat>, base: nat): (k: Option<nat>)
    ensures k.Some? ==> k.value in keys && k.value >= base
    decreases |keys|
  {
    if keys == [] then None else if keys[0] >= base then Some(keys[0]) else FirstFrom(keys[1..], base)
  }

  /** Where the viewer reads: a waiting one at the oldest join point. */
  function Settled(l: Live, c: Cursor): Option<nat> {
    if c.next.None? && l.buf.keys != [] then Some(l.buf.keys[0]) else c.next
  }

  function Resume(b: Buffer): nat {
    var k := FirstFrom(b.keys, b.base);
    if k.Some? then k.value else b.End()
  }

  function TryRecv(l: Live, c: Cursor): Read {
    var at := Settled(l, c);
    if l.version != c.version then Read(c.(version := l.version), Some(TracksChanged))
    else if at.None? then Read(c, if l.ended then Some(Finished) else None)
    else if at.value < l.buf.base then
      var resume := Resume(l.buf);
      Read(c.(next := if resume == l.buf.End() && l.buf.keys == [] then None else Some(resume)),
           Some(Lagged(resume - at.value)))
    else if at.value < l.buf.End() then
      Read(c.(next := Some(at.value + 1)), Some(Delivered(l.buf.frames[at.value - l.buf.base].item)))
    else Read(c.(next := at), if l.ended then Some(Finished) else None)
  }

  /** How far a jump to the newest join point takes the viewer. */
  function LiveDistance(l: Live, c: Cursor): nat {
    var keys := l.buf.keys;
    if c.next.Some? && keys != [] && keys[|keys| - 1] > c.next.value then keys[|keys| - 1] - c.next.value else 0
  }

  function SkipToLive(l: Live, c: Cursor): Cursor {
    if LiveDistance(l, c) > 0 then c.(next := Some(c.next.value + LiveDistance(l, c))) else c
  }

  /** Items between the viewer and the newest; none for one that still waits. */
  function Backlog(l: Live, c: Cursor): nat {
    if c.next.Some? && Max(c.next.value, l.buf.base) < l.buf.End()
    then l.buf.End() - Max(c.next.value, l.buf.base) else 0
  }

  class Subscriber {
    const stream: Stream
    var next: Option<nat>
    var version: nat

    function Now(): Cursor
      reads this
    {
      Cursor(next, version)
    }

    constructor (stream: Stream, start: StartAt)
      ensures this.stream == stream && Now() == Join(stream.State(), start)
    {
      this.stream := stream;
      version := 0;
      var keys := stream.keys;
      next := if keys == [] then None else if start.LiveEdge? then Some(keys[|keys| - 1]) else Some(keys[0]);
    }

    method FindResume() returns (resume: nat)
      ensures resume == Resume(stream.Buf())
    {
      var keys := stream.keys;
      for i := 0 to |keys|
        invariant FirstFrom(keys[i..], stream.base) == FirstFrom(keys, stream.base)
      {
        if keys[i] >= stream.base {
          return keys[i];
        }
        assert keys[i..][1..] == keys[i + 1..];
      }
      resume := stream.base + |stream.frames|;
    }

    method Receive() returns (event: Option<Event>)
      modifies this
      ensures var r := TryRecv(stream.State(), old(Now())); Now() == r.cursor && event == r.event
    {
      if stream.version != version {
        version := stream.version;
        return Some(TracksChanged);
      }
      if next.None? {
        if stream.keys != [] {
          next := Some(stream.keys[0]);
        } else {
          return if stream.ended then Some(Finished) else None;
        }
      }
      var end := stream.base + |stream.frames|;
      if next.value < stream.base {
        var resume := FindResume();
        var skipped := resume - next.value;
        next := if resume == end && stream.keys == [] then None else Some(resume);
        return Some(Lagged(skipped));
      }
      if next.value < end {
        event := Some(Delivered(stream.frames[next.value - stream.base].item));
        next := Some(next.value + 1);
        return;
      }
      event := if stream.ended then Some(Finished) else None;
    }

    method Behind() returns (n: nat)
      ensures n == Backlog(stream.State(), Now())
    {
      var end := stream.base + |stream.frames|;
      n := if next.Some? && Max(next.value, stream.base) < end then end - Max(next.value, stream.base) else 0;
    }

    method JumpToLive() returns (skipped: nat)
      modifies this`next
      ensures skipped == LiveDistance(stream.State(), old(Now())) && Now() == SkipToLive(stream.State(), old(Now()))
    {
      var keys := stream.keys;
      skipped := 0;
      if next.Some? && keys != [] && keys[|keys| - 1] > next.value {
        skipped := keys[|keys| - 1] - next.value;
        next := Some(keys[|keys| - 1]);
      }
    }
  }

  // ---- What a viewer has seen ----

  datatype Seen =
    | Joined(at: nat)
    | Got(at: nat, entry: Entry)
    | Missed(skipped: int, waits: bool)
    | Jumped(skipped: int)
    | Retracked
    | AtEnd
  {
    /** Says nothing about the position. */
    predicate Aside() { Retracked? || AtEnd? }
  }

  /** The log position after a trace; `waits` until a join point arrives. */
  datatype Place = Place(pos: int, waits: bool)

  function Moved(p: Place, s: Seen): Place {
    match s
    case Joined(at) => Place(at, false)
    case Got(_, _) => Place(p.pos + 1, false)
    case Missed(skipped, waits) => Place(p.pos + skipped, waits)
    case Jumped(skipped) => Place(p.pos + skipped, p.waits)
    case _ => p
  }

  function PlaceOf(trace: seq<Seen>): Place
    decreases |trace|
  {
    if trace == [] then Place(0, true) else Moved(PlaceOf(trace[..|trace| - 1]), trace[|trace| - 1])
  }

  /** Nothing has been delivered since the viewer joined, lagged or jumped. */
  predicate Starting(trace: seq<Seen>)
    decreases |trace|
  {
    trace == [] ||
    var last := trace[|trace| - 1];
    if last.Aside() then Starting(trace[..|trace| - 1]) else !last.Got?
  }

  ghost predicate LegalNext(log: seq<Entry>, trace: seq<Seen>, s: Seen) {
    var p := PlaceOf(trace);
    match s
    case Joined(at) => p.waits && at >= p.pos
    case Got(at, entry) => !p.waits && at == p.pos && at < |log| && entry == log[at] && (Starting(trace) ==> entry.sync)
    case Missed(skipped, _) => !p.waits && skipped > 0
    case Jumped(skipped) => !p.waits && skipped > 0
    case _ => true
  }

  /** A trace a viewer may see of the log. */
  ghost predicate Legal(log: seq<Entry>, trace: seq<Seen>)
    decreases |trace|
  {
    trace == [] || (Legal(log, trace[..|trace| - 1]) && LegalNext(log, trace[..|trace| - 1], trace[|trace| - 1]))
  }

  /** What one read shows. */
  function ReadShows(l: Live, c: Cursor): (shown: seq<Seen>)
  {
    var event := TryRecv(l, c).event;
    (if l.version == c.version && c.next.None? && l.buf.keys != [] then [Joined(l.buf.keys[0])] else []) +
    (match event
     case None => []
     case Some(TracksChanged) => [Retracked]
     case Some(Finished) => [AtEnd]
     case Some(Lagged(skipped)) => [Missed(skipped, l.buf.keys == [])]
     case Some(Delivered(item)) =>
       var at := Settled(l, c).value;
       if l.buf.base <= at < l.buf.End() then [Got(at, l.buf.frames[at - l.buf.base])] else [])
  }

  // ---- One publisher, many viewers ----

  datatype Viewer = Viewer(cursor: Cursor, trace: seq<Seen>)

  datatype System = System(live: Live, log: seq<Entry>, viewers: seq<Viewer>)

  datatype Step = Publish(op: Op) | Subscribe(start: StartAt) | Receive(viewer: nat) | Jump(viewer: nat)

  function Subscribed(l: Live, start: StartAt): Viewer {
    var c := Join(l, start);
    Viewer(c, if c.next.Some? then [Joined(c.next.value)] else [])
  }

  function Received(l: Live, v: Viewer): Viewer {
    Viewer(TryRecv(l, v.cursor).cursor, v.trace + ReadShows(l, v.cursor))
  }

  function Jumping(l: Live, v: Viewer): Viewer {
    Viewer(SkipToLive(l, v.cursor),
           v.trace + if LiveDistance(l, v.cursor) > 0 then [Jumped(LiveDistance(l, v.cursor))] else [])
  }

  predicate StepOk(s: Step) {
    s.Publish? ==> OpOk(s.op)
  }

  function Next(sys: System, s: Step, cfg: Config): (n: System)
    requires Wf(sys.live.buf) && StepOk(s)
    ensures Wf(n.live.buf)
  {
    match s
    case Publish(op) => System(Apply(sys.live, op, cfg), sys.log + Added(sys.live, op), sys.viewers)
    case Subscribe(start) => sys.(viewers := sys.viewers + [Subscribed(sys.live, start)])
    case Receive(i) =>
      if i < |sys.viewers| then sys.(viewers := sys.viewers[i := Received(sys.live, sys.viewers[i])]) else sys
    case Jump(i) =>
      if i < |sys.viewers| then sys.(viewers := sys.viewers[i := Jumping(sys.live, sys.viewers[i])]) else sys
  }

  /** A viewer's cursor is where its trace of the log has led it. */
  ghost predicate Follows(b: Buffer, log: seq<Entry>, v: Viewer) {
    var p := PlaceOf(v.trace);
    && Legal(log, v.trace)
    && 0 <= p.pos <= |log|
    && v.cursor.next == (if p.waits then None else Some(p.pos))
    && (p.waits ==> forall k :: b.base <= k < p.pos ==> !log[k].sync)
    && (!p.waits && Starting(v.trace) ==> p.pos < |log| && log[p.pos].sync)
  }

  ghost predicate Sound(sys: System, cfg: Config) {
    && Wf(sys.live.buf) && Holds(sys.live, cfg, sys.log)
    && forall i :: 0 <= i < |sys.viewers| ==> Follows(sys.live.buf, sys.log, sys.viewers[i])
  }

  // ---- Every step keeps it ----

  lemma {:induction false} LegalGrows(log: seq<Entry>, more: seq<Entry>, trace: seq<Seen>)
    requires Legal(log, trace)
    ensures Legal(log + more, trace)
    decreases |trace|
  {
    if trace != [] {
      LegalGrows(log, more, trace[..|trace| - 1]);
    }
  }

  lemma {:induction false} TraceSnoc(log: seq<Entry>, trace: seq<Seen>, s: Seen)
    ensures PlaceOf(trace + [s]) == Moved(PlaceOf(trace), s)
    ensures Legal(log, trace + [s]) <==> Legal(log, trace) && LegalNext(log, trace, s)
    ensures Starting(trace + [s]) <==> if s.Aside() then Starting(trace) else !s.Got?
  {
    assert (trace + [s])[..|trace|] == trace;
  }

  lemma {:induction false} PublishFollows(b: Buffer, log: seq<Entry>, c: Buffer, more: seq<Entry>, v: Viewer)
    requires Follows(b, log, v) && b.base <= c.base
    ensures Follows(c, log + more, v)
  {
    LegalGrows(log, more, v.trace);
    hide Legal, PlaceOf, Starting;
  }

  /** The join points of the buffer, said of the log. */
  lemma {:induction false} KeysAreSync(b: Buffer, log: seq<Entry>)
    requires Wf(b) && Refines(b, log)
    ensures b.keys != [] ==>
      var first, last := b.keys[0], b.keys[|b.keys| - 1];
      && b.base <= first <= last < |log| && log[first].sync && log[last].sync
      && FirstFrom(b.keys, b.base) == Some(first)
    ensures b.keys == [] ==> FirstFrom(b.keys, b.base) == None && forall k :: b.base <= k < |log| ==> !log[k].sync
  {
    if b.keys != [] {
      assert b.keys[0] in b.keys && b.keys[|b.keys| - 1] in b.keys;
    }
  }

  lemma {:induction false} SubscribeFollows(l: Live, cfg: Config, log: seq<Entry>, start: StartAt)
    requires Holds(l, cfg, log)
    ensures Follows(l.buf, log, Subscribed(l, start))
  {
    hide Legal, PlaceOf, Starting, Bounded, Refines, KeysInside, FirstFrom;
    KeysAreSync(l.buf, log);
    NothingSeen(log);
    var v := Subscribed(l, start);
    if v.trace != [] {
      TraceSnoc(log, [], v.trace[0]);
      assert [] + [v.trace[0]] == v.trace;
    }
  }

  lemma {:induction false} NothingSeen(log: seq<Entry>)
    ensures Legal(log, []) && PlaceOf([]) == Place(0, true)
  {}

  /** One more thing seen, with the cursor where it leads. */
  lemma {:induction false} SeenFollows(b: Buffer, log: seq<Entry>, v: Viewer, c: Cursor, s: Seen)
    requires Follows(b, log, v) && LegalNext(log, v.trace, s) && !s.Joined?
    requires var p := Moved(PlaceOf(v.trace), s);
             && 0 <= p.pos <= |log| && c.next == (if p.waits then None else Some(p.pos))
             && (p.waits ==> forall k :: b.base <= k < p.pos ==> !log[k].sync)
             && ((s.Missed? || s.Jumped?) && !p.waits ==> p.pos < |log| && log[p.pos].sync)
    ensures Follows(b, log, Viewer(c, v.trace + [s]))
  {
    TraceSnoc(log, v.trace, s);
    hide Legal, PlaceOf, Starting;
  }

  lemma {:induction false} JumpFollows(l: Live, cfg: Config, log: seq<Entry>, v: Viewer)
    requires Holds(l, cfg, log) && Follows(l.buf, log, v)
    ensures Follows(l.buf, log, Jumping(l, v))
  {
    KeysAreSync(l.buf, log);
    hide Legal, PlaceOf, Starting, Holds, Refines, Wf, KeysInside;
    var d := LiveDistance(l, v.cursor);
    if d > 0 {
      SeenFollows(l.buf, log, v, SkipToLive(l, v.cursor), Jumped(d));
    } else {
      assert v.trace + [] == v.trace;
    }
  }

  lemma {:induction false} SettleFollows(l: Live, cfg: Config, log: seq<Entry>, v: Viewer)
    requires Holds(l, cfg, log) && Follows(l.buf, log, v) && v.cursor.next.None? && l.buf.keys != []
    ensures Follows(l.buf, log, Viewer(v.cursor.(next := Settled(l, v.cursor)), v.trace + [Joined(l.buf.keys[0])]))
  {
    KeysAreSync(l.buf, log);
    TraceSnoc(log, v.trace, Joined(l.buf.keys[0]));
    hide Legal, PlaceOf, Starting, Holds;
  }

  lemma {:induction false} MissedFollows(l: Live, cfg: Config, log: seq<Entry>, v: Viewer)
    requires Holds(l, cfg, log) && Follows(l.buf, log, v)
    requires l.version == v.cursor.version && v.cursor.next.Some? && v.cursor.next.value < l.buf.base
    ensures Follows(l.buf, log, Received(l, v))
  {
    KeysAreSync(l.buf, log);
    assert l.buf.End() == |log|;
    hide Legal, PlaceOf, Starting, Holds, Refines, Wf, KeysInside;
    var s := Missed(Resume(l.buf) - v.cursor.next.value, l.buf.keys == []);
    assert ReadShows(l, v.cursor) == [s];
    SeenFollows(l.buf, log, v, TryRecv(l, v.cursor).cursor, s);
  }

  lemma {:induction false} GotFollows(l: Live, cfg: Config, log: seq<Entry>, v: Viewer)
    requires Holds(l, cfg, log) && Follows(l.buf, log, v)
    requires l.version == v.cursor.version && v.cursor.next.Some? && l.buf.base <= v.cursor.next.value < l.buf.End()
    ensures Follows(l.buf, log, Received(l, v))
  {
    assert l.buf.End() == |log| && l.buf.frames == log[l.buf.base..];
    hide Legal, PlaceOf, Starting, Holds, Refines, Wf, KeysInside;
    var at := v.cursor.next.value;
    assert l.buf.frames[at - l.buf.base] == log[at];
    assert ReadShows(l, v.cursor) == [Got(at, log[at])];
    SeenFollows(l.buf, log, v, TryRecv(l, v.cursor).cursor, Got(at, log[at]));
  }

  lemma {:induction false} AsideFollows(l: Live, cfg: Config, log: seq<Entry>, v: Viewer)
    requires Holds(l, cfg, log) && Follows(l.buf, log, v)
    requires TryRecv(l, v.cursor).cursor.next == v.cursor.next
    requires ReadShows(l, v.cursor) == [] || (|ReadShows(l, v.cursor)| == 1 && ReadShows(l, v.cursor)[0].Aside())
    ensures Follows(l.buf, log, Received(l, v))
  {
    hide Legal, PlaceOf, Starting, Holds, ReadShows, TryRecv;
    var shown := ReadShows(l, v.cursor);
    if shown == [] {
      assert v.trace + [] == v.trace;
    } else {
      assert shown == [shown[0]];
      SeenFollows(l.buf, log, v, TryRecv(l, v.cursor).cursor, shown[0]);
    }
  }

  lemma {:induction false} SettledReceives(l: Live, cfg: Config, log: seq<Entry>, v: Viewer)
    requires Holds(l, cfg, log) && Follows(l.buf, log, v)
    requires v.cursor.next.None? ==> l.buf.keys == [] || l.version != v.cursor.version
    ensures Follows(l.buf, log, Received(l, v))
  {
    hide Follows, Holds;
    if l.version == v.cursor.version && v.cursor.next.Some? && v.cursor.next.value < l.buf.End() {
      if v.cursor.next.value < l.buf.base {
        MissedFollows(l, cfg, log, v);
      } else {
        GotFollows(l, cfg, log, v);
      }
    } else {
      AsideFollows(l, cfg, log, v);
    }
  }

  lemma {:induction false} ReceiveFollows(l: Live, cfg: Config, log: seq<Entry>, v: Viewer)
    requires Holds(l, cfg, log) && Follows(l.buf, log, v)
    ensures Follows(l.buf, log, Received(l, v))
  {
    if l.version == v.cursor.version && v.cursor.next.None? && l.buf.keys != [] {
      var s := Viewer(v.cursor.(next := Settled(l, v.cursor)), v.trace + [Joined(l.buf.keys[0])]);
      assert Received(l, v) == Received(l, s) by {
        assert ReadShows(l, v.cursor) == [Joined(l.buf.keys[0])] + ReadShows(l, s.cursor);
        assert v.trace + ([Joined(l.buf.keys[0])] + ReadShows(l, s.cursor)) == s.trace + ReadShows(l, s.cursor);
      }
      hide Follows, Holds;
      SettleFollows(l, cfg, log, v);
      SettledReceives(l, cfg, log, s);
    } else {
      SettledReceives(l, cfg, log, v);
    }
  }

  lemma {:induction false} StepSound(sys: System, s: Step, cfg: Config)
    requires Sound(sys, cfg) && StepOk(s)
    ensures Sound(Next(sys, s, cfg), cfg)
  {
    hide Follows, Holds, Apply, Added, OpOk, Received, Jumping, Subscribed, Wf;
    var n := Next(sys, s, cfg);
    match s
    case Publish(op) =>
      ApplyHolds(sys.live, op, cfg, sys.log);
      forall i | 0 <= i < |sys.viewers|
        ensures Follows(n.live.buf, n.log, n.viewers[i])
      {
        PublishFollows(sys.live.buf, sys.log, n.live.buf, Added(sys.live, op), sys.viewers[i]);
      }
    case Subscribe(start) => SubscribeFollows(sys.live, cfg, sys.log, start);
    case Receive(i) => if i < |sys.viewers| { ReceiveFollows(sys.live, cfg, sys.log, sys.viewers[i]); }
    case Jump(i) => if i < |sys.viewers| { JumpFollows(sys.live, cfg, sys.log, sys.viewers[i]); }
  }

  function Run(sys: System, steps: seq<Step>, cfg: Config): (n: System)
    requires Wf(sys.live.buf) && forall i :: 0 <= i < |steps| ==> StepOk(steps[i])
    ensures Wf(n.live.buf)
    decreases |steps|
  {
    if steps == [] then sys else Run(Next(sys, steps[0], cfg), steps[1..], cfg)
  }

  /** In any interleaving of one publisher and any number of viewers, every viewer's trace is legal. */
  lemma {:induction false} RunSound(sys: System, steps: seq<Step>, cfg: Config)
    requires Sound(sys, cfg) && forall i :: 0 <= i < |steps| ==> StepOk(steps[i])
    ensures Sound(Run(sys, steps, cfg), cfg)
    decreases |steps|
  {
    if steps != [] {
      StepSound(sys, steps[0], cfg);
      hide Sound, Next;
      RunSound(Next(sys, steps[0], cfg), steps[1..], cfg);
    }
  }

  lemma {:induction false} AllRunsSound(steps: seq<Step>, cfg: Config)
    requires forall i :: 0 <= i < |steps| ==> StepOk(steps[i])
    ensures Sound(Run(System(EMPTY, [], []), steps, cfg), cfg)
  {
    RunSound(System(EMPTY, [], []), steps, cfg);
  }

  // ---- What a legal trace means ----

  lemma {:induction false} PlaceGrows(log: seq<Entry>, trace: seq<Seen>, n: nat)
    requires Legal(log, trace) && n <= |trace|
    ensures Legal(log, trace[..n]) && PlaceOf(trace[..n]).pos <= PlaceOf(trace).pos
    decreases |trace|
  {
    if n == |trace| {
      assert trace[..n] == trace;
    } else {
      var init := trace[..|trace| - 1];
      PlaceGrows(log, init, n);
      assert init[..n] == trace[..n];
    }
  }

  /** What is delivered is the log's own, at the place the trace has reached. */
  lemma {:induction false} GotAt(log: seq<Entry>, trace: seq<Seen>, i: nat)
    requires Legal(log, trace) && i < |trace| && trace[i].Got?
    ensures var g := trace[i];
            && PlaceOf(trace[..i]) == Place(g.at, false) && PlaceOf(trace[..i + 1]) == Place(g.at + 1, false)
            && g.at < |log| && g.entry == log[g.at] && (Starting(trace[..i]) ==> g.entry.sync)
  {
    PlaceGrows(log, trace, i + 1);
    var upto := trace[..i + 1];
    assert upto[..|upto| - 1] == trace[..i];
    hide Starting;
  }

  /** Deliveries are a strictly increasing subsequence of the log. */
  lemma {:induction false} DeliveriesIncrease(log: seq<Entry>, trace: seq<Seen>, i: nat, j: nat)
    requires Legal(log, trace) && i < j < |trace| && trace[i].Got? && trace[j].Got?
    ensures trace[i].at < trace[j].at < |log|
    ensures trace[i].entry == log[trace[i].at] && trace[j].entry == log[trace[j].at]
  {
    GotAt(log, trace, i);
    GotAt(log, trace, j);
    PlaceGrows(log, trace, j);
    PlaceGrows(log, trace[..j], i + 1);
    assert trace[..j][..i + 1] == trace[..i + 1];
  }

  /** Between two deliveries with no lag or jump seen, nothing of the log is missing. */
  lemma {:induction false} RunsAreContiguous(log: seq<Entry>, trace: seq<Seen>, i: nat, j: nat)
    requires Legal(log, trace) && i < j < |trace| && trace[i].Got? && trace[j].Got?
    requires forall m :: i < m < j ==> trace[m].Aside()
    ensures trace[j].at == trace[i].at + 1
  {
    GotAt(log, trace, i);
    GotAt(log, trace, j);
    AsideStays(trace, i + 1, j);
  }

  lemma {:induction false} AsideStays(trace: seq<Seen>, lo: nat, hi: nat)
    requires lo <= hi <= |trace|
    requires forall m :: lo <= m < hi ==> trace[m].Aside()
    ensures PlaceOf(trace[..hi]) == PlaceOf(trace[..lo])
    ensures Starting(trace[..hi]) == Starting(trace[..lo])
    decreases hi
  {
    if lo < hi {
      AsideStays(trace, lo, hi - 1);
      assert trace[..hi][..hi - 1] == trace[..hi - 1];
    }
  }

  /** The first delivery after joining, lagging or jumping is a join point. */
  lemma {:induction false} StartsOnAJoinPoint(log: seq<Entry>, trace: seq<Seen>, i: nat, j: nat)
    requires Legal(log, trace) && i < j < |trace| && !trace[i].Got? && !trace[i].Aside() && trace[j].Got?
    requires forall m :: i < m < j ==> trace[m].Aside()
    ensures trace[j].entry.sync
  {
    GotAt(log, trace, j);
    AsideStays(trace, i + 1, j);
    assert trace[..i + 1][..i] == trace[..i];
  }

  /** What was delivered, plus what was reported as skipped. */
  function Accounted(trace: seq<Seen>): int
    decreases |trace|
  {
    if trace == [] then 0 else
      Accounted(trace[..|trace| - 1]) +
      match trace[|trace| - 1]
      case Got(_, _) => 1
      case Missed(skipped, _) => skipped
      case Jumped(skipped) => skipped
      case _ => 0
  }

  /**
    Skip counts are exact while a join point is buffered: joined plus delivered plus skipped is where the viewer is.
   */
  lemma {:induction false} SkippedIsExact(log: seq<Entry>, trace: seq<Seen>)
    requires Legal(log, trace) && trace != [] && trace[0].Joined?
    requires forall m :: 0 <= m < |trace| ==> trace[m].Missed? ==> !trace[m].waits
    ensures PlaceOf(trace) == Place(trace[0].at + Accounted(trace), false)
    decreases |trace|
  {
    var init := trace[..|trace| - 1];
    if init != [] {
      SkippedIsExact(log, init);
    } else {
      assert PlaceOf(trace) == Moved(PlaceOf(init), trace[0]);
    }
  }

  // ---- Draining ----

  /** How many events the viewer has left. */
  function Remaining(l: Live, c: Cursor): nat
    requires c.next.Some? ==> c.next.value <= l.buf.End()
    requires l.buf.keys != [] ==> l.buf.keys[0] <= l.buf.End()
  {
    var items := if l.buf.keys == [] then 0 else l.buf.End() - l.buf.keys[0];
    (if l.version != c.version then 1 else 0) +
    (if c.next.None? then items
     else if c.next.value < l.buf.base then 1 + items
     else l.buf.End() - c.next.value)
  }

  /** Each read takes one of what remains; when nothing does, it is the end of an ended stream, or nothing yet. */
  lemma {:induction false} ReadTakesOne(l: Live, c: Cursor)
    requires KeysInside(l.buf) && (c.next.Some? ==> c.next.value <= l.buf.End())
    ensures var r := TryRecv(l, c);
            && (r.cursor.next.Some? ==> r.cursor.next.value <= l.buf.End())
            && (l.buf.keys != [] ==> l.buf.keys[0] <= l.buf.End())
            && (if Remaining(l, c) == 0 then r.event == (if l.ended then Some(Finished) else None)
                 && Remaining(l, r.cursor) == 0
                else r.event.Some? && r.event != Some(Finished) && Remaining(l, r.cursor) == Remaining(l, c) - 1)
  {
    if l.buf.keys != [] {
      assert l.buf.base <= l.buf.keys[0] < l.buf.End();
      assert Resume(l.buf) == l.buf.keys[0];
    }
    hide KeysInside;
  }

  /**
    The backlog is what remains to be read, but for a track change, once the viewer has joined; a lag costs one read
    more.
   */
  lemma {:induction false} BacklogIsWhatRemains(l: Live, c: Cursor)
    requires KeysInside(l.buf) && c.next.Some? && c.next.value <= l.buf.End() && l.version == c.version
    requires l.buf.keys != [] ==> l.buf.keys[0] == l.buf.base
    ensures l.buf.keys != [] ==> l.buf.keys[0] <= l.buf.End()
    ensures c.next.value >= l.buf.base ==> Remaining(l, c) == Backlog(l, c)
    ensures c.next.value < l.buf.base ==> Remaining(l, c) == 1 + if l.buf.keys == [] then 0 else Backlog(l, c)
  {
    if l.buf.keys != [] {
      assert l.buf.base <= l.buf.keys[0] < l.buf.End();
    }
  }

  function ReadAll(l: Live, c: Cursor, n: nat): (d: Cursor)
    decreases n
  {
    if n == 0 then c else ReadAll(l, TryRecv(l, c).cursor, n - 1)
  }

  /** An ended stream is drained in exactly `Remaining` reads, and every read after that says so. */
  lemma {:induction false} EndIsReached(l: Live, c: Cursor, n: nat)
    requires KeysInside(l.buf) && (c.next.Some? ==> c.next.value <= l.buf.End()) && l.ended
    ensures l.buf.keys != [] ==> l.buf.keys[0] <= l.buf.End()
    ensures TryRecv(l, ReadAll(l, c, n)).event == Some(Finished) <==> n >= Remaining(l, c)
    decreases n
  {
    ReadTakesOne(l, c);
    hide KeysInside, TryRecv, Remaining;
    if n > 0 {
      EndIsReached(l, TryRecv(l, c).cursor, n - 1);
    }
  }
}
