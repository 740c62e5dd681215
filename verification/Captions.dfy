/**
  Chunks on their way to transcription: held while too short, joined to the stream's newest waiting job, queued,
  transcribed or dropped. None is lost from the count, and a stream's audio keeps its order.
 */
module Captions {
  import opened Util

  const JOB_QUEUE := 4
  const SAMPLE_RATE := 16_000
  const JOB_SAMPLES := 30 * SAMPLE_RATE
  const MIN_ALONE_US := 1_000_000

  type Pcm = seq<int>

  /** A chunk as its stream submitted it, numbered. */
  datatype Part = Part(id: nat, pcm: Pcm)

  /** `parts` is not stored in the source: it remembers the chunks the piece was joined from. */
  datatype Piece = Piece(endUs: int, pcm: Pcm, chunks: nat, parts: seq<Part>) {
    function AudioUs(): int {
      |pcm| * 1_000_000 / SAMPLE_RATE
    }

    function Join(next: Piece): Piece {
      Piece(next.endUs, pcm + next.pcm, chunks + next.chunks, parts + next.parts)
    }
  }

  datatype Job = Job(stream: nat, piece: Piece)

  // ---- The queue ----

  /** The newest waiting job of a stream. */
  function Newest(jobs: seq<Job>, stream: nat): (i: Option<nat>)
    ensures i.Some? ==> i.value < |jobs| && jobs[i.value].stream == stream
    ensures i.Some? ==> forall k :: i.value < k < |jobs| ==> jobs[k].stream != stream
    ensures i.None? ==> forall k :: 0 <= k < |jobs| ==> jobs[k].stream != stream
    decreases |jobs|
  {
    if jobs == [] then None
    else if jobs[|jobs| - 1].stream == stream then Some(|jobs| - 1)
    else Newest(jobs[..|jobs| - 1], stream)
  }

  predicate HasRoom(job: Job, piece: Piece) {
    |job.piece.pcm| + |piece.pcm| <= JOB_SAMPLES
  }

  /** The queue with the piece in it, or `None` when there is no room. */
  function Offered(jobs: seq<Job>, stream: nat, piece: Piece): Option<seq<Job>> {
    var i := Newest(jobs, stream);
    if i.Some? && HasRoom(jobs[i.value], piece) then
      Some(jobs[i.value := Job(stream, jobs[i.value].piece.Join(piece))])
    else if |jobs| >= JOB_QUEUE then None
    else Some(jobs + [Job(stream, piece)])
  }

  /** What the worker gets: no more jobs at all, none yet (the source waits and asks again), or the oldest. */
  datatype Taken = Closed | Wait | Got(job: Job)

  class JobQueue {
    var jobs: seq<Job>
    var closed: bool

    constructor ()
      ensures jobs == [] && !closed
    {
      jobs, closed := [], false;
    }

    method Offer(stream: nat, piece: Piece) returns (taken: bool)
      modifies this`jobs
      ensures taken <==> Offered(old(jobs), stream, piece).Some?
      ensures jobs == if taken then Offered(old(jobs), stream, piece).value else old(jobs)
    {
      var i := |jobs|;
      assert jobs[..i] == jobs;
      while i > 0 && jobs[i - 1].stream != stream
        invariant 0 <= i <= |jobs| && Newest(jobs[..i], stream) == Newest(jobs, stream)
      {
        assert jobs[..i][..i - 1] == jobs[..i - 1];
        i := i - 1;
      }
      assert Newest(jobs, stream) == if i > 0 then Some(i - 1) else None;
      if i > 0 && |jobs[i - 1].piece.pcm| + |piece.pcm| <= JOB_SAMPLES {
        jobs := jobs[i - 1 := Job(stream, jobs[i - 1].piece.Join(piece))];
        return true;
      }
      if |jobs| >= JOB_QUEUE {
        return false;
      }
      jobs := jobs + [Job(stream, piece)];
      taken := true;
    }

    /** One turn of the worker's loop; jobs left when the queue closes stay there. */
    method Next() returns (taken: Taken)
      modifies this`jobs
      ensures taken == if closed then Taken.Closed else if old(jobs) == [] then Wait else Got(old(jobs)[0])
      ensures jobs == if taken.Got? then old(jobs)[1..] else old(jobs)
    {
      if closed {
        return Taken.Closed;
      }
      if jobs == [] {
        return Wait;
      }
      taken := Got(jobs[0]);
      jobs := jobs[1..];
    }

    method Close()
      modifies this`closed
      ensures closed
    {
      closed := true;
    }
  }

  /** What is held, with the piece added. */
  function Added(held: Option<Piece>, piece: Piece): Piece {
    if held.Some? then held.value.Join(piece) else piece
  }

  class Held {
    var piece: Option<Piece>

    constructor ()
      ensures piece == None
    {
      piece := None;
    }

    /** Gives back what is worth transcribing, and holds what is not. */
    method Add(next: Piece) returns (ready: Option<Piece>)
      modifies this
      ensures var all := Added(old(piece), next);
              if all.AudioUs() < MIN_ALONE_US then piece == Some(all) && ready == None
                else piece == None && ready == Some(all)
    {
      var all := next;
      if piece.Some? {
        all := piece.value.Join(next);
      }
      if all.AudioUs() < MIN_ALONE_US {
        piece := Some(all);
        return None;
      }
      piece := None;
      ready := Some(all);
    }

    method Release(now: bool) returns (ready: Option<Piece>)
      modifies this
      ensures if now then piece == None && ready == old(piece) else piece == old(piece) && ready == None
    {
      ready := None;
      if now {
        ready := piece;
        piece := None;
      }
    }
  }

  // ---- All the streams ----

  datatype Tagged = Tagged(stream: nat, part: Part)

  datatype Counts = Counts(chunks: nat, dropped: nat)

  /** The ledgers `submitted`, `done`, `dropped` and `lost` are not stored in the source. */
  datatype System = System(jobs: seq<Job>, closed: bool, held: map<nat, Piece>, counts: map<nat, Counts>, failed: bool,
                           submitted: seq<Tagged>, done: seq<Tagged>, dropped: seq<Tagged>, lost: seq<Tagged>)

  const START := System([], false, map[], map[], false, [], [], [], [])

  datatype Op = Submit(stream: nat, endUs: int, pcm: Pcm) | Release(stream: nat) | RunJob(stale: bool) | Fail | Close

  function Tag(stream: nat, parts: seq<Part>): (t: seq<Tagged>)
    ensures |t| == |parts|
  {
    seq(|parts|, i requires 0 <= i < |parts| => Tagged(stream, parts[i]))
  }

  function Of(list: seq<Tagged>, stream: nat): seq<Part>
    decreases |list|
  {
    if list == [] then [] else (if list[0].stream == stream then [list[0].part] else []) + Of(list[1..], stream)
  }

  function HeldOf(sys: System, stream: nat): Option<Piece> {
    if stream in sys.held then Some(sys.held[stream]) else None
  }

  function CountsOf(sys: System, stream: nat): Counts {
    if stream in sys.counts then sys.counts[stream] else Counts(0, 0)
  }

  function Counted(sys: System, stream: nat, chunks: nat, dropped: nat): map<nat, Counts> {
    var c := CountsOf(sys, stream);
    sys.counts[stream := Counts(c.chunks + chunks, c.dropped + dropped)]
  }

  /** A piece leaves for the queue: in, refused, or given up because the model failed. */
  function Sent(sys: System, stream: nat, piece: Piece): System {
    var offered := Offered(sys.jobs, stream, piece);
    if sys.failed then sys.(lost := sys.lost + Tag(stream, piece.parts))
    else if offered.Some? then sys.(jobs := offered.value)
    else sys.(dropped := sys.dropped + Tag(stream, piece.parts), counts := Counted(sys, stream, 0, piece.chunks))
  }

  function Apply(sys: System, op: Op): System {
    match op
    case Submit(s, endUs, pcm) =>
      var part := Part(|Of(sys.submitted, s)|, pcm);
      var all := Added(HeldOf(sys, s), Piece(endUs, pcm, 1, [part]));
      var next := sys.(submitted := sys.submitted + [Tagged(s, part)], held := sys.held - {s});
      if all.AudioUs() < MIN_ALONE_US then next.(held := next.held[s := all]) else Sent(next, s, all)
    case Release(s) =>
      if HeldOf(sys, s).Some? then Sent(sys.(held := sys.held - {s}), s, sys.held[s]) else sys
    case RunJob(stale) =>
      if sys.closed || sys.jobs == [] then sys else
        var job := sys.jobs[0];
        var next := sys.(jobs := sys.jobs[1..]);
        var tagged := Tag(job.stream, job.piece.parts);
        if stale then next.(dropped := sys.dropped + tagged, counts := Counted(sys, job.stream, 0, job.piece.chunks))
        else next.(done := sys.done + tagged, counts := Counted(sys, job.stream, job.piece.chunks, 0))
    case Fail => sys.(failed := true)
    case Close => sys.(closed := true)
  }

  // ---- One stream's view ----

  datatype View = View(submitted: seq<Part>, done: seq<Part>, queued: seq<Part>, held: seq<Part>, dropped: seq<Part>,
      lost: seq<Part>)

  function QueuedOf(jobs: seq<Job>, stream: nat): seq<Part>
    decreases |jobs|
  {
    if jobs == [] then []
    else (if jobs[0].stream == stream then jobs[0].piece.parts else []) + QueuedOf(jobs[1..], stream)
  }

  function ViewOf(sys: System, s: nat): View {
    View(Of(sys.submitted, s), Of(sys.done, s), QueuedOf(sys.jobs, s), if s in sys.held then sys.held[s].parts else [],
         Of(sys.dropped, s), Of(sys.lost, s))
  }

  /** What is neither dropped nor lost, oldest first. */
  function Live(v: View): seq<Part> {
    v.done + v.queued + v.held
  }

  /**
    A stream's chunks are numbered in the order they came, its live ones are in that order, and none is missing or
    twice.
   */
  ghost predicate Conserved(v: View) {
    && (forall i :: 0 <= i < |v.submitted| ==> v.submitted[i].id == i)
    && (forall i, j :: 0 <= i < j < |Live(v)| ==> Live(v)[i].id < Live(v)[j].id)
    && multiset(Live(v)) + multiset(v.dropped) + multiset(v.lost) == multiset(v.submitted)
  }

  function Flat(parts: seq<Part>): Pcm
    decreases |parts|
  {
    if parts == [] then [] else parts[0].pcm + Flat(parts[1..])
  }

  /** A piece is its chunks' audio, one after the other, and counts them. */
  predicate PieceOk(p: Piece) {
    p.chunks == |p.parts| && p.pcm == Flat(p.parts)
  }

  lemma {:induction false} FlatAdd(a: seq<Part>, b: seq<Part>)
    ensures Flat(a + b) == Flat(a) + Flat(b)
    decreases |a|
  {
    if a == [] {
      assert a + b == b;
    } else {
      FlatAdd(a[1..], b);
      assert (a + b)[1..] == a[1..] + b;
    }
  }

  lemma {:induction false} JoinOk(a: Piece, b: Piece)
    requires PieceOk(a) && PieceOk(b)
    ensures PieceOk(a.Join(b))
  {
    FlatAdd(a.parts, b.parts);
  }

  lemma {:induction false} AddedOk(held: Option<Piece>, endUs: int, part: Part)
    requires held.Some? ==> PieceOk(held.value)
    ensures PieceOk(Added(held, Piece(endUs, part.pcm, 1, [part])))
  {
    assert [part][1..] == [];
    assert Flat([part]) == part.pcm + Flat([]);
    if held.Some? {
      JoinOk(held.value, Piece(endUs, part.pcm, 1, [part]));
    }
  }

  ghost predicate Ok(sys: System) {
    && |sys.jobs| <= JOB_QUEUE
    && (forall i :: 0 <= i < |sys.jobs| ==> PieceOk(sys.jobs[i].piece))
    && (forall s :: s in sys.held ==> PieceOk(sys.held[s]) && sys.held[s].AudioUs() < MIN_ALONE_US)
    && (!sys.failed ==> sys.lost == [])
  }

  /** Everything kept by every step: conservation and order for every stream, and counters that count. */
  ghost predicate Sound(sys: System) {
    && Ok(sys)
    && forall s: nat :: Conserved(ViewOf(sys, s)) && Tallied(sys, s)
  }

  ghost predicate Tallied(sys: System, s: nat) {
    CountsOf(sys, s) == Counts(|Of(sys.done, s)|, |Of(sys.dropped, s)|)
  }

  // ---- Steps of a view ----

  lemma {:induction false} Arrives(v: View, p: Part)
    requires Conserved(v) && p.id == |v.submitted|
    ensures Conserved(v.(submitted := v.submitted + [p], held := v.held + [p]))
  {
    hide Live;
    var w := v.(submitted := v.submitted + [p], held := v.held + [p]);
    LiveIs(v);
    LiveIs(w);
    AddAssoc(v.done + v.queued, v.held, [p]);
    forall i | 0 <= i < |Live(v)|
      ensures Live(v)[i].id < p.id
    {
      assert Live(v)[i] in multiset(v.submitted);
    }
    MoreConserved(Live(v), v.submitted, v.dropped, v.lost, p);
  }

  lemma {:induction false} MoreConserved(live: seq<Part>, submitted: seq<Part>, dropped: seq<Part>, lost: seq<Part>,
          p: Part)
    requires multiset(live) + multiset(dropped) + multiset(lost) == multiset(submitted)
    ensures multiset(live + [p]) + multiset(dropped) + multiset(lost) == multiset(submitted + [p])
  {}

  lemma {:induction false} Enters(v: View)
    requires Conserved(v)
    ensures Conserved(v.(queued := v.queued + v.held, held := []))
  {
    var w := v.(queued := v.queued + v.held, held := []);
    assert Live(w) == Live(v);
  }

  lemma {:induction false} Leaves(v: View, drop: bool)
    requires Conserved(v)
    ensures Conserved(if drop then v.(dropped := v.dropped + v.held, held := [])
      else v.(lost := v.lost + v.held, held := []))
  {
    var w := if drop then v.(dropped := v.dropped + v.held, held := []) else v.(lost := v.lost + v.held, held := []);
    assert Live(v) == Live(w) + v.held;
    assert forall i :: 0 <= i < |Live(w)| ==> Live(w)[i] == Live(v)[i];
  }

  lemma {:induction false} Finishes(v: View, n: nat)
    requires Conserved(v) && n <= |v.queued|
    ensures Conserved(v.(done := v.done + v.queued[..n], queued := v.queued[n..]))
  {
    SameLive(v.done, v.queued, v.held, n);
  }

  lemma {:induction false} SameLive(a: seq<Part>, b: seq<Part>, c: seq<Part>, n: nat)
    requires n <= |b|
    ensures a + b[..n] + b[n..] + c == a + b + c
  {}

  lemma {:induction false} Stales(v: View, n: nat)
    requires Conserved(v) && n <= |v.queued|
    ensures Conserved(v.(dropped := v.dropped + v.queued[..n], queued := v.queued[n..]))
  {
    CutOut(v.done, v.queued[..n], v.queued[n..], v.held);
    QueueSplits(v.done, v.queued, v.held, n);
    hide Live;
    LiveIs(v);
    LiveIs(v.(dropped := v.dropped + v.queued[..n], queued := v.queued[n..]));
  }

  lemma {:induction false} LiveIs(v: View)
    ensures Live(v) == v.done + v.queued + v.held
  {}

  lemma {:induction false} QueueSplits(a: seq<Part>, b: seq<Part>, c: seq<Part>, n: nat)
    requires n <= |b|
    ensures a + b + c == a + b[..n] + b[n..] + c
  {}

  /** A stretch taken out of a list takes its members out and leaves the others in order. */
  lemma {:induction false} CutOut(a: seq<Part>, out: seq<Part>, b: seq<Part>, c: seq<Part>)
    ensures multiset(a + out + b + c) == multiset(a + b + c) + multiset(out)
    ensures forall i :: 0 <= i < |a + b + c| ==> (a + b + c)[i] == (a + out + b + c)[if i < |a| then i else i + |out|]
  {
    assert multiset(a + out + b + c) == multiset(a) + multiset(out) + multiset(b) + multiset(c);
    assert multiset(a + b + c) == multiset(a) + multiset(b) + multiset(c);
  }

  // ---- The ledgers ----

  lemma {:induction false} OfAdd(a: seq<Tagged>, b: seq<Tagged>, s: nat)
    ensures Of(a + b, s) == Of(a, s) + Of(b, s)
    decreases |a|
  {
    hide Of;
    OfStep(a, s);
    if a == [] {
      assert a + b == b && [] + Of(b, s) == Of(b, s);
    } else {
      OfAdd(a[1..], b, s);
      OfStep(a + b, s);
      assert (a + b)[1..] == a[1..] + b && (a + b)[0] == a[0];
      AddAssoc(if a[0].stream == s then [a[0].part] else [], Of(a[1..], s), Of(b, s));
    }
  }

  lemma {:induction false} OfStep(list: seq<Tagged>, s: nat)
    ensures Of(list, s) == if list == [] then []
      else (if list[0].stream == s then [list[0].part] else []) + Of(list[1..], s)
  {}

  lemma {:induction false} OfTag(t: nat, parts: seq<Part>, s: nat)
    ensures Of(Tag(t, parts), s) == if s == t then parts else []
    decreases |parts|
  {
    if parts != [] {
      OfTag(t, parts[1..], s);
      assert Tag(t, parts)[1..] == Tag(t, parts[1..]);
      assert parts == [parts[0]] + parts[1..];
    }
  }

  lemma {:induction false} OfMore(list: seq<Tagged>, t: nat, parts: seq<Part>, s: nat)
    ensures Of(list + Tag(t, parts), s) == if s == t then Of(list, s) + parts else Of(list, s)
  {
    OfAdd(list, Tag(t, parts), s);
    OfTag(t, parts, s);
  }

  lemma {:induction false} QueuedAdd(a: seq<Job>, b: seq<Job>, s: nat)
    ensures QueuedOf(a + b, s) == QueuedOf(a, s) + QueuedOf(b, s)
    decreases |a|
  {
    hide QueuedOf;
    QueuedStep(a, s);
    if a == [] {
      assert a + b == b && [] + QueuedOf(b, s) == QueuedOf(b, s);
    } else {
      QueuedAdd(a[1..], b, s);
      QueuedStep(a + b, s);
      assert (a + b)[1..] == a[1..] + b && (a + b)[0] == a[0];
      AddAssoc(if a[0].stream == s then a[0].piece.parts else [], QueuedOf(a[1..], s), QueuedOf(b, s));
    }
  }

  lemma {:induction false} QueuedStep(jobs: seq<Job>, s: nat)
    ensures QueuedOf(jobs, s) == if jobs == [] then []
      else (if jobs[0].stream == s then jobs[0].piece.parts else []) + QueuedOf(jobs[1..], s)
  {}

  lemma {:induction false} QueuedOne(job: Job, s: nat)
    ensures QueuedOf([job], s) == if job.stream == s then job.piece.parts else []
  {
    assert [job][1..] == [];
  }

  lemma {:induction false} QueuedNone(jobs: seq<Job>, s: nat)
    requires forall k :: 0 <= k < |jobs| ==> jobs[k].stream != s
    ensures QueuedOf(jobs, s) == []
    decreases |jobs|
  {
    if jobs != [] {
      QueuedNone(jobs[1..], s);
    }
  }

  /** A piece taken by the queue comes last of its stream's parts, and no other stream sees a change. */
  lemma {:induction false} OfferedIs(jobs: seq<Job>, t: nat, piece: Piece, s: nat)
    requires Offered(jobs, t, piece).Some?
    ensures QueuedOf(Offered(jobs, t, piece).value, s) == QueuedOf(jobs, s) + if s == t then piece.parts else []
  {
    hide QueuedOf, HasRoom;
    var i, now := Newest(jobs, t), Offered(jobs, t, piece).value;
    if i.Some? && HasRoom(jobs[i.value], piece) {
      var n := i.value;
      var joined := Job(t, jobs[n].piece.Join(piece));
      QueuedAt(jobs, n, jobs[n], s);
      QueuedAt(jobs, n, joined, s);
      assert jobs[n := jobs[n]] == jobs;
      if s == t {
        QueuedNone(jobs[n + 1..], s);
      }
    } else {
      QueuedAdd(jobs, [Job(t, piece)], s);
      QueuedOne(Job(t, piece), s);
    }
  }

  lemma {:induction false} QueuedAt(jobs: seq<Job>, n: nat, job: Job, s: nat)
    requires n < |jobs|
    ensures QueuedOf(jobs[n := job], s)
         == QueuedOf(jobs[..n], s) + (if job.stream == s then job.piece.parts else []) + QueuedOf(jobs[n + 1..], s)
  {
    hide QueuedOf;
    assert jobs[n := job] == jobs[..n] + [job] + jobs[n + 1..];
    QueuedAdd(jobs[..n] + [job], jobs[n + 1..], s);
    QueuedAdd(jobs[..n], [job], s);
    QueuedOne(job, s);
  }

  // ---- Every step ----

  /** A piece held by nobody else leaves: the view of its stream, and of every other. */
  lemma {:induction false} SentView(sys: System, t: nat, piece: Piece, s: nat)
    requires t !in sys.held
    ensures var v, w := ViewOf(sys, s), ViewOf(Sent(sys, t, piece), s);
            if s != t then w == v
            else w == v.(queued := v.queued + piece.parts) || w == v.(dropped := v.dropped + piece.parts)
                 || (sys.failed && w == v.(lost := v.lost + piece.parts))
  {
    hide Of, QueuedOf, Offered, Tag;
    if sys.failed {
      OfMore(sys.lost, t, piece.parts, s);
    } else if Offered(sys.jobs, t, piece).Some? {
      OfferedIs(sys.jobs, t, piece, s);
      assert QueuedOf(sys.jobs, s) + [] == QueuedOf(sys.jobs, s);
    } else {
      OfMore(sys.dropped, t, piece.parts, s);
    }
  }

  lemma {:induction false} SentConserves(sys: System, t: nat, piece: Piece, s: nat)
    requires t !in sys.held
    requires var v := ViewOf(sys, s); Conserved(if s == t then v.(held := piece.parts) else v)
    ensures Conserved(ViewOf(Sent(sys, t, piece), s))
  {
    hide Conserved, Sent, Of, QueuedOf;
    SentView(sys, t, piece, s);
    if s == t {
      var v := ViewOf(sys, s).(held := piece.parts);
      Enters(v);
      Leaves(v, true);
      Leaves(v, false);
    }
  }

  lemma {:induction false} SentTallies(sys: System, t: nat, piece: Piece, s: nat)
    requires Tallied(sys, s) && PieceOk(piece)
    ensures Tallied(Sent(sys, t, piece), s)
  {
    hide Of, Offered, Tag, Flat;
    OfMore(sys.dropped, t, piece.parts, s);
  }

  lemma {:induction false} SentOk(sys: System, t: nat, piece: Piece)
    requires Ok(sys) && PieceOk(piece)
    ensures Ok(Sent(sys, t, piece))
  {
    hide PieceOk;
    var i := Newest(sys.jobs, t);
    if i.Some? {
      JoinOk(sys.jobs[i.value].piece, piece);
    }
  }

  lemma {:induction false} StepConserves(sys: System, op: Op, s: nat)
    requires Conserved(ViewOf(sys, s)) && Ok(sys)
    ensures Conserved(ViewOf(Apply(sys, op), s))
  {
    hide Conserved, Sent, Of, QueuedOf, Ok, Tag;
    match op
    case Submit(t, endUs, pcm) =>
      var part := Part(|Of(sys.submitted, t)|, pcm);
      var all := Added(HeldOf(sys, t), Piece(endUs, pcm, 1, [part]));
      var next := sys.(submitted := sys.submitted + [Tagged(t, part)], held := sys.held - {t});
      assert [Tagged(t, part)] == Tag(t, [part]) by { TagOne(t, part); }
      OfMore(sys.submitted, t, [part], s);
      if s == t {
        Arrives(ViewOf(sys, s), part);
        assert all.parts == ViewOf(sys, s).held + [part];
        assert ViewOf(next, s).(held := all.parts) ==
          ViewOf(sys, s).(submitted := Of(sys.submitted, s) + [part], held := all.parts);
      } else {
        assert ViewOf(next, s) == ViewOf(sys, s);
      }
      if all.AudioUs() >= MIN_ALONE_US {
        SentConserves(next, t, all, s);
      }
    case Release(t) =>
      if t in sys.held {
        var next := sys.(held := sys.held - {t});
        assert s == t ==> ViewOf(next, s).(held := sys.held[t].parts) == ViewOf(sys, s);
        assert s != t ==> ViewOf(next, s) == ViewOf(sys, s);
        SentConserves(next, t, sys.held[t], s);
      }
    case RunJob(stale) =>
      if !sys.closed && sys.jobs != [] {
        JobConserves(sys, stale, s);
      }
    case _ =>
  }

  lemma {:induction false} TagOne(t: nat, part: Part)
    ensures Tag(t, [part]) == [Tagged(t, part)]
  {}

  lemma {:induction false} JobConserves(sys: System, stale: bool, s: nat)
    requires Conserved(ViewOf(sys, s)) && !sys.closed && sys.jobs != []
    ensures Conserved(ViewOf(Apply(sys, RunJob(stale)), s))
  {
    hide Conserved, Of, QueuedOf, Tag;
    var job, v := sys.jobs[0], ViewOf(sys, s);
    OfMore(sys.dropped, job.stream, job.piece.parts, s);
    OfMore(sys.done, job.stream, job.piece.parts, s);
    QueuedOne(job, s);
    QueuedAdd([job], sys.jobs[1..], s);
    assert [job] + sys.jobs[1..] == sys.jobs;
    if s == job.stream {
      var n := |job.piece.parts|;
      assert v.queued[..n] == job.piece.parts && v.queued[n..] == QueuedOf(sys.jobs[1..], s);
      Stales(v, n);
      Finishes(v, n);
    } else {
      assert [] + QueuedOf(sys.jobs[1..], s) == QueuedOf(sys.jobs[1..], s);
    }
  }

  lemma {:induction false} StepTallies(sys: System, op: Op, s: nat)
    requires Tallied(sys, s) && Ok(sys)
    ensures Tallied(Apply(sys, op), s)
  {
    hide Of, Offered, Sent, Tag, Flat;
    match op
    case Submit(t, endUs, pcm) =>
      var all := Added(HeldOf(sys, t), Piece(endUs, pcm, 1, [Part(|Of(sys.submitted, t)|, pcm)]));
      var next := sys.(submitted := sys.submitted + [Tagged(t, Part(|Of(sys.submitted, t)|, pcm))],
        held := sys.held - {t});
      AddedOk(HeldOf(sys, t), endUs, Part(|Of(sys.submitted, t)|, pcm));
      SentTallies(next, t, all, s);
    case Release(t) =>
      if t in sys.held {
        SentTallies(sys.(held := sys.held - {t}), t, sys.held[t], s);
      }
    case RunJob(stale) =>
      if sys.jobs != [] {
        var job := sys.jobs[0];
        OfMore(sys.dropped, job.stream, job.piece.parts, s);
        OfMore(sys.done, job.stream, job.piece.parts, s);
      }
    case _ =>
  }

  lemma {:induction false} StepOk(sys: System, op: Op)
    requires Ok(sys)
    ensures Ok(Apply(sys, op))
  {
    hide Sent, Of, PieceOk;
    match op
    case Submit(t, endUs, pcm) =>
      var all := Added(HeldOf(sys, t), Piece(endUs, pcm, 1, [Part(|Of(sys.submitted, t)|, pcm)]));
      AddedOk(HeldOf(sys, t), endUs, Part(|Of(sys.submitted, t)|, pcm));
      SentOk(sys.(submitted := sys.submitted + [Tagged(t, Part(|Of(sys.submitted, t)|, pcm))], held := sys.held - {t}),
        t, all);
    case Release(t) =>
      if t in sys.held {
        SentOk(sys.(held := sys.held - {t}), t, sys.held[t]);
      }
    case _ =>
  }

  function Run(sys: System, ops: seq<Op>): System
    decreases |ops|
  {
    if ops == [] then sys else Run(Apply(sys, ops[0]), ops[1..])
  }

  /**
    Over any run: every chunk a stream submitted is held, in one queued job, transcribed, or counted dropped,
    exactly once and, while the model has not failed, nowhere else; what is not dropped keeps the stream's order.
   */
  lemma {:induction false} RunSound(sys: System, ops: seq<Op>)
    requires Sound(sys)
    ensures Sound(Run(sys, ops))
    decreases |ops|
  {
    hide Conserved, Tallied, ViewOf, Ok, Apply;
    if ops != [] {
      StepOk(sys, ops[0]);
      forall s: nat
        ensures Conserved(ViewOf(Apply(sys, ops[0]), s)) && Tallied(Apply(sys, ops[0]), s)
      {
        StepConserves(sys, ops[0], s);
        StepTallies(sys, ops[0], s);
      }
      RunSound(Apply(sys, ops[0]), ops[1..]);
    }
  }

  lemma {:induction false} StartSound()
    ensures Sound(START)
  {}

  /**
    From the start, over any run; and once nothing is held or queued, every chunk was transcribed or is counted as
    not.
   */
  lemma {:induction false} EveryRunSound(ops: seq<Op>, s: nat)
    ensures var sys := Run(START, ops);
            && Sound(sys)
            && (sys.jobs == [] && s !in sys.held && !sys.failed ==>
                |Of(sys.submitted, s)| == CountsOf(sys, s).chunks + CountsOf(sys, s).dropped)
  {
    hide Run, Ok;
    StartSound();
    RunSound(START, ops);
    var sys := Run(START, ops);
    var v := ViewOf(sys, s);
    assert Conserved(v) && Tallied(sys, s);
    if sys.jobs == [] && s !in sys.held && !sys.failed {
      NothingLost(sys, s);
      assert Live(v) == v.done;
      assert |multiset(v.done) + multiset(v.dropped) + multiset(v.lost)| == |v.done| + |v.dropped| + |v.lost|;
      assert |multiset(v.submitted)| == |v.submitted|;
    }
  }

  lemma {:induction false} NothingLost(sys: System, s: nat)
    requires Ok(sys) && !sys.failed
    ensures Of(sys.lost, s) == []
  {}
}
