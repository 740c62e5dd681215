/**
  Where live audio is cut for the recogniser: once there is enough at a pause, and when there is too much at the
  quietest spot. What a frame's loudness is, is left open.
 */
module Chunker {
  import opened Util

  /** 20 ms of samples at 16 kHz. */
  const FRAME := 320

  /** The energy of a stretch of this many frames is compared when a chunk is full. */
  const SPAN := 5

  const FRAMES_A_SECOND := 50

  type Pcm = seq<int>

  /** Lengths in samples; `quiet` and `energy` stand for the RMS of the source. */
  datatype Config = Config(min: nat, max: nat, pause: nat, quiet: Pcm -> bool, energy: Pcm -> real)

  /** `start` is the index of the first buffered sample. */
  datatype State = State(buf: Pcm, start: nat)

  /** Where a stretch of input went; silence is part of a stretch of quiet frames, `within`. */
  datatype Span = Chunk(start: nat, pcm: Pcm) | Silence(start: nat, pcm: Pcm, within: Pcm)

  /** The frame at index `i` of the buffer. */
  function FrameAt(buf: Pcm, i: nat): Pcm
    requires (i + 1) * FRAME <= |buf|
  {
    buf[i * FRAME..(i + 1) * FRAME]
  }

  /** A pause once there is `min`: the middle of the quiet run that reaches the pause length. */
  function PauseCut(cfg: Config, buf: Pcm, i: nat, run: nat): Option<nat>
    requires run <= i
    decreases |buf| - i
  {
    if (i + 1) * FRAME > |buf| then None else
      var now, end := if cfg.quiet(FrameAt(buf, i)) then run + 1 else 0, (i + 1) * FRAME;
      if now >= CeilDiv(cfg.pause, FRAME) && end - now * FRAME / 2 >= cfg.min then Some(end - now * FRAME / 2)
      else if end >= cfg.max then None
      else PauseCut(cfg, buf, i + 1, now)
  }

  /** The first of the quietest stretches beginning at frames `from` to `to` (exclusive). */
  function Quietest(cfg: Config, buf: Pcm, from: nat, end: nat): (q: nat)
    requires from < end && (end - 1 + SPAN) * FRAME <= |buf|
    ensures from <= q < end
    ensures forall k :: from <= k < end ==> Energy(cfg, buf, q) <= Energy(cfg, buf, k)
    ensures forall k :: from <= k < q ==> Energy(cfg, buf, q) < Energy(cfg, buf, k)
    decreases end
  {
    if end == from + 1 then from else
      var q := Quietest(cfg, buf, from, end - 1);
      if Energy(cfg, buf, end - 1) < Energy(cfg, buf, q) then end - 1 else q
  }

  function Energy(cfg: Config, buf: Pcm, a: nat): real
    requires (a + SPAN) * FRAME <= |buf|
  {
    cfg.energy(buf[a * FRAME..(a + SPAN) * FRAME])
  }

  function SatSub(a: nat, b: nat): nat {
    if a >= b then a - b else 0
  }

  /** Where a full buffer is cut: halfway into the quietest run of frames of its last second. */
  function FullCut(cfg: Config, buf: Pcm): (cut: nat)
    requires |buf| >= cfg.max
    ensures cut <= cfg.max
  {
    var last := cfg.max / FRAME;
    var from := Max(SatSub(last, FRAMES_A_SECOND), cfg.min / FRAME);
    var best := if from < SatSub(last, SPAN) then Quietest(cfg, buf, from, last - SPAN) + SPAN / 2 + 1 else last;
    Min(best * FRAME, cfg.max)
  }

  function FindCut(cfg: Config, buf: Pcm): Option<nat> {
    var pause := PauseCut(cfg, buf, 0, 0);
    if pause.Some? then pause
    else if |buf| < cfg.max then None
    else Some(FullCut(cfg, buf))
  }

  /** Every frame of the stretch is quiet; its last may be short. */
  predicate AllQuiet(cfg: Config, pcm: Pcm)
    decreases |pcm|
  {
    pcm == [] || (cfg.quiet(pcm[..Min(FRAME, |pcm|)]) && AllQuiet(cfg, pcm[Min(FRAME, |pcm|)..]))
  }

  function SpanOf(cfg: Config, start: nat, pcm: Pcm): Span {
    if AllQuiet(cfg, pcm) then Silence(start, pcm, pcm) else Chunk(start, pcm)
  }

  // ---- The cuts make progress ----

  lemma {:induction false} PauseCutBounds(cfg: Config, buf: Pcm, i: nat, run: nat)
    requires run <= i && (i > 0 ==> i * FRAME < cfg.max)
    ensures var c := PauseCut(cfg, buf, i, run);
            c.Some? ==> 0 < c.value <= |buf| && cfg.min <= c.value && (cfg.max > 0 ==> c.value < cfg.max + FRAME)
    decreases |buf| - i
  {
    if (i + 1) * FRAME <= |buf| && (i + 1) * FRAME < cfg.max {
      PauseCutBounds(cfg, buf, i + 1, if cfg.quiet(FrameAt(buf, i)) then run + 1 else 0);
    }
  }

  /** Every cut takes at least one sample and no more than there are, if a chunk may be a frame long. */
  lemma {:induction false} CutProgress(cfg: Config, buf: Pcm)
    requires cfg.max >= FRAME
    ensures FindCut(cfg, buf).Some? ==> 0 < FindCut(cfg, buf).value <= |buf|
  {
    PauseCutBounds(cfg, buf, 0, 0);
    FullCutIs(cfg, buf);
  }

  lemma {:induction false} FullCutIs(cfg: Config, buf: Pcm)
    ensures |buf| >= cfg.max >= FRAME ==> FullCut(cfg, buf) > 0
    ensures |buf| >= cfg.max && cfg.min + FRAME <= cfg.max ==> FullCut(cfg, buf) >= cfg.min
    ensures |buf| >= cfg.max && cfg.max < FRAME ==> FullCut(cfg, buf) == 0
  {
    var last := cfg.max / FRAME;
    assert last * FRAME <= cfg.max < (last + 1) * FRAME;
    assert cfg.min < (cfg.min / FRAME + 1) * FRAME;
  }

  /** With room for a frame between the limits, every cut lies between `min` and one frame over `max`. */
  lemma {:induction false} CutBounds(cfg: Config, buf: Pcm)
    requires cfg.min + FRAME <= cfg.max
    ensures var c := FindCut(cfg, buf); c.Some? ==> cfg.min <= c.value < cfg.max + FRAME && c.value <= |buf|
  {
    PauseCutBounds(cfg, buf, 0, 0);
    FullCutIs(cfg, buf);
  }

  /** The source's loop ends for every input exactly when a chunk may be at least a frame long. */
  lemma {:induction false} CutsEndExactly(cfg: Config)
    ensures cfg.max >= FRAME <==> forall buf: Pcm :: FindCut(cfg, buf) != Some(0)
  {
    if cfg.max >= FRAME {
      forall buf: Pcm
        ensures FindCut(cfg, buf) != Some(0)
      {
        CutProgress(cfg, buf);
      }
    } else {
      var buf := seq(cfg.max, _ => 0);
      assert PauseCut(cfg, buf, 0, 0) == None;
      FullCutIs(cfg, buf);
      assert FindCut(cfg, buf) == Some(0);
    }
  }

  /** The source's loop ends on this buffer: none of the cuts it comes to is empty. */
  predicate Ends(cfg: Config, buf: Pcm)
    decreases |buf|
  {
    var cut := FindCut(cfg, buf);
    cut.None? || (0 < cut.value <= |buf| && Ends(cfg, buf[cut.value..]))
  }

  /** It does on every buffer, exactly if a chunk may be a frame long. */
  lemma {:induction false} EndsExactly(cfg: Config)
    ensures cfg.max >= FRAME <==> forall buf: Pcm :: Ends(cfg, buf)
  {
    if cfg.max >= FRAME {
      forall buf: Pcm
        ensures Ends(cfg, buf)
      {
        LongEnoughEnds(cfg, buf);
      }
    } else {
      CutsEndExactly(cfg);
      var buf: Pcm :| FindCut(cfg, buf) == Some(0);
      assert !Ends(cfg, buf);
    }
  }

  lemma {:induction false} LongEnoughEnds(cfg: Config, buf: Pcm)
    requires cfg.max >= FRAME
    ensures Ends(cfg, buf)
    decreases |buf|
  {
    hide FindCut;
    CutProgress(cfg, buf);
    if FindCut(cfg, buf).Some? {
      LongEnoughEnds(cfg, buf[FindCut(cfg, buf).value..]);
    }
  }

  // ---- The operations ----

  function Cuts(cfg: Config, s: State): (State, seq<Span>)
    requires Ends(cfg, s.buf)
    decreases |s.buf|
  {
    var cut := FindCut(cfg, s.buf);
    if cut.None? then (s, []) else
      var rest := Cuts(cfg, State(s.buf[cut.value..], s.start + cut.value));
      (rest.0, [SpanOf(cfg, s.start, s.buf[..cut.value])] + rest.1)
  }

  /** How many whole frames at the beginning are quiet. */
  function Lead(cfg: Config, buf: Pcm): (n: nat)
    ensures n * FRAME <= |buf|
    decreases |buf|
  {
    if |buf| >= FRAME && cfg.quiet(buf[..FRAME]) then 1 + Lead(cfg, buf[FRAME..]) else 0
  }

  /** Leading silence beyond the pause length never waits. */
  function DropLead(cfg: Config, s: State): (State, seq<Span>) {
    var quiet := Lead(cfg, s.buf) * FRAME;
    if quiet > cfg.pause then
      var drop := quiet - cfg.pause;
      (State(s.buf[drop..], s.start + drop), [Silence(s.start, s.buf[..drop], s.buf[..quiet])])
    else (s, [])
  }

  function Push(cfg: Config, s: State, pcm: Pcm): (State, seq<Span>)
    requires Ends(cfg, s.buf + pcm)
  {
    var cuts := Cuts(cfg, State(s.buf + pcm, s.start));
    var lead := DropLead(cfg, cuts.0);
    (lead.0, cuts.1 + lead.1)
  }

  function Flush(cfg: Config, s: State): (State, Span) {
    (State([], s.start + |s.buf|), SpanOf(cfg, s.start, s.buf))
  }

  /** The chunks among the spans. */
  function Chunks(spans: seq<Span>): seq<Span>
    decreases |spans|
  {
    if spans == [] then [] else
      var last := spans[|spans| - 1];
      Chunks(spans[..|spans| - 1]) + if last.Chunk? then [last] else []
  }

  class Chunker {
    const cfg: Config
    var buf: Pcm
    var start: nat

    function Now(): State
      reads this
    {
      State(buf, start)
    }

    constructor (cfg: Config)
      ensures this.cfg == cfg && Now() == State([], 0)
    {
      this.cfg := cfg;
      buf, start := [], 0;
    }

    function Position(): nat
      reads this
    {
      start + |buf|
    }

    method PauseFrom() returns (cut: Option<nat>)
      ensures cut == PauseCut(cfg, buf, 0, 0)
    {
      var i, run := 0, 0;
      while (i + 1) * FRAME <= |buf|
        invariant 0 <= run <= i && PauseCut(cfg, buf, 0, 0) == PauseCut(cfg, buf, i, run)
        decreases |buf| - i
      {
        run := if cfg.quiet(FrameAt(buf, i)) then run + 1 else 0;
        var end := (i + 1) * FRAME;
        if run >= CeilDiv(cfg.pause, FRAME) && end - run * FRAME / 2 >= cfg.min {
          return Some(end - run * FRAME / 2);
        }
        if end >= cfg.max {
          return None;
        }
        i := i + 1;
      }
      cut := None;
    }

    method Cut() returns (cut: Option<nat>)
      ensures cut == FindCut(cfg, buf)
    {
      cut := PauseFrom();
      if cut.None? && |buf| >= cfg.max {
        cut := Some(FullCut(cfg, buf));
      }
    }

    method CutAll() returns (out: seq<Span>)
      requires Ends(cfg, buf)
      modifies this
      ensures Now() == Cuts(cfg, old(Now())).0 && out == Chunks(Cuts(cfg, old(Now())).1)
    {
      hide FindCut, SpanOf, Cuts, Chunks, Ends;
      out := [];
      ghost var first := Now();
      ghost var spans: seq<Span> := [];
      ChunksNone();
      var cut := Cut();
      while cut.Some?
        invariant Ends(cfg, buf) && cut == FindCut(cfg, buf) && out == Chunks(spans)
        invariant Cuts(cfg, first).0 == Cuts(cfg, Now()).0 && Cuts(cfg, first).1 == spans + Cuts(cfg, Now()).1
        decreases |buf|
      {
        CutsStep(cfg, Now());
        var span := SpanOf(cfg, start, buf[..cut.value]);
        ChunksSnoc(spans, span);
        buf, start := buf[cut.value..], start + cut.value;
        if span.Chunk? {
          out := out + [span];
        }
        spans := spans + [span];
        cut := Cut();
      }
      CutsStep(cfg, Now());
      assert spans + [] == spans;
    }

    method Feed(pcm: Pcm) returns (out: seq<Span>)
      requires Ends(cfg, buf + pcm)
      modifies this
      ensures Now() == Push(cfg, old(Now()), pcm).0 && out == Chunks(Push(cfg, old(Now()), pcm).1)
    {
      hide Cuts, Chunks, Lead, Ends;
      buf := buf + pcm;
      ghost var spans := Cuts(cfg, Now()).1;
      out := CutAll();
      var quiet := Lead(cfg, buf) * FRAME;
      ghost var lead := DropLead(cfg, Now()).1;
      if quiet > cfg.pause {
        var drop := quiet - cfg.pause;
        buf, start := buf[drop..], start + drop;
        ChunksSnoc(spans, lead[0]);
      } else {
        assert spans + [] == spans;
      }
    }

    method Finish() returns (out: Option<Span>)
      modifies this
      ensures Now() == Flush(cfg, old(Now())).0
      ensures var span := Flush(cfg, old(Now())).1; out == if span.Chunk? then Some(span) else None
    {
      var span := SpanOf(cfg, start, buf);
      start := start + |buf|;
      buf := [];
      out := if span.Chunk? then Some(span) else None;
    }

    method Reset(position: nat)
      modifies this
      ensures Now() == State([], position)
    {
      buf, start := [], position;
    }
  }

  lemma {:induction false} ChunksNone()
    ensures Chunks([]) == []
  {}

  lemma {:induction false} CutsStep(cfg: Config, s: State)
    requires Ends(cfg, s.buf)
    ensures var cut := FindCut(cfg, s.buf);
            if cut.None? then Cuts(cfg, s) == (s, [])
            else 0 < cut.value <= |s.buf| && Ends(cfg, s.buf[cut.value..]) &&
                 var rest := Cuts(cfg, State(s.buf[cut.value..], s.start + cut.value));
                 Cuts(cfg, s).0 == rest.0 && Cuts(cfg, s).1 == [SpanOf(cfg, s.start, s.buf[..cut.value])] + rest.1
  {
    hide FindCut, SpanOf;
  }

  lemma {:induction false} ChunksSnoc(spans: seq<Span>, s: Span)
    ensures Chunks(spans + [s]) == Chunks(spans) + if s.Chunk? then [s] else []
  {
    assert (spans + [s])[..|spans|] == spans;
  }

  // ---- Conservation ----

  function Flat(spans: seq<Span>): Pcm
    decreases |spans|
  {
    if spans == [] then [] else spans[0].pcm + Flat(spans[1..])
  }

  /** The spans follow on each other from `start`; silence lies in quiet frames, and no chunk is all quiet. */
  ghost predicate Accounted(cfg: Config, spans: seq<Span>, start: nat)
    decreases |spans|
  {
    spans == [] ||
    (spans[0].start == start
     && (if spans[0].Silence? then spans[0].pcm <= spans[0].within && AllQuiet(cfg, spans[0].within)
         else !AllQuiet(cfg, spans[0].pcm))
     && Accounted(cfg, spans[1..], start + |spans[0].pcm|))
  }

  lemma {:induction false} SpanAccounted(cfg: Config, start: nat, pcm: Pcm)
    ensures Accounted(cfg, [SpanOf(cfg, start, pcm)], start) && Flat([SpanOf(cfg, start, pcm)]) == pcm
  {
    var span := SpanOf(cfg, start, pcm);
    assert [span][1..] == [];
    assert Flat([span]) == span.pcm + Flat([]);
  }

  lemma {:induction false} AccountedAdd(cfg: Config, a: seq<Span>, b: seq<Span>, start: nat)
    requires Accounted(cfg, a, start) && Accounted(cfg, b, start + |Flat(a)|)
    ensures Accounted(cfg, a + b, start) && Flat(a + b) == Flat(a) + Flat(b)
    decreases |a|
  {
    hide AllQuiet, Accounted, Flat;
    if a == [] {
      assert a + b == b;
      NoSpans();
    } else {
      AccountedCons(cfg, a, start);
      AccountedAdd(cfg, a[1..], b, start + |a[0].pcm|);
      assert (a + b)[1..] == a[1..] + b && (a + b)[0] == a[0];
      AccountedCons(cfg, a + b, start);
    }
  }

  lemma {:induction false} NoSpans()
    ensures Flat([]) == []
  {}

  lemma {:induction false} NothingAccounted(cfg: Config, start: nat)
    ensures Accounted(cfg, [], start)
  {}

  lemma {:induction false} AccountedCons(cfg: Config, a: seq<Span>, start: nat)
    requires a != []
    ensures Flat(a) == a[0].pcm + Flat(a[1..])
    ensures Accounted(cfg, a, start) <==>
      a[0].start == start
      && (if a[0].Silence? then a[0].pcm <= a[0].within && AllQuiet(cfg, a[0].within) else !AllQuiet(cfg, a[0].pcm))
      && Accounted(cfg, a[1..], start + |a[0].pcm|)
  {
    hide AllQuiet;
  }

  lemma {:induction false} CutsConserve(cfg: Config, s: State)
    requires Ends(cfg, s.buf)
    ensures var (t, spans) := Cuts(cfg, s);
            Flat(spans) + t.buf == s.buf && Accounted(cfg, spans, s.start) && t.start == s.start + |Flat(spans)|
            && FindCut(cfg, t.buf).None?
    decreases |s.buf|
  {
    hide FindCut, SpanOf, AllQuiet, Cuts, Ends, Accounted, Flat;
    var cut := FindCut(cfg, s.buf);
    CutsStep(cfg, s);
    NoSpans();
    NothingAccounted(cfg, s.start);
    if cut.Some? {
      var next := State(s.buf[cut.value..], s.start + cut.value);
      CutsConserve(cfg, next);
      var span := SpanOf(cfg, s.start, s.buf[..cut.value]);
      SpanAccounted(cfg, s.start, s.buf[..cut.value]);
      AccountedAdd(cfg, [span], Cuts(cfg, next).1, s.start);
      assert s.buf == s.buf[..cut.value] + s.buf[cut.value..];
    }
  }

  lemma {:induction false} LeadIsQuiet(cfg: Config, buf: Pcm)
    ensures AllQuiet(cfg, buf[..Lead(cfg, buf) * FRAME])
    decreases |buf|
  {
    if |buf| >= FRAME && cfg.quiet(buf[..FRAME]) {
      LeadIsQuiet(cfg, buf[FRAME..]);
      var n := Lead(cfg, buf) * FRAME;
      assert buf[..n][..FRAME] == buf[..FRAME] && buf[..n][FRAME..] == buf[FRAME..][..n - FRAME];
    }
  }

  /**
    Every sample pushed lands, in order, in exactly one chunk, in one stretch of silence, or in the buffer,
    and the sample indices say where.
   */
  lemma {:induction false} PushConserves(cfg: Config, s: State, pcm: Pcm)
    requires Ends(cfg, s.buf + pcm)
    ensures var (t, spans) := Push(cfg, s, pcm);
            Flat(spans) + t.buf == s.buf + pcm && Accounted(cfg, spans, s.start) && t.start == s.start + |Flat(spans)|
  {
    hide AllQuiet, Cuts, Lead, Ends;
    var whole := State(s.buf + pcm, s.start);
    CutsConserve(cfg, whole);
    var (t, spans) := Cuts(cfg, whole);
    var (u, lead) := DropLead(cfg, t);
    LeadIsQuiet(cfg, t.buf);
    if lead != [] {
      assert lead[1..] == [];
      assert Flat(lead) == lead[0].pcm + Flat([]);
      assert t.buf == lead[0].pcm + u.buf;
    } else {
      assert Flat(lead) == [];
    }
    AccountedAdd(cfg, spans, lead, s.start);
  }

  /** The loop ends in each of the pushes. */
  predicate PushesEnd(cfg: Config, s: State, pieces: seq<Pcm>)
    decreases |pieces|
  {
    pieces == [] || (Ends(cfg, s.buf + pieces[0]) && PushesEnd(cfg, Push(cfg, s, pieces[0]).0, pieces[1..]))
  }

  function PushAll(cfg: Config, s: State, pieces: seq<Pcm>): (State, seq<Span>)
    requires PushesEnd(cfg, s, pieces)
    decreases |pieces|
  {
    if pieces == [] then (s, []) else
      var one := Push(cfg, s, pieces[0]);
      var rest := PushAll(cfg, one.0, pieces[1..]);
      (rest.0, one.1 + rest.1)
  }

  function Joined(pieces: seq<Pcm>): Pcm {
    if pieces == [] then [] else pieces[0] + Joined(pieces[1..])
  }

  lemma {:induction false} Regroup(a: Pcm, b: Pcm, c: Pcm, d: Pcm, e: Pcm, f: Pcm, g: Pcm)
    requires a + b == c + d && f + g == b + e
    ensures a + f + g == c + (d + e)
  {
    assert a + f + g == a + (f + g) == a + b + e == c + (d + e);
  }

  /** Over any run of pushes. */
  lemma {:induction false} RunConserves(cfg: Config, s: State, pieces: seq<Pcm>)
    requires PushesEnd(cfg, s, pieces)
    ensures var (t, spans) := PushAll(cfg, s, pieces);
            Flat(spans) + t.buf == s.buf + Joined(pieces) && Accounted(cfg, spans, s.start)
              && t.start == s.start + |Flat(spans)|
    decreases |pieces|
  {
    hide Push, AllQuiet, Ends;
    if pieces == [] {
      assert s.buf + Joined(pieces) == s.buf;
    } else {
      PushConserves(cfg, s, pieces[0]);
      var (u, one) := Push(cfg, s, pieces[0]);
      RunConserves(cfg, u, pieces[1..]);
      var (t, rest) := PushAll(cfg, u, pieces[1..]);
      AccountedAdd(cfg, one, rest, s.start);
      Regroup(Flat(one), u.buf, s.buf, pieces[0], Joined(pieces[1..]), Flat(rest), t.buf);
    }
  }

  /** Pushed and then flushed, everything is in a chunk or in silence: nothing is left over. */
  lemma {:induction false} PushesThenFlush(cfg: Config, s: State, pieces: seq<Pcm>)
    requires PushesEnd(cfg, s, pieces)
    ensures var (t, spans) := PushAll(cfg, s, pieces);
            var (u, last) := Flush(cfg, t);
            && Flat(spans + [last]) == s.buf + Joined(pieces) && Accounted(cfg, spans + [last], s.start)
            && u == State([], s.start + |s.buf| + |Joined(pieces)|)
  {
    hide PushAll, Joined, AllQuiet;
    RunConserves(cfg, s, pieces);
    var (t, spans) := PushAll(cfg, s, pieces);
    SpanAccounted(cfg, t.start, t.buf);
    AccountedAdd(cfg, spans, [SpanOf(cfg, t.start, t.buf)], s.start);
  }
}
