/** An LL-HLS client against the packager: blocking reloads fetch every part once, in order. */
module Follow {
  import opened Util
  import opened Fmp4
  import opened PackagerModel
  import opened PlaylistWindow
  import opened PackagerInvariants
  import opened PackagerSteps
  import opened PackagerTheorems
  import opened Playlist

  // ---- The server's answer to a blocking reload ----

  /** The reload for part `next` has what it waits for. */
  predicate Satisfied(p: Pkg, next: Coord) {
    p.ended || (LastPart(p.win.segments).Some? && AtMost(next, LastPart(p.win.segments).value))
  }

  /** There is something to put in a playlist. */
  predicate Worthwhile(p: Pkg) {
    p.inits.init.Some? && LastPart(p.win.segments).Some?
  }

  /** The reload for part `next` is answered now. */
  predicate Answered(p: Pkg, next: Coord) {
    Satisfied(p, next) && Worthwhile(p)
  }

  /**
    The reload for part `next` is refused because `next` lies beyond what the live edge allows (section 6.2.5.2 of
    RFC 8216bis).
   */
  predicate Refused(p: Pkg, next: Coord) {
    var edge := NextPart(p.win);
    next.0 > edge.0 + 2 || (next.0 == edge.0 && next.1 > edge.1 + 2)
  }

  function ApplyAll(p: Pkg, ops: seq<Op>): (q: Pkg)
    requires Wf(p)
    ensures Wf(q)
    decreases |ops|
  {
    if ops == [] then p else ApplyAll(Apply(p, ops[0]), ops[1..])
  }

  // ---- The client ----

  /** The next part to ask for, and every part fetched so far. */
  datatype State = State(next: Coord, fetched: seq<Coord>)

  function At(part: ListedPart): Coord {
    (part.msn, part.idx)
  }

  /** The listed parts from `next` on. */
  function Fresh(parts: seq<ListedPart>, next: Coord): seq<ListedPart> {
    if parts == [] then []
    else (if AtMost(next, At(parts[0])) then [parts[0]] else []) + Fresh(parts[1..], next)
  }

  function CoordsOf(parts: seq<ListedPart>): (c: seq<Coord>)
    ensures |c| == |parts| && forall i :: 0 <= i < |c| ==> c[i] == At(parts[i])
  {
    seq(|parts|, i requires 0 <= i < |parts| => At(parts[i]))
  }

  function After(last: Coord, openMsn: nat): Coord {
    if last.0 < openMsn then (last.0 + 1, 0) else (last.0, last.1 + 1)
  }

  function Answer(c: State, pl: MediaPlaylist): State {
    var unseen := Fresh(pl.parts, c.next);
    if unseen == [] then c
    else State(After(At(unseen[|unseen| - 1]), pl.openMsn), c.fetched + CoordsOf(unseen))
  }

  /** The client starts at the newest listed part. */
  function Join(pl: MediaPlaylist): State
    requires pl.parts != []
  {
    Answer(State(At(pl.parts[|pl.parts| - 1]), []), pl)
  }

  class Client {
    var next: Coord
    var fetched: seq<Coord>

    function Now(): State
      reads this
    {
      State(next, fetched)
    }

    constructor (pl: MediaPlaylist)
      requires pl.parts != []
      ensures Now() == State(At(pl.parts[|pl.parts| - 1]), [])
    {
      next := At(pl.parts[|pl.parts| - 1]);
      fetched := [];
    }

    method NewParts(parts: seq<ListedPart>) returns (unseen: seq<ListedPart>)
      ensures unseen == Fresh(parts, next)
    {
      unseen := [];
      for i := 0 to |parts|
        invariant unseen + Fresh(parts[i..], next) == Fresh(parts, next)
      {
        assert parts[i..][0] == parts[i] && parts[i..][1..] == parts[i + 1..];
        if AtMost(next, At(parts[i])) {
          unseen := unseen + [parts[i]];
        }
      }
      assert parts[|parts|..] == [];
    }

    method Fetch(parts: seq<ListedPart>)
      modifies this`fetched
      ensures fetched == old(fetched) + CoordsOf(parts)
    {
      for i := 0 to |parts|
        invariant fetched == old(fetched) + CoordsOf(parts)[..i]
      {
        fetched := fetched + [At(parts[i])];
      }
      assert CoordsOf(parts)[..|parts|] == CoordsOf(parts);
    }

    /** Fetches what is new in a playlist and moves on. */
    method Step(pl: MediaPlaylist)
      modifies this
      ensures Now() == Answer(old(Now()), pl)
    {
      hide Fresh, CoordsOf;
      var unseen := NewParts(pl.parts);
      if unseen != [] {
        Fetch(unseen);
        var last := unseen[|unseen| - 1];
        next := if last.msn < pl.openMsn then (last.msn + 1, 0) else (last.msn, last.idx + 1);
      }
    }
  }

  // ---- The history, ordered ----

  predicate Less(a: Coord, b: Coord) {
    a.0 < b.0 || (a.0 == b.0 && a.1 < b.1)
  }

  lemma {:induction false} ChainSorted(coords: seq<Coord>, next: Coord, i: nat)
    requires SuccessorChain(coords, next) && i < |coords|
    ensures Less(coords[i], next) && forall j :: i < j < |coords| ==> Less(coords[i], coords[j])
    decreases |coords| - i
  {
    if i + 1 < |coords| {
      ChainSorted(coords, next, i + 1);
      assert Successor(coords[i], coords[i + 1]);
    }
  }

  /** The history of `q` continues the one of `p`: new parts only, from `NextPart(p.win)` on. */
  ghost predicate Continues(p: Pkg, q: Pkg) {
    && Grows(p.win, q.win)
    && Extends(Coords(All(p.win)), Coords(All(q.win)), NextPart(p.win))
    && (Coords(All(p.win)) == Coords(All(q.win)) ==> NextPart(q.win) == NextPart(p.win))
  }

  lemma {:induction false} ContinuesTrans(p: Pkg, q: Pkg, r: Pkg)
    requires Continues(p, q) && Continues(q, r)
    ensures Continues(p, r)
  {
    hide Grows, Coords, All, NextPart;
    GrowsTrans(p.win, q.win, r.win);
  }

  lemma {:induction false} ApplyContinues(p: Pkg, op: Op)
    requires Ready(p)
    ensures Ready(Apply(p, op)) && Continues(p, Apply(p, op))
  {
    hide Ready, Apply, Grows, Coords, All, NextPart;
    ApplyReady(p, op);
    NextPartCloses(p, op);
  }

  /** What several operations publish, and that they change nothing already published. */
  lemma {:induction false} ApplyAllExtends(p: Pkg, ops: seq<Op>)
    requires Ready(p)
    ensures Ready(ApplyAll(p, ops)) && Continues(p, ApplyAll(p, ops))
    decreases |ops|
  {
    if ops == [] {
      GrowsRefl(p.win);
    } else {
      ApplyContinues(p, ops[0]);
      hide Ready, Apply, Continues;
      ApplyAllExtends(Apply(p, ops[0]), ops[1..]);
      ContinuesTrans(p, Apply(p, ops[0]), ApplyAll(p, ops));
    }
  }

  // ---- What the playlist lists of the history ----

  lemma {:induction false} CoordsOfAdd(a: seq<ListedPart>, b: seq<ListedPart>)
    ensures CoordsOf(a + b) == CoordsOf(a) + CoordsOf(b)
  {}

  lemma {:induction false} CoordsOfSegment(seg: Segment)
    ensures CoordsOf(PartsOf(seg, 0)) == PartCoords(seg.msn, |seg.parts|)
  {}

  lemma {:induction false} ListedStep(segments: seq<Segment>, i: nat)
    requires i < |segments| <= i + PART_SEGMENTS
    ensures Listed(segments, i) == PartsOf(segments[i], 0) + Listed(segments, i + 1)
  {}

  lemma {:induction false} CoordsStep(all: seq<Segment>, n: nat)
    requires n < |all|
    ensures Coords(all[..n + 1]) == Coords(all[..n]) + PartCoords(n, |all[n].parts|)
  {
    assert all[..n + 1][..n] == all[..n];
  }

  /** `segments` are the last ones of `all`. */
  lemma {:induction false} ListedSuffix(all: seq<Segment>, segments: seq<Segment>, i: nat, n: nat)
    requires i <= |segments| <= i + PART_SEGMENTS && |segments| - i == |all| - n && n <= |all|
    requires forall k :: i <= k < |segments| ==> segments[k] == all[n + (k - i)]
    requires forall k :: 0 <= k < |all| ==> all[k].msn == k
    ensures Coords(all) == Coords(all[..n]) + CoordsOf(Listed(segments, i))
    decreases |segments| - i
  {
    hide Coords, CoordsOf, PartsOf, PartCoords;
    if i == |segments| {
      assert all[..n] == all;
      assert Listed(segments, i) == [];
      hide Listed;
      assert CoordsOf([]) == [];
    } else {
      hide Listed;
      ListedSuffix(all, segments, i + 1, n + 1);
      ListedStep(segments, i);
      CoordsStep(all, n);
      CoordsOfAdd(PartsOf(all[n], 0), Listed(segments, i + 1));
      CoordsOfSegment(all[n]);
    }
  }

  lemma {:induction false} ListedSkips(segments: seq<Segment>, i: nat)
    requires i <= |segments| - PART_SEGMENTS
    ensures Listed(segments, i) == Listed(segments, |segments| - PART_SEGMENTS)
    decreases |segments| - i
  {
    if i < |segments| - PART_SEGMENTS {
      ListedSkips(segments, i + 1);
    }
  }

  /** Where in the history the listed parts begin: with the first part of the third newest segment. */
  function ListedFrom(w: Window): nat {
    if |All(w)| < PART_SEGMENTS then 0 else |All(w)| - PART_SEGMENTS
  }

  /** The whole playlist's parts: those of the newest `PART_SEGMENTS` segments there ever were. */
  lemma {:induction false} ListedInHistory(all: seq<Segment>, segments: seq<Segment>)
    requires |segments| <= |all| && segments == all[|all| - |segments|..]
    requires |segments| < |all| ==> |segments| >= WINDOW
    requires forall k :: 0 <= k < |all| ==> all[k].msn == k
    ensures var k := if |all| < PART_SEGMENTS then 0 else |all| - PART_SEGMENTS;
            Coords(all) == Coords(all[..k]) + CoordsOf(Listed(segments, 0))
  {
    hide Coords, Listed, CoordsOf;
    var i := if |segments| < PART_SEGMENTS then 0 else |segments| - PART_SEGMENTS;
    var n := |all| - |segments| + i;
    if i > 0 {
      ListedSkips(segments, 0);
    }
    forall k | i <= k < |segments|
      ensures segments[k] == all[n + (k - i)]
    {}
    ListedSuffix(all, segments, i, n);
  }

  lemma {:induction false} ListedOfWindow(w: Window)
    requires WindowOk(w)
    ensures Coords(All(w)) == Coords(All(w)[..ListedFrom(w)]) + CoordsOf(Listed(w.segments, 0))
  {
    hide Coords, Listed, CoordsOf, WindowOk, All;
    WindowHistory(w);
    ListedInHistory(All(w), w.segments);
  }

  lemma {:induction false} ListedIsSuffix(p: Pkg)
    requires Ready(p)
    ensures var all, k := All(p.win), ListedFrom(p.win);
            Coords(all) == Coords(all[..k]) + CoordsOf(Parse(Render(p)).parts)
  {
    hide Ready, Parse, Render, Coords, Listed, CoordsOf, Wf, WindowOk, NextPart, ListedFrom, All;
    ReadyWindow(p);
    ParseOfRender(p);
    ListedOfWindow(p.win);
  }

  lemma {:induction false} WindowHistory(w: Window)
    requires WindowOk(w)
    ensures |w.segments| <= |All(w)| && w.segments == All(w)[|All(w)| - |w.segments|..]
    ensures |w.segments| < |All(w)| ==> |w.segments| >= WINDOW
    ensures forall k :: 0 <= k < |All(w)| ==> All(w)[k].msn == k
  {
    hide Joined, Duration, Round, Flagged;
  }

  lemma {:induction false} FreshIs(parts: seq<ListedPart>, next: Coord, k: nat)
    requires k <= |parts|
    requires forall i :: 0 <= i < k ==> !AtMost(next, At(parts[i]))
    requires forall i :: k <= i < |parts| ==> AtMost(next, At(parts[i]))
    ensures Fresh(parts, next) == parts[k..]
  {
    if parts != [] {
      FreshIs(parts[1..], next, if k > 0 then k - 1 else 0);
      if k == 0 {
        assert parts == [parts[0]] + parts[1..];
      }
    }
  }

  // ---- Exactly once ----

  /** The client has fetched the history from its `from`th part on, in order, and asks for the next part to close. */
  ghost predicate Tracks(p: Pkg, c: State, from: nat) {
    && from <= |Coords(All(p.win))|
    && c.fetched == Coords(All(p.win))[from..]
    && c.next == NextPart(p.win)
  }

  lemma {:induction false} PrefixLength(all: seq<Segment>, k: nat)
    requires k <= |all|
    ensures Coords(all[..k]) <= Coords(all)
    decreases |all| - k
  {
    if k < |all| {
      PrefixLength(all, k + 1);
      assert all[..k + 1][..k] == all[..k];
    } else {
      assert all[..k] == all;
    }
  }

  /**
    Of the parts listed, exactly the ones not fetched yet are fetched, provided the segment of the next
    part still lists its parts: at most two newer segments have opened.
   */
  lemma {:induction false} FreshIsNew(coords: seq<Coord>, edge: Coord, listed: seq<ListedPart>, have: nat, next: Coord)
    requires SuccessorChain(coords, edge)
    requires |listed| <= |coords| && CoordsOf(listed) == coords[|coords| - |listed|..]
    requires |coords| - |listed| <= have <= |coords|
    requires if have < |coords| then next == coords[have] else next == edge
    ensures CoordsOf(Fresh(listed, next)) == coords[have..]
  {
    var skip := |coords| - |listed|;
    forall i | 0 <= i < |listed|
      ensures AtMost(next, At(listed[i])) <==> i >= have - skip
    {
      assert At(listed[i]) == CoordsOf(listed)[i] == coords[skip + i];
      ChainSorted(coords, edge, skip + i);
      if have < |coords| {
        ChainSorted(coords, edge, have);
      }
    }
    FreshIs(listed, next, have - skip);
    assert CoordsOf(listed[have - skip..]) == CoordsOf(listed)[have - skip..];
  }

  /** What the client can rely on in a playlist, said of the history alone. */
  lemma {:induction false} PlaylistFacts(q: Pkg)
    requires Ready(q)
    ensures var coords, listed := Coords(All(q.win)), Parse(Render(q)).parts;
            && SuccessorChain(coords, NextPart(q.win))
            && |listed| <= |coords| && CoordsOf(listed) == coords[|coords| - |listed|..]
            && (forall i :: 0 <= i < |coords| ==> (i >= |coords| - |listed| <==> coords[i].0 >= ListedFrom(q.win)))
            && Parse(Render(q)).openMsn == NextPart(q.win).0
            && NextPart(q.win).0 + 1 >= |All(q.win)|
  {
    PartsFormAChain(q);
    ListedIsSuffix(q);
    ParseOfRender(q);
    NextPartIsNextCoord(q.win);
    hide Ready, Parse, Render, Coords, NextPart;
    var k := ListedFrom(q.win);
    PrefixLength(All(q.win), k);
    CoordsBelow(All(q.win)[..k]);
    ListedAbove(All(q.win), k);
  }

  lemma {:induction false} TailSplits(older: seq<Coord>, coords: seq<Coord>, from: nat)
    requires older <= coords && from <= |older|
    ensures coords[from..] == older[from..] + coords[|older|..]
  {}

  lemma {:induction false} EdgeFollows(coords: seq<Coord>, edge: Coord)
    requires SuccessorChain(coords, edge) && coords != []
    ensures Successor(coords[|coords| - 1], edge)
  {}

  /** An answer on the level of the history: what was fetched grows to all of it. */
  lemma {:induction false} AnswerCatchesUp(older: seq<Coord>, coords: seq<Coord>, edge: Coord, c: State,
          pl: MediaPlaylist, from: nat)
    requires SuccessorChain(coords, edge) && Extends(older, coords, c.next) && (older == coords ==> edge == c.next)
    requires from <= |older| && c.fetched == older[from..]
    requires |coords| - |older| <= |pl.parts| <= |coords| && CoordsOf(pl.parts) == coords[|coords| - |pl.parts|..]
    requires pl.openMsn == edge.0
    ensures Answer(c, pl) == State(edge, coords[from..])
  {
    assert if |older| < |coords| then c.next == coords[|older|] else c.next == edge;
    hide Fresh, SuccessorChain, CoordsOf, AtMost, Answer, After, Successor;
    FreshIsNew(coords, edge, pl.parts, |older|, c.next);
    AnswerIs(c, pl, coords[|older|..]);
    TailSplits(older, coords, from);
    if older != coords {
      EdgeFollows(coords, edge);
      AfterIs(coords[|coords| - 1], edge);
    }
  }

  lemma {:induction false} AnswerIs(c: State, pl: MediaPlaylist, unseen: seq<Coord>)
    requires CoordsOf(Fresh(pl.parts, c.next)) == unseen
    ensures Answer(c, pl) == if unseen == [] then c
      else State(After(unseen[|unseen| - 1], pl.openMsn), c.fetched + unseen)
  {
    hide Fresh, After;
    var parts := Fresh(pl.parts, c.next);
    assert parts != [] ==> At(parts[|parts| - 1]) == unseen[|unseen| - 1];
  }

  lemma {:induction false} AfterIs(last: Coord, edge: Coord)
    requires Successor(last, edge)
    ensures After(last, edge.0) == edge
  {}

  lemma {:induction false} AnswerAt(p: Pkg, q: Pkg, c: State, from: nat)
    requires Ready(q) && Tracks(p, c, from) && Continues(p, q)
    requires c.next.0 + PART_SEGMENTS >= |All(q.win)|
    ensures Tracks(q, Answer(c, Parse(Render(q))), from)
  {
    hide Ready, Parse, Render, Coords, NextPart, Answer, CoordsOf;
    PlaylistFacts(q);
    var older, coords, pl := Coords(All(p.win)), Coords(All(q.win)), Parse(Render(q));
    assert older != coords ==> coords[|older|] == c.next;
    hide All, ListedFrom, SuccessorChain, Extends;
    AnswerCatchesUp(older, coords, NextPart(q.win), c, pl, from);
  }

  /** One answer, after any operations since the last one. */
  lemma {:induction false} AnswerTracks(p: Pkg, ops: seq<Op>, c: State, from: nat)
    requires Ready(p) && Tracks(p, c, from)
    requires c.next.0 + PART_SEGMENTS >= |All(ApplyAll(p, ops).win)|
    ensures var q := ApplyAll(p, ops); Tracks(q, Answer(c, Parse(Render(q))), from)
  {
    ApplyAllExtends(p, ops);
    hide Ready, ApplyAll, Continues, Answer, Parse, Render;
    AnswerAt(p, ApplyAll(p, ops), c, from);
  }

  // ---- When an answer comes ----

  lemma {:induction false} CoordsSnoc(all: seq<Segment>)
    requires all != []
    ensures Coords(all) == Coords(all[..|all| - 1]) + PartCoords(|all| - 1, |all[|all| - 1].parts|)
  {}

  /** The newest part of the window is the newest there ever was. */
  lemma {:induction false} NewestCoord(w: Window)
    requires WindowOk(w)
    ensures var coords := Coords(All(w));
            LastPart(w.segments) == if coords == [] then None else Some(coords[|coords| - 1])
  {
    hide WindowOk, Coords, LastPart, All;
    WindowHistory(w);
    PublishedAll(w);
    NewestOf(All(w), w.segments);
  }

  lemma {:induction false} NewestOf(all: seq<Segment>, s: seq<Segment>)
    requires Published(all) && (all != [] ==> s != [])
    requires |s| <= |all| && s == all[|all| - |s|..] && (|s| < |all| ==> |s| >= WINDOW)
    requires forall k :: 0 <= k < |all| ==> all[k].msn == k
    ensures var coords := Coords(all); LastPart(s) == if coords == [] then None else Some(coords[|coords| - 1])
  {
    hide Coords, LastPart, Published, PartCoords;
    if all == [] {
      NoCoords();
      NoLastPart();
    } else {
      assert s[|s| - 1] == all[|all| - 1];
      LastPartStep(s);
      CoordsSnoc(all);
      LastCoord(|all| - 1, |all[|all| - 1].parts|);
      if all[|all| - 1].parts == [] {
        EmptyNewest(all, s);
        assert Coords(all[..|all| - 1]) + [] == Coords(all[..|all| - 1]);
      }
    }
  }

  lemma {:induction false} LastCoord(msn: nat, parts: nat)
    ensures |PartCoords(msn, parts)| == parts && (parts > 0 ==> PartCoords(msn, parts)[parts - 1] == (msn, parts - 1))
  {}

  lemma {:induction false} LastPartStep(s: seq<Segment>)
    requires s != []
    ensures var last := s[|s| - 1];
            LastPart(s) == if last.parts != [] then Some((last.msn, |last.parts| - 1)) else LastPart(s[..|s| - 1])
  {}

  /** With a newest segment that has no part yet, the newest part is the last one of the segment before. */
  lemma {:induction false} EmptyNewest(all: seq<Segment>, s: seq<Segment>)
    requires Published(all) && all != [] && all[|all| - 1].parts == []
    requires 1 <= |s| <= |all| && s == all[|all| - |s|..] && (|s| < |all| ==> |s| >= WINDOW)
    requires forall k :: 0 <= k < |all| ==> all[k].msn == k
    ensures var coords := Coords(all[..|all| - 1]);
            LastPart(s[..|s| - 1]) == if coords == [] then None else Some(coords[|coords| - 1])
  {
    var init, before := all[..|all| - 1], s[..|s| - 1];
    hide Coords, LastPart, PartCoords;
    if init == [] {
      NoCoords();
      NoLastPart();
      assert before == [];
    } else {
      assert before != [] && before[|before| - 1] == init[|init| - 1] == all[|all| - 2];
      CoordsSnoc(init);
      LastCoord(|init| - 1, |init[|init| - 1].parts|);
      LastPartStep(before);
    }
  }

  lemma {:induction false} NoLastPart()
    ensures LastPart([]).None?
  {}

  lemma {:induction false} NoCoords()
    ensures Coords([]) == []
  {}

  lemma {:induction false} PublishedAll(w: Window)
    requires WindowOk(w)
    ensures Published(All(w)) && (All(w) != [] ==> w.segments != [])
  {
    NextPartIsNextCoord(w);
  }

  /** For a client that has everything up to `p`, the reload waits exactly for the first part published after `p`. */
  lemma {:induction false} SatisfiedIsNew(p: Pkg, q: Pkg, next: Coord)
    requires Ready(p) && Ready(q) && Continues(p, q) && next == NextPart(p.win)
    ensures Satisfied(q, next) <==> q.ended || Coords(All(p.win)) != Coords(All(q.win))
  {
    var older, coords := Coords(All(p.win)), Coords(All(q.win));
    PartsFormAChain(q);
    ReadyWindow(q);
    hide Ready, Coords, NextPart, Grows, All, WindowOk, LastPart, SuccessorChain, AtMost;
    NewestCoord(q.win);
    NewestReaches(older, coords, NextPart(q.win), next);
  }

  lemma {:induction false} NewestReaches(older: seq<Coord>, coords: seq<Coord>, edge: Coord, next: Coord)
    requires SuccessorChain(coords, edge) && Extends(older, coords, next) && (older == coords ==> edge == next)
    ensures coords != [] && AtMost(next, coords[|coords| - 1]) <==> older != coords
  {
    if coords != older {
      ChainSorted(coords, edge, |older|);
    } else if coords != [] {
      ChainSorted(coords, edge, |coords| - 1);
    }
  }

  lemma {:induction false} ReadyWindow(p: Pkg)
    requires Ready(p)
    ensures Wf(p) && WindowOk(p.win)
  {
    hide WindowOk, SegmentsOk, Chained, InitsOk, OpenOk, IdleOk, Linked;
  }

  /**
    What the wait means: a client that has fetched everything is answered once the stream has ended or at least
    one part it does not have is published, and no sooner.
   */
  lemma {:induction false} WaitsForNews(p: Pkg, ops: seq<Op>, c: State, from: nat)
    requires Ready(p) && Tracks(p, c, from)
    ensures var q := ApplyAll(p, ops);
            Satisfied(q, c.next) <==> q.ended || Coords(All(p.win)) != Coords(All(q.win))
  {
    ApplyAllExtends(p, ops);
    hide Ready, ApplyAll, Continues, Satisfied;
    SatisfiedIsNew(p, ApplyAll(p, ops), c.next);
  }

  /** Rounds of operations, each closed by an answer the client's request was waiting for. */
  function Session(p: Pkg, c: State, rounds: seq<seq<Op>>): (Pkg, State)
    requires Wf(p)
    decreases |rounds|
  {
    if rounds == [] then (p, c) else
      var q := ApplyAll(p, rounds[0]);
      Session(q, Answer(c, Parse(Render(q))), rounds[1..])
  }

  /** Each request is answered when the server answers it, before three newer segments have opened. */
  ghost predicate InTime(p: Pkg, c: State, rounds: seq<seq<Op>>)
    requires Wf(p)
    decreases |rounds|
  {
    rounds != [] ==>
      var q := ApplyAll(p, rounds[0]);
      && Answered(q, c.next)
      && c.next.0 + PART_SEGMENTS >= |All(q.win)|
      && InTime(q, Answer(c, Parse(Render(q))), rounds[1..])
  }

  /** The rounds answered while the stream had not ended. */
  function LiveRounds(p: Pkg, rounds: seq<seq<Op>>): nat
    requires Wf(p)
    decreases |rounds|
  {
    if rounds == [] then 0 else
      var q := ApplyAll(p, rounds[0]);
      (if q.ended then 0 else 1) + LiveRounds(q, rounds[1..])
  }

  /** The bytes of a part, wherever the server is between `q` and the end of `ops`. */
  ghost predicate Served(q: Pkg, part: ListedPart, ops: seq<Op>)
    requires Wf(q)
  {
    && part.msn < |All(q.win)| && part.idx < |All(q.win)[part.msn].parts|
    && forall n :: 0 <= n <= |ops| ==>
         LookUp(ApplyAll(q, ops[..n]), part.msn, Some(part.idx)) == Found(All(q.win)[part.msn].parts[part.idx].data)
  }

  /** Every part request of a session gets its part, whenever it comes before the next answer. */
  ghost predicate AllServed(p: Pkg, c: State, rounds: seq<seq<Op>>)
    requires Wf(p)
    decreases |rounds|
  {
    |rounds| >= 2 ==>
      var q := ApplyAll(p, rounds[0]);
      && (forall part :: part in Fresh(Parse(Render(q)).parts, c.next) ==> Served(q, part, rounds[1]))
      && AllServed(q, Answer(c, Parse(Render(q))), rounds[1..])
  }

  /**
    Exactly once: over any session, the client has fetched every part since it joined, once each and in order;
    every answer of a live stream brought at least one part, and every part asked for was there.
   */
  lemma {:induction false} ExactlyOnce(p: Pkg, c: State, rounds: seq<seq<Op>>, from: nat)
    requires Ready(p) && Tracks(p, c, from) && InTime(p, c, rounds)
    ensures Tracks(Session(p, c, rounds).0, Session(p, c, rounds).1, from)
    ensures |Session(p, c, rounds).1.fetched| >= |c.fetched| + LiveRounds(p, rounds)
    ensures AllServed(p, c, rounds)
    decreases |rounds|
  {
    if rounds != [] {
      var q := ApplyAll(p, rounds[0]);
      var d := Answer(c, Parse(Render(q)));
      assert Session(p, c, rounds) == Session(q, d, rounds[1..]);
      assert LiveRounds(p, rounds) == (if q.ended then 0 else 1) + LiveRounds(q, rounds[1..]);
      InTimeStep(p, c, rounds);
      AllServedStep(p, c, rounds);
      hide Ready, ApplyAll, Parse, Render, Tracks, Answer, InTime, Session, LiveRounds, AllServed, Satisfied,
        Worthwhile;
      ApplyAllExtends(p, rounds[0]);
      AnswerTracks(p, rounds[0], c, from);
      WaitsForNews(p, rounds[0], c, from);
      FetchesNews(p, q, c, d, from);
      ExactlyOnce(q, d, rounds[1..], from);
      if |rounds| >= 2 {
        RoundServed(q, d, c.next, rounds[1..], from);
      }
    }
  }

  lemma {:induction false} InTimeStep(p: Pkg, c: State, rounds: seq<seq<Op>>)
    requires Wf(p) && rounds != []
    ensures var q := ApplyAll(p, rounds[0]);
            InTime(p, c, rounds) <==>
            && Answered(q, c.next) && c.next.0 + PART_SEGMENTS >= |All(q.win)|
            && InTime(q, Answer(c, Parse(Render(q))), rounds[1..])
  {
    hide ApplyAll, Answered, Answer, Parse, Render, All, Wf;
  }

  lemma {:induction false} AllServedStep(p: Pkg, c: State, rounds: seq<seq<Op>>)
    requires Wf(p) && rounds != []
    ensures var q := ApplyAll(p, rounds[0]);
            AllServed(p, c, rounds) <==> |rounds| >= 2 ==>
              && (forall part :: part in Fresh(Parse(Render(q)).parts, c.next) ==> Served(q, part, rounds[1]))
              && AllServed(q, Answer(c, Parse(Render(q))), rounds[1..])
  {
    hide ApplyAll, Served, Fresh, Answer, Parse, Render, Wf;
  }

  /** New parts are fetched if there are any. */
  lemma {:induction false} FetchesNews(p: Pkg, q: Pkg, c: State, d: State, from: nat)
    requires Tracks(p, c, from) && Tracks(q, d, from) && Continues(p, q)
    ensures |d.fetched| >= |c.fetched|
    ensures Coords(All(p.win)) != Coords(All(q.win)) ==> |d.fetched| > |c.fetched|
  {
    hide Coords, All, NextPart, Grows;
  }

  lemma {:induction false} ApplyAllSplit(p: Pkg, ops: seq<Op>, n: nat)
    requires Wf(p) && n <= |ops|
    ensures ApplyAll(p, ops) == ApplyAll(ApplyAll(p, ops[..n]), ops[n..])
    decreases n
  {
    hide Apply, Wf;
    if n == 0 {
      assert ops[..0] == [] && ops[0..] == ops;
    } else {
      ApplyAllSplit(Apply(p, ops[0]), ops[1..], n - 1);
      assert ops[..n][1..] == ops[1..][..n - 1] && ops[1..][n - 1..] == ops[n..];
    }
  }

  /** Of what one answer lists, every part stays until the next answer. */
  lemma {:induction false} RoundServed(q: Pkg, d: State, next: Coord, rounds: seq<seq<Op>>, from: nat)
    requires Ready(q) && Tracks(q, d, from) && rounds != [] && InTime(q, d, rounds)
    ensures forall part :: part in Fresh(Parse(Render(q)).parts, next) ==> Served(q, part, rounds[0])
  {
    InTimeStep(q, d, rounds);
    EdgeIsNew(q);
    hide Ready, ApplyAll, Parse, Render, InTime, Answer, Answered, Tracks, NextPart, All, Fresh;
    forall part | part in Fresh(Parse(Render(q)).parts, next)
      ensures Served(q, part, rounds[0])
    {
      FreshIsListed(Parse(Render(q)).parts, next, part);
      PartServed(q, rounds[0], part);
    }
  }

  lemma {:induction false} EdgeIsNew(q: Pkg)
    requires Ready(q)
    ensures NextPart(q.win).0 <= |All(q.win)|
  {
    ReadyWindow(q);
    hide Ready;
    NextPartIsNextCoord(q.win);
  }

  lemma {:induction false} FreshIsListed(parts: seq<ListedPart>, next: Coord, part: ListedPart)
    requires part in Fresh(parts, next)
    ensures part in parts
    decreases |parts|
  {
    if parts != [] && part in Fresh(parts[1..], next) {
      FreshIsListed(parts[1..], next, part);
    }
  }

  /** A listed part is among those of the newest segments. */
  lemma {:induction false} ListedIsRecent(q: Pkg, part: ListedPart)
    requires Ready(q) && part in Parse(Render(q)).parts
    ensures part.msn < |All(q.win)| && part.idx < |All(q.win)[part.msn].parts|
      && part.msn + PART_SEGMENTS >= |All(q.win)|
  {
    hide Ready, Parse, Render, All, SuccessorChain, NextPart, Coords, CoordsOf, ListedFrom;
    PlaylistFacts(q);
    var coords, listed := Coords(All(q.win)), Parse(Render(q)).parts;
    var j :| 0 <= j < |listed| && listed[j] == part;
    var i := |coords| - |listed| + j;
    ListedAt(listed, coords, j);
    CoordsAre(All(q.win), i);
    RecentEnough(q.win, part.msn);
  }

  lemma {:induction false} ListedAt(listed: seq<ListedPart>, coords: seq<Coord>, j: nat)
    requires j < |listed| <= |coords| && CoordsOf(listed) == coords[|coords| - |listed|..]
    ensures coords[|coords| - |listed| + j] == At(listed[j])
  {
    assert CoordsOf(listed)[j] == At(listed[j]);
  }

  lemma {:induction false} RecentEnough(w: Window, msn: nat)
    requires msn >= ListedFrom(w)
    ensures msn + PART_SEGMENTS >= |All(w)|
  {}

  lemma {:induction false} CoordsAre(all: seq<Segment>, i: nat)
    requires i < |Coords(all)|
    ensures var c := Coords(all)[i]; 0 <= c.0 < |all| && 0 <= c.1 < |all[c.0].parts|
    decreases |all|
  {
    if i < |Coords(all[..|all| - 1])| {
      CoordsAre(all[..|all| - 1], i);
    }
  }

  lemma {:induction false} PartServed(q: Pkg, ops: seq<Op>, part: ListedPart)
    requires Ready(q) && part in Parse(Render(q)).parts
    requires |All(ApplyAll(q, ops).win)| <= |All(q.win)| + PART_SEGMENTS
    ensures Served(q, part, ops)
  {
    ReadyWindow(q);
    hide Ready, Parse, Render, ApplyAll, LookUp, All, Wf, WindowOk;
    ListedIsRecent(q, part);
    forall n | 0 <= n <= |ops|
      ensures LookUp(ApplyAll(q, ops[..n]), part.msn, Some(part.idx)) ==
        Found(All(q.win)[part.msn].parts[part.idx].data)
    {
      ApplyAllSplit(q, ops, n);
      ApplyAllExtends(q, ops[..n]);
      ApplyAllExtends(ApplyAll(q, ops[..n]), ops[n..]);
      ListedCanBeFetched(q, ops[..n], part.msn, part.idx);
    }
  }

  /** A client that joins fetches the newest part and tracks the history from there. */
  lemma {:induction false} JoinTracks(p: Pkg)
    requires Ready(p) && LastPart(p.win.segments).Some?
    ensures var coords, pl := Coords(All(p.win)), Parse(Render(p));
            coords != [] && pl.parts != [] && Tracks(p, Join(pl), |coords| - 1)
  {
    hide Ready, Parse, Render, Coords, All, NextPart, Listed, LastPart, Answer, CoordsOf, ListedFrom;
    hide SuccessorChain, Join;
    NewestListed(p);
    ParseOfRender(p);
    var coords, edge, pl := Coords(All(p.win)), NextPart(p.win), Parse(Render(p));
    PlaylistFacts(p);
    JoinNewest(coords, edge, pl);
  }

  lemma {:induction false} JoinNewest(coords: seq<Coord>, edge: Coord, pl: MediaPlaylist)
    requires SuccessorChain(coords, edge) && pl.parts != [] && pl.openMsn == edge.0
    requires |pl.parts| <= |coords| && CoordsOf(pl.parts) == coords[|coords| - |pl.parts|..]
    ensures Join(pl) == State(edge, coords[|coords| - 1..])
  {
    var n := |coords| - 1;
    assert At(pl.parts[|pl.parts| - 1]) == CoordsOf(pl.parts)[|pl.parts| - 1] == coords[n];
    AnswerCatchesUp(coords[..n], coords, edge, State(coords[n], []), pl, n);
  }

  lemma {:induction false} NewestListed(p: Pkg)
    requires Ready(p) && LastPart(p.win.segments).Some?
    ensures Listed(p.win.segments, 0) != []
  {
    hide SegmentsOk, Chained, InitsOk, OpenOk, IdleOk, Linked;
    var s := p.win.segments;
    WindowNumbered(p.win);
    var i := if s[|s| - 1].parts != [] then |s| - 1 else |s| - 2;
    assert |s| >= 2 && i == |s| - 2 ==> s[i].Complete();
    assert i >= 0 && s[i].parts != [];
    ListedHas(s, 0, i);
  }

  lemma {:induction false} ListedHas(s: seq<Segment>, from: nat, i: nat)
    requires from <= i < |s| && i + PART_SEGMENTS >= |s| && s[i].parts != []
    ensures Listed(s, from) != []
    decreases i - from
  {
    if from < i {
      ListedHas(s, from + 1, i);
    }
  }

  /** The client never asks past the live edge: its request is not refused, however long it takes to arrive. */
  lemma {:induction false} NeverRefused(p: Pkg, c: State, from: nat, ops: seq<Op>)
    requires Ready(p) && Tracks(p, c, from)
    ensures !Refused(ApplyAll(p, ops), c.next) && AtMost(c.next, NextPart(ApplyAll(p, ops).win))
  {
    var q := ApplyAll(p, ops);
    hide Ready, ApplyAll, NextPart, Coords, All, Grows, SuccessorChain;
    ApplyAllExtends(p, ops);
    PartsFormAChain(q);
    var older, coords := Coords(All(p.win)), Coords(All(q.win));
    if older != coords {
      ChainSorted(coords, NextPart(q.win), |older|);
    }
  }

  lemma {:induction false} MissedAt(p: Pkg, q: Pkg, next: Coord)
    requires Ready(q) && next == NextPart(p.win) && Continues(p, q)
    requires next.0 + PART_SEGMENTS < |All(q.win)|
    ensures next in Coords(All(q.win)) && next !in CoordsOf(Fresh(Parse(Render(q)).parts, next))
  {
    hide Ready, Parse, Render, Coords, NextPart, Fresh, CoordsOf;
    PlaylistFacts(q);
    var older, coords, listed := Coords(All(p.win)), Coords(All(q.win)), Parse(Render(q)).parts;
    assert older != coords && coords[|older|] == next;
    FreshFrom(listed, next);
  }

  /**
    The bound is exact: if three newer segments open before the answer, the part the client asked for is
    in the history but not among those it fetches.
   */
  lemma {:induction false} TooLateMisses(p: Pkg, ops: seq<Op>, c: State, from: nat)
    requires Ready(p) && Tracks(p, c, from)
    requires c.next.0 + PART_SEGMENTS < |All(ApplyAll(p, ops).win)|
    ensures var q := ApplyAll(p, ops);
            && c.next in Coords(All(q.win))
            && c.next !in CoordsOf(Fresh(Parse(Render(q)).parts, c.next))
  {
    ApplyAllExtends(p, ops);
    hide Ready, ApplyAll, Continues, Parse, Render, Fresh;
    MissedAt(p, ApplyAll(p, ops), c.next);
  }

  lemma {:induction false} ListedAbove(all: seq<Segment>, k: nat)
    requires k <= |all|
    ensures |Coords(all[..k])| <= |Coords(all)|
    ensures forall i :: |Coords(all[..k])| <= i < |Coords(all)| ==> Coords(all)[i].0 >= k
    decreases |all| - k
  {
    PrefixLength(all, k);
    if k < |all| {
      ListedAbove(all, k + 1);
      assert all[..k + 1][..k] == all[..k];
      PrefixLength(all, k + 1);
      var x := Coords(all[..k + 1]);
      assert x == Coords(all[..k]) + PartCoords(k, |all[k].parts|);
      assert forall i :: 0 <= i < |x| ==> Coords(all)[i] == x[i];
    } else {
      assert all[..k] == all;
    }
  }

  lemma {:induction false} FreshFrom(parts: seq<ListedPart>, next: Coord)
    ensures forall x :: x in CoordsOf(Fresh(parts, next)) ==> x in CoordsOf(parts)
  {
    if parts != [] {
      FreshFrom(parts[1..], next);
      assert CoordsOf(parts) == [At(parts[0])] + CoordsOf(parts[1..]);
      var rest := Fresh(parts[1..], next);
      assert CoordsOf([parts[0]] + rest) == [At(parts[0])] + CoordsOf(rest);
    }
  }

  /** A listed part can still be fetched, with the same bytes, until four newer segments have opened. */
  lemma {:induction false} ListedCanBeFetched(p: Pkg, ops: seq<Op>, msn: nat, i: nat)
    requires Ready(p) && msn < |All(p.win)| && i < |All(p.win)[msn].parts|
    requires msn + PART_SEGMENTS >= |All(p.win)|
    requires |All(ApplyAll(p, ops).win)| <= |All(p.win)| + 3
    ensures LookUp(ApplyAll(p, ops), msn, Some(i)) == Found(All(p.win)[msn].parts[i].data)
  {
    var q := ApplyAll(p, ops);
    ApplyAllExtends(p, ops);
    LookUpPart(q, msn, i);
    hide ApplyAll, SegmentsOk, Chained, InitsOk, OpenOk, IdleOk, Linked, LookUp, Extends;
    assert SegmentGrows(All(p.win)[msn], All(q.win)[msn]);
    assert q.win.evicted != [] ==> |q.win.segments| >= WINDOW;
  }
}
