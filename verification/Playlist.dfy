/** The media playlist: how the packager prints it, and how the client reads it back by counting lines. */
module Playlist {
  import opened Util
  import opened Fmp4
  import opened PackagerModel
  import opened PlaylistWindow
  import opened PackagerInvariants
  import opened PackagerSteps
  import opened PackagerTheorems
  import Packager

  datatype Uri = InitUri(generation: nat) | PartUri(msn: nat, part: nat) | SegmentUri(msn: nat)

  datatype Line =
    | ExtM3u
    | Version
    | TargetDuration(seconds: nat)
    | ServerControl
    | PartInf
    | MediaSequence(n: nat)
    | DiscontinuitySequence(n: nat)
    | IndependentSegments
    | Map(uri: Uri)
    | Discontinuity
    | ProgramDateTime(at: int)
    | PartTag(duration: real, uri: Uri, independent: bool)
    | ExtInf(duration: real)
    | UriLine(uri: Uri)
    | EndList
    | PreloadHint(uri: Uri)

  // ---- Printing ----

  function FirstMsn(w: Window): nat {
    if w.segments == [] then w.nextMsn else w.segments[0].msn
  }

  /** The init generation of the first listed segment. */
  function FirstGen(segments: seq<Segment>, current: nat): nat {
    if segments == [] then current
    else if segments[0].parts != [] then segments[0].initGen
    else FirstGen(segments[1..], current)
  }

  function Header(p: Pkg): seq<Line> {
    [ExtM3u, Version, TargetDuration(p.win.target), ServerControl, PartInf, MediaSequence(FirstMsn(p.win))]
    + (if p.win.discontinuitySeq > 0 then [DiscontinuitySequence(p.win.discontinuitySeq)] else [])
    + [IndependentSegments, Map(InitUri(FirstGen(p.win.segments, p.inits.initGen)))]
  }

  function PartLines(msn: nat, parts: seq<Part>, from: nat): seq<Line>
    decreases |parts| - from
  {
    if from >= |parts| then []
    else [PartTag(parts[from].duration, PartUri(msn, from), parts[from].independent)] + PartLines(msn, parts, from + 1)
  }

  function SegmentHead(seg: Segment, mapGen: nat): seq<Line> {
    (if seg.discontinuity then [Discontinuity] else [])
    + (if seg.initGen != mapGen then [Map(InitUri(seg.initGen))] else [])
    + [ProgramDateTime(seg.pdt)]
  }

  function SegmentTail(seg: Segment): seq<Line> {
    if seg.Complete() then [ExtInf(Duration(seg.parts)), UriLine(SegmentUri(seg.msn))] else []
  }

  function SegmentLines(seg: Segment, mapGen: nat, withParts: bool): seq<Line> {
    SegmentHead(seg, mapGen) + (if withParts then PartLines(seg.msn, seg.parts, 0) else []) + SegmentTail(seg)
  }

  /** The segments from the `i`th on; only the newest `PART_SEGMENTS` list their parts. */
  function Body(segments: seq<Segment>, i: nat, mapGen: nat): seq<Line>
    decreases |segments| - i
  {
    if i >= |segments| then []
    else if segments[i].parts == [] then Body(segments, i + 1, mapGen)
    else SegmentLines(segments[i], mapGen, i + PART_SEGMENTS >= |segments|) + Body(segments, i + 1, segments[i].initGen)
  }

  function Footer(p: Pkg): seq<Line> {
    if p.ended then [EndList] else [PreloadHint(PartUri(NextPart(p.win).0, NextPart(p.win).1))]
  }

  function Render(p: Pkg): seq<Line> {
    Header(p) + Body(p.win.segments, 0, FirstGen(p.win.segments, p.inits.initGen)) + Footer(p)
  }

  method FirstGeneration(pkg: Packager.Packager) returns (gen: nat)
    ensures gen == FirstGen(pkg.win.segments, pkg.inits.initGen)
  {
    var segments := pkg.win.segments;
    for i := 0 to |segments|
      invariant FirstGen(segments, pkg.inits.initGen) == FirstGen(segments[i..], pkg.inits.initGen)
    {
      assert segments[i..][1..] == segments[i + 1..];
      if segments[i].parts != [] {
        return segments[i].initGen;
      }
    }
    gen := pkg.inits.initGen;
  }

  method PrintParts(o: seq<Line>, seg: Segment) returns (out: seq<Line>)
    ensures out == o + PartLines(seg.msn, seg.parts, 0)
  {
    out := o;
    for j := 0 to |seg.parts|
      invariant out + PartLines(seg.msn, seg.parts, j) == o + PartLines(seg.msn, seg.parts, 0)
    {
      var tag := PartTag(seg.parts[j].duration, PartUri(seg.msn, j), seg.parts[j].independent);
      assert out + ([tag] + PartLines(seg.msn, seg.parts, j + 1)) == out + [tag] + PartLines(seg.msn, seg.parts, j + 1);
      out := out + [tag];
    }
  }

  method PrintSegment(o: seq<Line>, seg: Segment, mapGen: nat, withParts: bool) returns (out: seq<Line>)
    ensures out == o + SegmentLines(seg, mapGen, withParts)
  {
    hide Duration, PartLines, SegmentHead;
    out := PrintHead(o, seg, mapGen);
    ghost var head := out;
    if withParts {
      out := PrintParts(out, seg);
    } else {
      assert head + [] == head;
    }
    ghost var parts := if withParts then PartLines(seg.msn, seg.parts, 0) else [];
    assert out == head + parts;
    if seg.Complete() {
      out := out + [ExtInf(Duration(seg.parts)), UriLine(SegmentUri(seg.msn))];
    }
    LinesJoin(o, SegmentHead(seg, mapGen), parts, SegmentTail(seg));
  }

  lemma {:induction false} LinesJoin(o: seq<Line>, a: seq<Line>, b: seq<Line>, c: seq<Line>)
    ensures o + a + b + c == o + (a + b + c) && o + a + b + [] == o + a + b
  {}

  method PrintHead(o: seq<Line>, seg: Segment, mapGen: nat) returns (out: seq<Line>)
    ensures out == o + SegmentHead(seg, mapGen)
  {
    out := o;
    if seg.discontinuity {
      out := out + [Discontinuity];
    }
    if seg.initGen != mapGen {
      out := out + [Map(InitUri(seg.initGen))];
    }
    out := out + [ProgramDateTime(seg.pdt)];
  }

  /** Writes the playlist line by line. */
  method PrintPlaylist(pkg: Packager.Packager) returns (o: seq<Line>)
    ensures o == Render(pkg.State())
  {
    hide SegmentLines, NextPart;
    var segments := pkg.win.segments;
    var mapGen := FirstGeneration(pkg);
    o := [ExtM3u, Version, TargetDuration(pkg.win.target), ServerControl, PartInf, MediaSequence(FirstMsn(pkg.win))];
    if pkg.win.discontinuitySeq > 0 {
      o := o + [DiscontinuitySequence(pkg.win.discontinuitySeq)];
    }
    o := o + [IndependentSegments, Map(InitUri(mapGen))];
    assert o == Header(pkg.State());
    ghost var whole := o + Body(segments, 0, mapGen);
    for i := 0 to |segments|
      invariant o + Body(segments, i, mapGen) == whole
    {
      if segments[i].parts != [] {
        ghost var before := o;
        o := PrintSegment(o, segments[i], mapGen, i + PART_SEGMENTS >= |segments|);
        ghost var rest := Body(segments, i + 1, segments[i].initGen);
        assert o + rest == before + (SegmentLines(segments[i], mapGen, i + PART_SEGMENTS >= |segments|) + rest);
        mapGen := segments[i].initGen;
      }
    }
    assert o == whole;
    if pkg.ended {
      o := o + [EndList];
    } else {
      var next := NextPart(pkg.win);
      o := o + [PreloadHint(PartUri(next.0, next.1))];
    }
  }

  // ---- Reading ----

  /** A part as the client knows it: the numbers it counted, and the URI it read. */
  datatype ListedPart = ListedPart(msn: nat, idx: nat, uri: Uri, duration: real)

  datatype MediaPlaylist = MediaPlaylist(initMap: Option<Uri>, parts: seq<ListedPart>, openMsn: nat)

  datatype Reader = Reader(initMap: Option<Uri>, parts: seq<ListedPart>, msn: nat, idx: nat, afterInf: bool)

  function ReadLine(r: Reader, line: Line): Reader {
    match line
    case MediaSequence(n) => r.(msn := n)
    case Map(uri) => r.(initMap := Some(uri))
    case PartTag(d, uri, _) => r.(parts := r.parts + [ListedPart(r.msn, r.idx, uri, d)], idx := r.idx + 1)
    case ExtInf(_) => r.(afterInf := true)
    case UriLine(_) => if r.afterInf then r.(afterInf := false, msn := r.msn + 1, idx := 0) else r
    case _ => r
  }

  function Read(r: Reader, lines: seq<Line>): Reader
    decreases |lines|
  {
    if lines == [] then r else Read(ReadLine(r, lines[0]), lines[1..])
  }

  function Parse(lines: seq<Line>): MediaPlaylist {
    var r := Read(Reader(None, [], 0, 0, false), lines);
    MediaPlaylist(r.initMap, r.parts, r.msn)
  }

  /** The client's loop over the lines. */
  method ParseMedia(lines: seq<Line>) returns (pl: MediaPlaylist)
    ensures pl == Parse(lines)
  {
    var initMap: Option<Uri>, parts: seq<ListedPart> := None, [];
    var msn, idx, afterInf := 0, 0, false;
    for i := 0 to |lines|
      invariant idx >= 0 && msn >= 0
      invariant Read(Reader(initMap, parts, msn, idx, afterInf), lines[i..]) ==
        Read(Reader(None, [], 0, 0, false), lines)
    {
      assert lines[i..][0] == lines[i] && lines[i..][1..] == lines[i + 1..];
      match lines[i]
      case MediaSequence(n) => msn := n;
      case Map(uri) => initMap := Some(uri);
      case PartTag(d, uri, _) =>
        parts := parts + [ListedPart(msn, idx, uri, d)];
        idx := idx + 1;
      case ExtInf(_) => afterInf := true;
      case UriLine(_) =>
        if afterInf {
          afterInf, msn, idx := false, msn + 1, 0;
        }
      case _ =>
    }
    assert lines[|lines|..] == [];
    pl := MediaPlaylist(initMap, parts, msn);
  }

  // ---- Round trip ----

  lemma {:induction false} ReadAdd(r: Reader, a: seq<Line>, b: seq<Line>)
    ensures Read(r, a + b) == Read(Read(r, a), b)
    decreases |a|
  {
    if a == [] {
      assert a + b == b;
    } else {
      assert (a + b)[0] == a[0] && (a + b)[1..] == a[1..] + b;
      ReadAdd(ReadLine(r, a[0]), a[1..], b);
    }
  }

  function PartsOf(seg: Segment, from: nat): (l: seq<ListedPart>)
    requires from <= |seg.parts|
    ensures |l| == |seg.parts| - from
    ensures forall k :: 0 <= k < |l| ==>
      l[k] == ListedPart(seg.msn, from + k, PartUri(seg.msn, from + k), seg.parts[from + k].duration)
  {
    seq(|seg.parts| - from, k requires 0 <= k < |seg.parts| - from =>
        ListedPart(seg.msn, from + k, PartUri(seg.msn, from + k), seg.parts[from + k].duration))
  }

  /** What the playlist lists: the parts of the newest `PART_SEGMENTS` segments, under their own numbers. */
  function Listed(segments: seq<Segment>, i: nat): seq<ListedPart>
    decreases |segments| - i
  {
    if i >= |segments| then []
    else (if i + PART_SEGMENTS >= |segments| then PartsOf(segments[i], 0) else []) + Listed(segments, i + 1)
  }

  lemma {:induction false} ReadParts(r: Reader, seg: Segment, from: nat)
    requires r.msn == seg.msn && r.idx == from && from <= |seg.parts|
    ensures Read(r, PartLines(seg.msn, seg.parts, from))
            == r.(parts := r.parts + PartsOf(seg, from), idx := |seg.parts|)
    decreases |seg.parts| - from
  {
    if from < |seg.parts| {
      var lines := PartLines(seg.msn, seg.parts, from);
      var s := ReadLine(r, lines[0]);
      assert lines[1..] == PartLines(seg.msn, seg.parts, from + 1);
      ReadParts(s, seg, from + 1);
      assert r.parts + PartsOf(seg, from) == s.parts + PartsOf(seg, from + 1);
    } else {
      assert r.parts + PartsOf(seg, from) == r.parts;
    }
  }

  lemma {:induction false} ReadOne(r: Reader, line: Line)
    ensures Read(r, [line]) == ReadLine(r, line)
  {}

  /** A line the reader passes over. */
  predicate Ignored(line: Line) {
    !line.MediaSequence? && !line.Map? && !line.PartTag? && !line.ExtInf? && !line.UriLine?
  }

  lemma {:induction false} ReadIgnored(r: Reader, lines: seq<Line>)
    requires forall i :: 0 <= i < |lines| ==> Ignored(lines[i])
    ensures Read(r, lines) == r
    decreases |lines|
  {
    if lines != [] {
      ReadIgnored(r, lines[1..]);
    }
  }

  lemma {:induction false} ReadThree(r: Reader, a: seq<Line>, b: seq<Line>, c: seq<Line>)
    ensures Read(r, a + b + c) == Read(Read(Read(r, a), b), c)
  {
    ReadAdd(r, a + b, c);
    ReadAdd(r, a, b);
  }

  lemma {:induction false} ReadSegmentHead(r: Reader, seg: Segment, mapGen: nat)
    requires r.initMap == Some(InitUri(mapGen))
    ensures Read(r, SegmentHead(seg, mapGen)) == r.(initMap := Some(InitUri(seg.initGen)))
  {
    var a := if seg.discontinuity then [Discontinuity] else [];
    var b := if seg.initGen != mapGen then [Map(InitUri(seg.initGen))] else [];
    ReadThree(r, a, b, [ProgramDateTime(seg.pdt)]);
    ReadIgnored(r, a);
    ReadOne(r, Map(InitUri(seg.initGen)));
    ReadIgnored(r.(initMap := Some(InitUri(seg.initGen))), [ProgramDateTime(seg.pdt)]);
  }

  lemma {:induction false} ReadSegmentTail(r: Reader, seg: Segment)
    requires !r.afterInf
    ensures Read(r, SegmentTail(seg)) == if seg.Complete() then r.(msn := r.msn + 1, idx := 0) else r
  {
    hide Duration;
    if seg.Complete() {
      var inf, uri := ExtInf(Duration(seg.parts)), UriLine(SegmentUri(seg.msn));
      assert SegmentTail(seg) == [inf] + [uri];
      ReadAdd(r, [inf], [uri]);
      ReadOne(r, inf);
      ReadOne(r.(afterInf := true), uri);
    }
  }

  /** A segment reads as its parts, one sequence number, and its own init segment. */
  lemma {:induction false} ReadSegment(r: Reader, seg: Segment, mapGen: nat, withParts: bool)
    requires r.msn == seg.msn && r.idx == 0 && !r.afterInf && r.initMap == Some(InitUri(mapGen))
    ensures var s := Read(r, SegmentLines(seg, mapGen, withParts));
            && s.initMap == Some(InitUri(seg.initGen))
            && s.parts == r.parts + (if withParts then PartsOf(seg, 0) else [])
            && !s.afterInf
            && (if seg.Complete() then s.msn == r.msn + 1 && s.idx == 0 else s.msn == r.msn)
  {
    hide SegmentHead, SegmentTail, Read;
    var parts := if withParts then PartLines(seg.msn, seg.parts, 0) else [];
    ReadThree(r, SegmentHead(seg, mapGen), parts, SegmentTail(seg));
    ReadSegmentHead(r, seg, mapGen);
    var s := r.(initMap := Some(InitUri(seg.initGen)));
    ReadParts(s, seg, 0);
    ReadIgnored(s, []);
    ReadSegmentTail(Read(s, parts), seg);
    assert r.parts + [] == r.parts;
  }

  /** Every listed segment is complete, except perhaps the newest. */
  ghost predicate InSequence(segments: seq<Segment>) {
    && (forall i :: 0 <= i < |segments| - 1 ==> segments[i].Complete())
    && (forall i :: 0 <= i < |segments| && segments[i].Complete() ==> segments[i].parts != [])
    && (forall i :: 0 <= i < |segments| ==> segments[i].msn == segments[0].msn + i)
  }

  lemma {:induction false} ReadBody(r: Reader, segments: seq<Segment>, i: nat, mapGen: nat)
    requires InSequence(segments) && i <= |segments|
    requires i < |segments| ==> r.msn == segments[i].msn
    requires r.idx == 0 && !r.afterInf && r.initMap == Some(InitUri(mapGen))
    ensures var s := Read(r, Body(segments, i, mapGen));
            && s.parts == r.parts + Listed(segments, i)
            && s.msn == r.msn + (|segments| - i)
                        - (if i < |segments| && !segments[|segments| - 1].Complete() then 1 else 0)
    decreases |segments| - i
  {
    if i == |segments| {
      assert r.parts + Listed(segments, i) == r.parts;
    } else if segments[i].parts == [] {
      SkipEmpty(segments, i, mapGen);
      hide Body, Read, Listed;
      ReadBody(r, segments, i + 1, mapGen);
    } else {
      var withParts := i + PART_SEGMENTS >= |segments|;
      var lines := SegmentLines(segments[i], mapGen, withParts);
      var rest := Body(segments, i + 1, segments[i].initGen);
      BodyStep(segments, i, mapGen);
      hide SegmentLines, Body, Read, Listed, PartsOf;
      ReadSegment(r, segments[i], mapGen, withParts);
      ReadAdd(r, lines, rest);
      var s := Read(r, lines);
      if segments[i].Complete() {
        ReadBody(s, segments, i + 1, segments[i].initGen);
      } else {
        ReadIgnored(s, []);
      }
      PartsAdd(r.parts, if withParts then PartsOf(segments[i], 0) else [], Listed(segments, i + 1));
    }
  }

  lemma {:induction false} PartsAdd(a: seq<ListedPart>, b: seq<ListedPart>, c: seq<ListedPart>)
    ensures a + (b + c) == a + b + c
    ensures a + b + [] == a + b
  {}

  lemma {:induction false} SkipEmpty(segments: seq<Segment>, i: nat, mapGen: nat)
    requires i < |segments| && segments[i].parts == []
    ensures Body(segments, i, mapGen) == Body(segments, i + 1, mapGen) && Listed(segments, i) == Listed(segments, i + 1)
  {
    SkipBody(segments, i, mapGen);
    hide Body;
    assert PartsOf(segments[i], 0) == [];
    hide PartsOf;
    assert [] + Listed(segments, i + 1) == Listed(segments, i + 1);
  }

  lemma {:induction false} SkipBody(segments: seq<Segment>, i: nat, mapGen: nat)
    requires i < |segments| && segments[i].parts == []
    ensures Body(segments, i, mapGen) == Body(segments, i + 1, mapGen)
  {
    hide SegmentLines;
  }

  lemma {:induction false} BodyStep(segments: seq<Segment>, i: nat, mapGen: nat)
    requires i < |segments| && segments[i].parts != []
    ensures var withParts := i + PART_SEGMENTS >= |segments|;
            && Body(segments, i, mapGen)
               == SegmentLines(segments[i], mapGen, withParts) + Body(segments, i + 1, segments[i].initGen)
            && Listed(segments, i) == (if withParts then PartsOf(segments[i], 0) else []) + Listed(segments, i + 1)
            && (i == |segments| - 1 ==>
                 Body(segments, i + 1, segments[i].initGen) == [] && Listed(segments, i + 1) == [])
  {}

  lemma {:induction false} ReadHeader(p: Pkg)
    ensures Read(Reader(None, [], 0, 0, false), Header(p))
            == Reader(Some(InitUri(FirstGen(p.win.segments, p.inits.initGen))), [], FirstMsn(p.win), 0, false)
  {
    hide FirstGen, FirstMsn;
    var r0 := Reader(None, [], 0, 0, false);
    var top := [ExtM3u, Version, TargetDuration(p.win.target), ServerControl, PartInf];
    var first, gen := MediaSequence(FirstMsn(p.win)), Map(InitUri(FirstGen(p.win.segments, p.inits.initGen)));
    var b := if p.win.discontinuitySeq > 0 then [DiscontinuitySequence(p.win.discontinuitySeq)] else [];
    assert Header(p) == top + [first] + (b + [IndependentSegments] + [gen]);
    ReadThree(r0, top, [first], b + [IndependentSegments] + [gen]);
    ReadIgnored(r0, top);
    ReadOne(r0, first);
    var r1 := r0.(msn := FirstMsn(p.win));
    ReadThree(r1, b, [IndependentSegments], [gen]);
    ReadIgnored(r1, b);
    ReadIgnored(r1, [IndependentSegments]);
    ReadOne(r1, gen);
  }

  lemma {:induction false} WindowNumbered(w: Window)
    requires WindowOk(w)
    ensures InSequence(w.segments)
    ensures w.segments != [] ==> w.segments[0].msn + |w.segments| == w.nextMsn
    ensures forall i :: 0 <= i < |w.segments| ==> w.segments[i] == All(w)[|w.evicted| + i]
  {
    assert forall i :: 0 <= i < |w.segments| ==> w.segments[i] == All(w)[|w.evicted| + i];
  }

  lemma {:induction false} RenderReads(p: Pkg)
    requires InSequence(p.win.segments)
    requires p.win.segments != [] ==> p.win.segments[0].msn + |p.win.segments| == p.win.nextMsn
    ensures Parse(Render(p)).parts == Listed(p.win.segments, 0)
    ensures Parse(Render(p)).openMsn == p.win.nextMsn - if Open(p.win) then 1 else 0
  {
    var segments := p.win.segments;
    var gen := FirstGen(segments, p.inits.initGen);
    var r0 := Reader(None, [], 0, 0, false);
    assert Render(p) == Header(p) + Body(segments, 0, gen) + Footer(p);
    assert forall k :: 0 <= k < |Footer(p)| ==> Ignored(Footer(p)[k]);
    hide Header, Body, Footer, Read, Listed, FirstGen, NextPart, Render;
    ReadThree(r0, Header(p), Body(segments, 0, gen), Footer(p));
    ReadHeader(p);
    var r1 := Reader(Some(InitUri(gen)), [], FirstMsn(p.win), 0, false);
    ReadBody(r1, segments, 0, gen);
    assert [] + Listed(segments, 0) == Listed(segments, 0);
    ReadIgnored(Read(r1, Body(segments, 0, gen)), Footer(p));
  }

  /**
    The round trip: counting lines, the client recovers exactly the listed parts with their true
    sequence numbers and indices, and as its open segment the one the next part goes into.
   */
  lemma {:induction false} ParseOfRender(p: Pkg)
    requires Ready(p)
    ensures Parse(Render(p)).parts == Listed(p.win.segments, 0)
    ensures Parse(Render(p)).openMsn == NextPart(p.win).0
  {
    hide Parse, Render, Listed, SegmentsOk, Chained, InitsOk, OpenOk, IdleOk, Linked;
    WindowNumbered(p.win);
    RenderReads(p);
  }

  // ---- What the printed lines point at ----

  /**
    What a line points at is there: parts and segments are found, init segments known, and the hinted part is
    awaited.
   */
  predicate Resolvable(p: Pkg, line: Line) {
    match line
    case Map(uri) => uri.InitUri? && InitFor(p, uri.generation).Some?
    case PartTag(_, uri, _) => uri.PartUri? && LookUp(p, uri.msn, Some(uri.part)).Found?
    case UriLine(uri) => uri.SegmentUri? && LookUp(p, uri.msn, None).Found?
    case PreloadHint(uri) => uri.PartUri? && LookUp(p, uri.msn, Some(uri.part)).Pending?
    case _ => true
  }

  ghost predicate AllResolvable(p: Pkg, lines: seq<Line>) {
    forall k :: 0 <= k < |lines| ==> Resolvable(p, lines[k])
  }

  lemma {:induction false} BothResolvable(p: Pkg, a: seq<Line>, b: seq<Line>)
    requires AllResolvable(p, a) && AllResolvable(p, b)
    ensures AllResolvable(p, a + b)
  {
    hide Resolvable;
  }

  lemma {:induction false} PartsResolve(p: Pkg, i: nat, j: nat)
    requires Ready(p) && i < |p.win.segments|
    ensures var seg := p.win.segments[i]; AllResolvable(p, PartLines(seg.msn, seg.parts, j))
    decreases |p.win.segments[i].parts| - j
  {
    var seg := p.win.segments[i];
    if j < |seg.parts| {
      PartFound(p, i, j);
      hide Ready, LookUp, InitFor;
      PartsResolve(p, i, j + 1);
      BothResolvable(p, [PartTag(seg.parts[j].duration, PartUri(seg.msn, j), seg.parts[j].independent)],
        PartLines(seg.msn, seg.parts, j + 1));
    }
  }

  lemma {:induction false} WindowAt(p: Pkg, i: nat)
    requires Ready(p) && i < |p.win.segments|
    ensures var seg := p.win.segments[i];
            |p.win.evicted| <= seg.msn < |All(p.win)| && All(p.win)[seg.msn] == seg
  {
    hide SegmentsOk, Chained, InitsOk, OpenOk, IdleOk, Linked;
    assert All(p.win)[|p.win.evicted| + i] == p.win.segments[i];
  }

  lemma {:induction false} PartFound(p: Pkg, i: nat, j: nat)
    requires Ready(p) && i < |p.win.segments| && j < |p.win.segments[i].parts|
    ensures LookUp(p, p.win.segments[i].msn, Some(j)) == Found(p.win.segments[i].parts[j].data)
  {
    WindowAt(p, i);
    hide Ready, LookUp;
    LookUpPart(p, p.win.segments[i].msn, j);
  }

  lemma {:induction false} SegmentFound(p: Pkg, i: nat)
    requires Ready(p) && i < |p.win.segments| && p.win.segments[i].Complete()
    ensures LookUp(p, p.win.segments[i].msn, None) == Found(Joined(p.win.segments[i].parts))
  {
    WindowAt(p, i);
    hide Ready, LookUp;
    LookUpSegment(p, p.win.segments[i].msn);
  }

  lemma {:induction false} SegmentResolves(p: Pkg, i: nat, mapGen: nat, withParts: bool)
    requires Ready(p) && i < |p.win.segments|
    ensures AllResolvable(p, SegmentLines(p.win.segments[i], mapGen, withParts))
  {
    var seg := p.win.segments[i];
    InitForListed(p, i);
    PartsResolve(p, i, 0);
    if seg.Complete() {
      SegmentFound(p, i);
    }
    hide Ready, LookUp, InitFor, PartLines, Duration;
    assert AllResolvable(p, SegmentHead(seg, mapGen)) && AllResolvable(p, SegmentTail(seg));
    var parts := if withParts then PartLines(seg.msn, seg.parts, 0) else [];
    hide Resolvable, SegmentHead, SegmentTail;
    BothResolvable(p, SegmentHead(seg, mapGen), parts);
    BothResolvable(p, SegmentHead(seg, mapGen) + parts, SegmentTail(seg));
  }

  lemma {:induction false} BodyResolves(p: Pkg, i: nat, mapGen: nat)
    requires Ready(p) && i <= |p.win.segments|
    ensures AllResolvable(p, Body(p.win.segments, i, mapGen))
    decreases |p.win.segments| - i
  {
    hide Ready, SegmentLines, Resolvable;
    var s := p.win.segments;
    if i < |s| {
      var gen := if s[i].parts == [] then mapGen else s[i].initGen;
      BodyResolves(p, i + 1, gen);
      SegmentResolves(p, i, mapGen, i + PART_SEGMENTS >= |s|);
      BothResolvable(p, SegmentLines(s[i], mapGen, i + PART_SEGMENTS >= |s|), Body(s, i + 1, gen));
    }
  }

  lemma {:induction false} FirstGenIs(segments: seq<Segment>, current: nat) returns (i: nat)
    ensures FirstGen(segments, current) == if i < |segments| then segments[i].initGen else current
    decreases |segments|
  {
    if segments == [] || segments[0].parts != [] {
      i := 0;
    } else {
      i := FirstGenIs(segments[1..], current);
      i := i + 1;
    }
  }

  lemma {:induction false} HeaderResolves(p: Pkg)
    requires Ready(p) && p.inits.init.Some?
    ensures AllResolvable(p, Header(p))
  {
    var i := FirstGenIs(p.win.segments, p.inits.initGen);
    if i < |p.win.segments| {
      InitForListed(p, i);
    }
    hide Ready, LookUp, FirstGen;
  }

  lemma {:induction false} FooterResolves(p: Pkg)
    requires Ready(p)
    ensures AllResolvable(p, Footer(p))
  {
    hide Ready, LookUp, NextPart, All;
    var next := NextPart(p.win);
    LookUpPart(p, next.0, next.1);
  }

  /**
    Everything the printed playlist points at resolves, in any state it is printed in: listed parts and segments
    are found, every init segment is known, and the preload hint is the part the server is waiting for.
   */
  lemma {:induction false} RenderResolves(p: Pkg)
    requires Ready(p) && p.inits.init.Some?
    ensures forall line :: line in Render(p) ==> Resolvable(p, line)
  {
    hide Ready, Header, Footer, Body, Resolvable, FirstGen;
    var gen := FirstGen(p.win.segments, p.inits.initGen);
    HeaderResolves(p);
    BodyResolves(p, 0, gen);
    FooterResolves(p);
    BothResolvable(p, Header(p), Body(p.win.segments, 0, gen));
    BothResolvable(p, Header(p) + Body(p.win.segments, 0, gen), Footer(p));
  }
}
