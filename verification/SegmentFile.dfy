/** Reading a recorded segment file back: every sample of every fragment, where its bytes are. */
module SegmentFile {
  import opened Util
  import opened Fmp4

  /** One top-level box: a `moof`, or any other, of which only the bytes matter. */
  datatype Box = MoofBox(moof: Moof) | OtherBox(bytes: Bytes)

  function BoxBytes(b: Box): Bytes {
    if b.MoofBox? then EncodeMoof(b.moof) else b.bytes
  }

  function FileOf(boxes: seq<Box>): Bytes {
    if boxes == [] then [] else BoxBytes(boxes[0]) + FileOf(boxes[1..])
  }

  /** `track` indexes the clip's tracks; `time` is on the recording's timeline, in microseconds. */
  datatype SampleRef = SampleRef(track: nat, dts: int, dur: nat, cts: int, key: bool, seg: nat, offset: int, size: nat,
      time: int)

  datatype TrackIn = TrackIn(id: nat, timescale: nat)

  datatype ReadError = OutsideFile | NoPrimary | UnexpectedEntry

  datatype Refs = Refs(refs: seq<SampleRef>) | Failed(error: ReadError)

  function Position(tracks: seq<TrackIn>, id: nat): (i: Option<nat>)
    ensures i.Some? ==> i.value < |tracks| && tracks[i.value].id == id
    decreases |tracks|
  {
    if tracks == [] then None
    else if tracks[0].id == id then Some(0)
    else var i := Position(tracks[1..], id); if i.Some? then Some(i.value + 1) else None
  }

  /** `sample_is_non_sync_sample` is bit 16 of the flags. */
  predicate IsKey(flags: nat) {
    flags / 0x1_0000 % 2 == 0
  }

  /** Where reading one run goes on: byte offset and decode time. */
  datatype At = At(track: nat, seg: nat, offset: int, dts: int)

  function RefOf(e: TrunEntry, at: At): SampleRef {
    SampleRef(at.track, at.dts, e.duration, e.cts, IsKey(e.flags), at.seg, at.offset, e.size, 0)
  }

  function Step(at: At, e: TrunEntry): At {
    at.(offset := at.offset + e.size, dts := at.dts + e.duration)
  }

  predicate Inside(at: At, e: TrunEntry, length: nat) {
    at.offset >= 0 && at.offset + e.size <= length
  }

  function ReadRun(entries: seq<TrunEntry>, at: At, length: nat): Refs {
    if entries == [] then Refs([])
    else if !Inside(at, entries[0], length) then Failed(OutsideFile)
    else
      var rest := ReadRun(entries[1..], Step(at, entries[0]), length);
      if rest.Failed? then rest else Refs([RefOf(entries[0], at)] + rest.refs)
  }

  function Then(a: Refs, b: Refs): Refs {
    if a.Failed? then a else if b.Failed? then b else Refs(a.refs + b.refs)
  }

  function ReadTraf(traf: Traf, tracks: seq<TrackIn>, pos: nat, seg: nat, length: nat): Refs {
    var track := Position(tracks, traf.trackId);
    if track.None? then Refs([])
    else ReadRun(traf.entries, At(track.value, seg, pos + traf.dataOffset, traf.baseDecodeTime), length)
  }

  function ReadTrafs(trafs: seq<Traf>, tracks: seq<TrackIn>, pos: nat, seg: nat, length: nat): Refs {
    if trafs == [] then Refs([])
    else Then(ReadTraf(trafs[0], tracks, pos, seg, length), ReadTrafs(trafs[1..], tracks, pos, seg, length))
  }

  function ReadBoxes(boxes: seq<Box>, tracks: seq<TrackIn>, pos: nat, seg: nat, length: nat): Refs {
    if boxes == [] then Refs([]) else
      Then(if boxes[0].MoofBox? then ReadTrafs(boxes[0].moof.trafs, tracks, pos, seg, length) else Refs([]),
           ReadBoxes(boxes[1..], tracks, pos + |BoxBytes(boxes[0])|, seg, length))
  }

  function FirstOf(refs: seq<SampleRef>, track: nat): (r: Option<SampleRef>)
    ensures r.Some? ==> r.value in refs && r.value.track == track
    decreases |refs|
  {
    if refs == [] then None else if refs[0].track == track then Some(refs[0]) else FirstOf(refs[1..], track)
  }

  /** The first primary sample fixes where the segment is on the timeline. */
  function Timed(refs: seq<SampleRef>, tracks: seq<TrackIn>, start: int): (t: seq<SampleRef>)
    requires FirstOf(refs, 0).Some? && tracks != []
    requires forall i :: 0 <= i < |refs| ==> refs[i].track < |tracks|
    ensures |t| == |refs|
  {
    var base := MicrosOf(FirstOf(refs, 0).value.dts, tracks[0].timescale);
    seq(|refs|, i requires 0 <= i < |refs| =>
      refs[i].(time := start + MicrosOf(refs[i].dts, tracks[refs[i].track].timescale) - base))
  }

  function ReadSegment(boxes: seq<Box>, tracks: seq<TrackIn>, seg: nat, start: int): Refs
    requires tracks != []
  {
    var read := ReadBoxes(boxes, tracks, 0, seg, |FileOf(boxes)|);
    TracksKnown(boxes, tracks, 0, seg, |FileOf(boxes)|);
    if read.Failed? then read
    else if FirstOf(read.refs, 0).None? then Failed(NoPrimary)
    else Refs(Timed(read.refs, tracks, start))
  }

  lemma {:induction false} RunTrack(entries: seq<TrunEntry>, at: At, length: nat)
    ensures var r := ReadRun(entries, at, length); r.Refs? ==> forall i :: 0 <= i < |r.refs| ==>
      r.refs[i].track == at.track
    decreases |entries|
  {
    if entries != [] {
      RunTrack(entries[1..], Step(at, entries[0]), length);
    }
  }

  /** If there are any references, they are to known tracks. */
  ghost predicate Known(r: Refs, n: nat) {
    r.Refs? ==> forall i :: 0 <= i < |r.refs| ==> r.refs[i].track < n
  }

  lemma {:induction false} ThenKnown(a: Refs, b: Refs, n: nat)
    requires Known(a, n) && Known(b, n)
    ensures Known(Then(a, b), n)
  {}

  lemma {:induction false} TrafKnown(traf: Traf, tracks: seq<TrackIn>, pos: nat, seg: nat, length: nat)
    ensures Known(ReadTraf(traf, tracks, pos, seg, length), |tracks|)
  {
    hide ReadRun;
    var track := Position(tracks, traf.trackId);
    if track.Some? {
      RunTrack(traf.entries, At(track.value, seg, pos + traf.dataOffset, traf.baseDecodeTime), length);
    }
  }

  lemma {:induction false} TrafsKnown(trafs: seq<Traf>, tracks: seq<TrackIn>, pos: nat, seg: nat, length: nat)
    ensures Known(ReadTrafs(trafs, tracks, pos, seg, length), |tracks|)
    decreases |trafs|
  {
    hide ReadTraf, Then;
    if trafs != [] {
      TrafKnown(trafs[0], tracks, pos, seg, length);
      TrafsKnown(trafs[1..], tracks, pos, seg, length);
      hide Known;
      ThenKnown(ReadTraf(trafs[0], tracks, pos, seg, length), ReadTrafs(trafs[1..], tracks, pos, seg, length),
        |tracks|);
    }
  }

  lemma {:induction false} BoxesKnown(boxes: seq<Box>, tracks: seq<TrackIn>, pos: nat, seg: nat, length: nat)
    ensures Known(ReadBoxes(boxes, tracks, pos, seg, length), |tracks|)
    decreases |boxes|
  {
    hide ReadTrafs, Then, BoxBytes;
    if boxes != [] {
      var first := if boxes[0].MoofBox? then ReadTrafs(boxes[0].moof.trafs, tracks, pos, seg, length) else Refs([]);
      if boxes[0].MoofBox? {
        TrafsKnown(boxes[0].moof.trafs, tracks, pos, seg, length);
      }
      var next := pos + |BoxBytes(boxes[0])|;
      BoxesKnown(boxes[1..], tracks, next, seg, length);
      ThenKnown(first, ReadBoxes(boxes[1..], tracks, next, seg, length), |tracks|);
    }
  }

  lemma {:induction false} TracksKnown(boxes: seq<Box>, tracks: seq<TrackIn>, pos: nat, seg: nat, length: nat)
    ensures var r := ReadBoxes(boxes, tracks, pos, seg, length);
            r.Refs? ==> forall i :: 0 <= i < |r.refs| ==> r.refs[i].track < |tracks|
  {
    hide ReadBoxes;
    BoxesKnown(boxes, tracks, pos, seg, length);
  }

  // ---- The reader's loops ----

  method AppendRun(entries: seq<TrunEntry>, first: At, length: nat, before: seq<SampleRef>) returns (out: Refs)
    ensures out == Then(Refs(before), ReadRun(entries, first, length))
  {
    var at, refs := first, before;
    for i := 0 to |entries|
      invariant Then(Refs(refs), ReadRun(entries[i..], at, length)) ==
        Then(Refs(before), ReadRun(entries, first, length))
    {
      var e := entries[i];
      assert entries[i..][0] == e && entries[i..][1..] == entries[i + 1..];
      if at.offset < 0 || at.offset + e.size > length {
        return Failed(OutsideFile);
      }
      refs := refs + [RefOf(e, at)];
      at := Step(at, e);
    }
    out := Refs(refs);
  }

  method AppendTrafs(trafs: seq<Traf>, tracks: seq<TrackIn>, pos: nat, seg: nat, length: nat,
          before: seq<SampleRef>) returns (out: Refs)
    ensures out == Then(Refs(before), ReadTrafs(trafs, tracks, pos, seg, length))
  {
    hide ReadTrafs, ReadTraf, ReadRun, Position;
    var refs := before;
    assert trafs[0..] == trafs;
    for i := 0 to |trafs|
      invariant Then(Refs(refs), ReadTrafs(trafs[i..], tracks, pos, seg, length))
             == Then(Refs(before), ReadTrafs(trafs, tracks, pos, seg, length))
    {
      TrafsFrom(trafs, i, tracks, pos, seg, length);
      ThenAssoc(Refs(refs), ReadTraf(trafs[i], tracks, pos, seg, length),
        ReadTrafs(trafs[i + 1..], tracks, pos, seg, length));
      var more := AppendTraf(trafs[i], tracks, pos, seg, length, refs);
      if more.Failed? {
        return more;
      }
      refs := more.refs;
    }
    TrafsFrom(trafs, |trafs|, tracks, pos, seg, length);
    out := Refs(refs);
  }

  lemma {:induction false} TrafsFrom(trafs: seq<Traf>, i: nat, tracks: seq<TrackIn>, pos: nat, seg: nat, length: nat)
    requires i <= |trafs|
    ensures ReadTrafs(trafs[i..], tracks, pos, seg, length) ==
      if i == |trafs| then Refs([])
      else Then(ReadTraf(trafs[i], tracks, pos, seg, length), ReadTrafs(trafs[i + 1..], tracks, pos, seg, length))
  {
    if i < |trafs| {
      assert trafs[i..][0] == trafs[i] && trafs[i..][1..] == trafs[i + 1..];
    }
  }

  method AppendTraf(traf: Traf, tracks: seq<TrackIn>, pos: nat, seg: nat, length: nat,
          before: seq<SampleRef>) returns (out: Refs)
    ensures out == Then(Refs(before), ReadTraf(traf, tracks, pos, seg, length))
  {
    var track := Position(tracks, traf.trackId);
    if track.None? {
      return Refs(before);
    }
    out := AppendRun(traf.entries, At(track.value, seg, pos + traf.dataOffset, traf.baseDecodeTime), length, before);
  }

  lemma {:induction false} ThenAssoc(a: Refs, b: Refs, c: Refs)
    ensures Then(Then(a, b), c) == Then(a, Then(b, c))
  {
    if a.Refs? && b.Refs? && c.Refs? {
      assert a.refs + b.refs + c.refs == a.refs + (b.refs + c.refs);
    }
  }

  method WalkBoxes(boxes: seq<Box>, tracks: seq<TrackIn>, seg: nat, length: nat) returns (out: Refs)
    ensures out == ReadBoxes(boxes, tracks, 0, seg, length)
  {
    var pos: nat, refs := 0, [];
    assert Then(Refs([]), ReadBoxes(boxes, tracks, 0, seg, length)) == ReadBoxes(boxes, tracks, 0, seg, length);
    assert boxes[0..] == boxes;
    for i := 0 to |boxes|
      invariant Then(Refs(refs), ReadBoxes(boxes[i..], tracks, pos, seg, length)) ==
        ReadBoxes(boxes, tracks, 0, seg, length)
    {
      assert boxes[i..][0] == boxes[i] && boxes[i..][1..] == boxes[i + 1..];
      ghost var next := ReadBoxes(boxes[i + 1..], tracks, pos + |BoxBytes(boxes[i])|, seg, length);
      ghost var more := if boxes[i].MoofBox? then ReadTrafs(boxes[i].moof.trafs, tracks, pos, seg, length)
        else Refs([]);
      assert ReadBoxes(boxes[i..], tracks, pos, seg, length) == Then(more, next);
      hide ReadBoxes, ReadTrafs, BoxBytes;
      ThenAssoc(Refs(refs), more, next);
      if boxes[i].MoofBox? {
        var both := AppendTrafs(boxes[i].moof.trafs, tracks, pos, seg, length, refs);
        if both.Failed? {
          return both;
        }
        refs := both.refs;
      } else {
        assert refs + [] == refs;
      }
      pos := pos + |BoxBytes(boxes[i])|;
    }
    assert boxes[|boxes|..] == [];
    assert refs + [] == refs;
    out := Refs(refs);
  }

  method ReadFile(boxes: seq<Box>, tracks: seq<TrackIn>, seg: nat, start: int) returns (out: Refs)
    requires tracks != []
    ensures out == ReadSegment(boxes, tracks, seg, start)
  {
    var length := |FileOf(boxes)|;
    out := WalkBoxes(boxes, tracks, seg, length);
    if out.Refs? {
      TracksKnown(boxes, tracks, 0, seg, length);
      if FirstOf(out.refs, 0).None? {
        return Failed(NoPrimary);
      }
      out := Refs(Timed(out.refs, tracks, start));
    }
  }
}
