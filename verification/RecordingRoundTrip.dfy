/** From the samples as they were recorded to the samples of a clip as it is opened: the same samples. */
module RecordingRoundTrip {
  import opened Util
  import opened Fmp4
  import opened SegmentFile
  import opened SegmentRoundTrip
  import opened Clip
  import opened Mp4Source
  import opened ClipRoundTrip

  // ---- Reading all the files ----

  function FilesOf(written: seq<seq<Written>>): (f: seq<Bytes>)
    ensures |f| == |written|
  {
    seq(|written|, i requires 0 <= i < |written| => BytesOf(written[i]))
  }

  function AllOrigins(written: seq<seq<Written>>, tracks: seq<TrackIn>): seq<Origin> {
    if written == [] then [] else FileOrigins(written[0], tracks) + AllOrigins(written[1..], tracks)
  }

  /** References into files numbered from `seg`, in file order, one for each origin. */
  ghost predicate Recovered(files: seq<Bytes>, refs: seq<SampleRef>, origins: seq<Origin>, seg: nat) {
    && |refs| == |origins|
    && (forall i :: 0 <= i < |refs| ==>
         seg <= refs[i].seg < seg + |files| && Refers(files[refs[i].seg - seg], refs[i], origins[i]))
    && (forall i, j :: 0 <= i < j < |refs| ==> AtOrBefore(refs[i], refs[j]))
  }

  /** The files read are those the fragments were written to. */
  ghost predicate Wrote(files: seq<(Segment, int)>, written: seq<seq<Written>>) {
    |files| == |written| && forall i :: 0 <= i < |files| ==> files[i].0.boxes == BoxesOf(written[i])
  }

  lemma {:induction false} OneFile(file: Bytes, refs: seq<SampleRef>, origins: seq<Origin>, seg: nat)
    requires AllRefer(file, refs, origins, seg, 0, |file|)
    ensures Recovered([file], refs, origins, seg)
  {
    hide Refers;
  }

  lemma {:induction false} RecoveredAdd(file: Bytes, a: seq<SampleRef>, oa: seq<Origin>,
                                        files: seq<Bytes>, b: seq<SampleRef>, ob: seq<Origin>, seg: nat)
    requires Recovered([file], a, oa, seg) && Recovered(files, b, ob, seg + 1)
    ensures Recovered([file] + files, a + b, oa + ob, seg)
  {
    hide Refers;
    var all := [file] + files;
    forall i | 0 <= i < |a + b|
      ensures seg <= (a + b)[i].seg < seg + |all| && Refers(all[(a + b)[i].seg - seg], (a + b)[i], (oa + ob)[i])
    {
      if i < |a| {
        assert all[a[i].seg - seg] == file;
      } else {
        assert all[b[i - |a|].seg - seg] == files[b[i - |a|].seg - (seg + 1)];
      }
    }
  }

  lemma {:induction false} ReadAllBack(files: seq<(Segment, int)>, written: seq<seq<Written>>,
          tracks: seq<TrackIn>, seg: nat)
    requires tracks != [] && Wrote(files, written) && ReadAll(files, tracks, seg).Refs?
    ensures Recovered(FilesOf(written), ReadAll(files, tracks, seg).refs, AllOrigins(written, tracks), seg)
    decreases |files|
  {
    hide ReadSegment, BoxesOf, BytesOf, FileOrigins, Recovered;
    if files == [] {
      NothingRecovered(FilesOf(written), AllOrigins(written, tracks), seg);
    } else {
      assert Wrote(files[1..], written[1..]);
      ReadAllBack(files[1..], written[1..], tracks, seg + 1);
      SegmentRead(written[0], tracks, seg, files[0].1);
      var one := ReadSegment(files[0].0.boxes, tracks, seg, files[0].1);
      assert FilesOf(written) == [BytesOf(written[0])] + FilesOf(written[1..]);
      RecoveredAdd(BytesOf(written[0]), one.refs, FileOrigins(written[0], tracks),
                   FilesOf(written[1..]), ReadAll(files[1..], tracks, seg + 1).refs,
                   AllOrigins(written[1..], tracks), seg);
    }
  }

  lemma {:induction false} SegmentRead(fs: seq<Written>, tracks: seq<TrackIn>, seg: nat, start: int)
    requires tracks != [] && ReadSegment(BoxesOf(fs), tracks, seg, start).Refs?
    ensures Recovered([BytesOf(fs)], ReadSegment(BoxesOf(fs), tracks, seg, start).refs, FileOrigins(fs, tracks), seg)
  {
    hide ReadSegment, BoxesOf, BytesOf, FileOrigins, Recovered, AllRefer;
    SegmentComesBack(fs, tracks, seg, start);
    OneFile(BytesOf(fs), ReadSegment(BoxesOf(fs), tracks, seg, start).refs, FileOrigins(fs, tracks), seg);
  }

  lemma {:induction false} NothingRecovered(files: seq<Bytes>, origins: seq<Origin>, seg: nat)
    requires origins == []
    ensures Recovered(files, [], origins, seg)
  {}

  // ---- Selection keeps the recording's order ----

  ghost predicate Ordered(s: seq<SampleRef>) {
    forall i, j :: 0 <= i < j < |s| ==> AtOrBefore(s[i], s[j])
  }

  lemma {:induction false} SortedStays(s: seq<SampleRef>)
    requires Ordered(s)
    ensures Sorted(s) == s
    decreases |s|
  {
    if s != [] {
      SortedStays(s[1..]);
      assert s == [s[0]] + s[1..];
    }
  }

  lemma {:induction false} FilterOrdered(s: seq<SampleRef>, span: Span, tracks: seq<TrackIn>)
    requires Ordered(s) && span.last.track < |tracks| && forall i :: 0 <= i < |s| ==> s[i].track < |tracks|
    ensures Ordered(Filter(s, span, tracks))
    decreases |s|
  {
    hide Wanted, AtOrBefore;
    if s != [] {
      FilterOrdered(s[1..], span, tracks);
      var rest := Filter(s[1..], span, tracks);
      forall k | 0 <= k < |rest|
        ensures AtOrBefore(s[0], rest[k])
      {
        assert rest[k] in s[1..];
      }
    }
  }

  /** A sample is kept exactly when it is wanted. */
  lemma {:induction false} FilterKeeps(s: seq<SampleRef>, span: Span, tracks: seq<TrackIn>, x: SampleRef)
    requires span.last.track < |tracks| && forall i :: 0 <= i < |s| ==> s[i].track < |tracks|
    requires x.track < |tracks|
    ensures x in Filter(s, span, tracks) <==> x in s && Wanted(x, span, tracks)
    decreases |s|
  {
    hide Wanted;
    if s != [] {
      FilterKeeps(s[1..], span, tracks, x);
      assert s == [s[0]] + s[1..];
    }
  }

  /**
    The clip starts on a key sample: the last one at or before the start asked for, if there is one,
    and otherwise the first there is. It fails only if there is none at all.
   */
  lemma {:induction false} StartsOnAKey(primary: seq<SampleRef>, start: int, end: int)
    ensures SpanOf(primary, start, end).None? <==> forall i :: 0 <= i < |primary| ==> !primary[i].key
    ensures SpanOf(primary, start, end).Some? ==>
      var span := SpanOf(primary, start, end).value;
      exists i, j :: 0 <= i <= j < |primary| && span == Span(primary[i], primary[j]) && primary[i].key
        && (if primary[i].time <= start then forall k :: i < k < |primary| && primary[k].key ==> primary[k].time > start
            else forall k :: 0 <= k < |primary| && primary[k].key ==> k >= i && primary[k].time > start)
        && forall k :: j < k < |primary| ==> primary[k].time >= end
  {
    var snapped, any, before := LastKeyBy(primary, start), FirstKey(primary, 0), LastBefore(primary, end);
    if snapped.Some? || any.Some? {
      var i := if snapped.Some? then snapped.value else any.value;
      var j := if before.Some? && before.value > i then before.value else i;
      assert 0 <= i <= j < |primary| && SpanOf(primary, start, end).value == Span(primary[i], primary[j]);
    }
  }

  // ---- End to end ----

  predicate Smallish(s: seq<SampleRef>) {
    forall i :: 0 <= i < |s| ==> s[i].size <= MAX_SAMPLE
  }

  /** Opening the clip is refused exactly if a recorded sample is larger than the source believes samples can be. */
  lemma {:induction false} OpensIfSmall(out: seq<Opened>, s: seq<SampleRef>, video: bool, timescale: nat, media: nat)
    requires |out| == |s| && forall i :: 0 <= i < |s| ==> Describes(out[i], s, i, video, timescale, media)
    ensures Plausible(out) <==> Smallish(s)
  {
    hide Describes;
    forall i | 0 <= i < |s|
      ensures out[i].size == s[i].size
    {
      DescribesSize(out[i], s, i, video, timescale, media);
    }
  }

  /** The opened sample is the recorded one: its place in the clip holds the recorded bytes. */
  ghost predicate Returns(clip: Bytes, o: Opened, ref: SampleRef, origin: Origin) {
    && ref.track == origin.track && ref.dur == origin.sample.dur && ref.cts == origin.sample.cts
    && ref.key == origin.sample.key && ref.dts == origin.sample.dts
    && o.size == |origin.sample.data| && o.offset + o.size <= |clip|
    && clip[o.offset..o.offset + o.size] == origin.sample.data
  }

  lemma {:induction false} OriginOf(files: seq<Bytes>, refs: seq<SampleRef>, origins: seq<Origin>,
          s: SampleRef) returns (m: nat)
    requires Recovered(files, refs, origins, 0) && s in refs
    ensures m < |refs| == |origins| && s == refs[m] && InFile(files, s) && Data(files, s) == origins[m].sample.data
    ensures Refers(files[s.seg], s, origins[m])
  {
    m :| 0 <= m < |refs| && refs[m] == s;
    assert Refers(files[refs[m].seg - 0], refs[m], origins[m]);
  }

  lemma {:induction false} ChosenInFile(files: seq<Bytes>, refs: seq<SampleRef>, origins: seq<Origin>,
          chosen: seq<SampleRef>)
    requires Recovered(files, refs, origins, 0) && forall i :: 0 <= i < |chosen| ==> chosen[i] in refs
    ensures AllInFile(files, chosen)
  {
    hide Recovered, InFile;
    forall i | 0 <= i < |chosen|
      ensures InFile(files, chosen[i])
    {
      var m := OriginOf(files, refs, origins, chosen[i]);
    }
  }

  lemma {:induction false} PlannedFrom(recording: seq<Segment>, tracks: seq<TrackIn>, from: int, end: int)
    requires PlanClip(recording, tracks, from, end).Ready?
    ensures tracks != []
    ensures var p, read := PlanClip(recording, tracks, from, end),
      ReadAll(TouchedOf(recording, 0, from, end), tracks, 0);
            && read.Refs? && p.span.last.track < |tracks|
               && (forall i :: 0 <= i < |read.refs| ==> read.refs[i].track < |tracks|)
            && SpanOf(OfTrack(read.refs, 0), from, end) == Some(p.span)
            && p.chosen == Sorted(Filter(read.refs, p.span, tracks)) && p.plan == PlanOf(|tracks|, p.chosen)
  {
    ReadAllKnown(TouchedOf(recording, 0, from, end), tracks, 0);
    hide ReadAll, TouchedOf, PlanOf, Filter, Sorted;
  }

  /** The clip has the sample's track, and the track the sample. */
  ghost predicate InSomeTrack(p: Planned, s: SampleRef)
    requires p.Ready?
  {
    exists k :: 0 <= k < |p.plan.traks| && p.plan.traks[k].track == s.track && s in OfTrack(p.chosen, s.track)
  }

  lemma {:induction false} AllInTracks(p: Planned, refs: seq<SampleRef>, n: nat)
    requires p.Ready? && p.plan == PlanOf(n, p.chosen) && forall i :: 0 <= i < |refs| ==> refs[i].track < n
    requires forall i :: 0 <= i < |p.chosen| ==> p.chosen[i] in refs
    ensures forall s :: s in p.chosen ==> InSomeTrack(p, s)
  {
    hide PlanOf, OfTrack;
    forall s | s in p.chosen
      ensures InSomeTrack(p, s)
    {
      var k := TrackOf(n, p.chosen, s);
    }
  }

  /**
    The whole way: fragments written to segment files, read back, cut to a clip and opened. For every track of
    the clip, the samples come out in recording order, all that were chosen, and each is one of the recorded
    samples, with its own size, duration, composition offset and key flag and exactly its own bytes. No chosen sample
    is missing: each is among those of one of the clip's tracks.
   */
  lemma {:induction false} ClipComesBack(recording: seq<Segment>, written: seq<seq<Written>>, tracks: seq<TrackIn>,
          from: int, end: int,
                                         k: nat, video: bool, timescale: nat, media: nat)
    requires PlanClip(recording, tracks, from, end).Ready? && k < |PlanClip(recording, tracks, from, end).plan.traks|
    requires Wrote(TouchedOf(recording, 0, from, end), written)
    ensures PiecesInFile(FilesOf(written), PlanClip(recording, tracks, from, end).plan.pieces)
    ensures var p := PlanClip(recording, tracks, from, end);
            forall s :: s in p.chosen ==> InSomeTrack(p, s)
    ensures tracks != [] && ReadAll(TouchedOf(recording, 0, from, end), tracks, 0).Refs?
    ensures var p, refs := PlanClip(recording, tracks, from, end),
      ReadAll(TouchedOf(recording, 0, from, end), tracks, 0).refs;
            var clip, t := ClipBytes(FilesOf(written), p.plan), p.plan.traks[k];
            var s, out, origins := OfTrack(p.chosen, t.track), Open(t, video, timescale, media),
              AllOrigins(written, tracks);
            && p.span.last.track < |tracks| && (forall i :: 0 <= i < |refs| ==> refs[i].track < |tracks|)
            && p.chosen == Filter(refs, p.span, tracks) && |refs| == |origins|
            && s != [] && |out| == |s|
            && (Plausible(out) <==> Smallish(s))
            && forall i :: 0 <= i < |s| ==>
                 && Describes(out[i], s, i, video, timescale, media)
                 && exists m :: 0 <= m < |refs| && s[i] == refs[m] && Returns(clip, out[i], refs[m], origins[m])
  {
    hide ReadAll, TouchedOf, Wrote, FilesOf, AllOrigins, PlanClip, PlanOf, Open, ClipBytes, Filter, Sorted;
    hide Recovered, AllInFile, PiecesInFile, Describes, InFile, Data, SpanOf, Returns, Refers, Ordered, Plausible,
      Smallish;
    var p, files, origins := PlanClip(recording, tracks, from, end), FilesOf(written), AllOrigins(written, tracks);
    PlannedFrom(recording, tracks, from, end);
    ReadAllBack(TouchedOf(recording, 0, from, end), written, tracks, 0);
    var refs := ReadAll(TouchedOf(recording, 0, from, end), tracks, 0).refs;
    RecoveredOrdered(files, refs, origins);
    FilterOrdered(refs, p.span, tracks);
    SortedStays(Filter(refs, p.span, tracks));
    ChosenInFile(files, refs, origins, p.chosen);
    OpenedClip(|tracks|, files, p.chosen, k, video, timescale, media);
    AllInTracks(p, refs, |tracks|);
    var clip, t := ClipBytes(files, p.plan), p.plan.traks[k];
    var s, out := OfTrack(p.chosen, t.track), Open(t, video, timescale, media);
    OpensIfSmall(out, s, video, timescale, media);
    forall i | 0 <= i < |s|
      ensures exists m :: 0 <= m < |refs| && s[i] == refs[m] && Returns(clip, out[i], refs[m], origins[m])
    {
      assert s[i] in p.chosen && s[i] in refs;
      var m := OriginOf(files, refs, origins, s[i]);
      DescribesSize(out[i], s, i, video, timescale, media);
      ReturnsIs(files, clip, out[i], refs[m], origins[m]);
    }
  }

  lemma {:induction false} RecoveredOrdered(files: seq<Bytes>, refs: seq<SampleRef>, origins: seq<Origin>)
    requires Recovered(files, refs, origins, 0)
    ensures Ordered(refs) && |refs| == |origins|
  {}

  lemma {:induction false} DescribesSize(o: Opened, s: seq<SampleRef>, i: nat, video: bool, timescale: nat, media: nat)
    requires i < |s| && Describes(o, s, i, video, timescale, media)
    ensures o.size == s[i].size
  {}

  lemma {:induction false} ReturnsIs(files: seq<Bytes>, clip: Bytes, o: Opened, ref: SampleRef, origin: Origin)
    requires InFile(files, ref) && Refers(files[ref.seg], ref, origin) && Data(files, ref) == origin.sample.data
    requires o.size == ref.size && o.offset + ref.size <= |clip|
      && clip[o.offset..o.offset + ref.size] == Data(files, ref)
    ensures Returns(clip, o, ref, origin)
  {}

  /** The plan, step by step: the files the range touches, the span, the samples wanted, and the layout. */
  method MakeClip(recording: seq<Segment>, tracks: seq<TrackIn>, from: int, end: int) returns (planned: Planned)
    ensures planned == PlanClip(recording, tracks, from, end)
  {
    if from < 0 || end <= from {
      return BadRange;
    }
    if tracks == [] {
      return NoTracks;
    }
    if recording == [] || from >= Total(recording) {
      return BadRange;
    }
    hide Filter, OfTrack, PlanOf, TouchedOf, ReadAll;
    var read := ReadTouched(recording, tracks, from, end);
    if read.Failed? {
      return Corrupt(read.error);
    }
    ReadAllKnown(TouchedOf(recording, 0, from, end), tracks, 0);
    var span := SpanOf(OfTrack(read.refs, 0), from, end);
    if span.None? {
      return BadRange;
    }
    var chosen := Chosen(read.refs, span.value, tracks);
    ChosenKnown(read.refs, span.value, tracks);
    var layout := LayOut(|tracks|, chosen);
    match layout
    case Fits(plan) => planned := Ready(plan, chosen, span.value);
    case Over => planned := TooLarge;
    case Changed => planned := SizeChanged;
  }

  lemma {:induction false} InsertHas(s: SampleRef, sorted: seq<SampleRef>, n: nat)
    requires s.track < n && forall i :: 0 <= i < |sorted| ==> sorted[i].track < n
    ensures forall i :: 0 <= i < |Insert(s, sorted)| ==> Insert(s, sorted)[i].track < n
    decreases |sorted|
  {
    if sorted != [] {
      InsertHas(s, sorted[1..], n);
    }
  }

  lemma {:induction false} SortedHas(s: seq<SampleRef>, n: nat)
    requires forall i :: 0 <= i < |s| ==> s[i].track < n
    ensures forall i :: 0 <= i < |Sorted(s)| ==> Sorted(s)[i].track < n
    decreases |s|
  {
    if s != [] {
      SortedHas(s[1..], n);
      InsertHas(s[0], Sorted(s[1..]), n);
    }
  }

  lemma {:induction false} ChosenKnown(samples: seq<SampleRef>, span: Span, tracks: seq<TrackIn>)
    requires span.last.track < |tracks| && forall i :: 0 <= i < |samples| ==> samples[i].track < |tracks|
    ensures forall i :: 0 <= i < |Chosen(samples, span, tracks)| ==> Chosen(samples, span, tracks)[i].track < |tracks|
  {
    hide Filter;
    SortedHas(Filter(samples, span, tracks), |tracks|);
  }
}
