/**
  A clip, opened again, gives back the chosen samples of every track: in order, with their own bytes, sizes and
  times.
 */
module ClipRoundTrip {
  import opened Util
  import opened Fmp4
  import opened SegmentFile
  import opened SegmentRoundTrip
  import opened Clip
  import opened Mp4Source

  // ---- Where the samples go ----

  function Data(files: seq<Bytes>, s: SampleRef): Bytes
    requires InFile(files, s)
  {
    files[s.seg][s.offset..s.offset + s.size]
  }

  predicate InFile(files: seq<Bytes>, s: SampleRef) {
    s.seg < |files| && 0 <= s.offset && s.offset + s.size <= |files[s.seg]|
  }

  ghost predicate AllInFile(files: seq<Bytes>, chosen: seq<SampleRef>) {
    forall i :: 0 <= i < |chosen| ==> InFile(files, chosen[i])
  }

  /** All the chosen samples' bytes, one after the other. */
  function AllData(files: seq<Bytes>, chosen: seq<SampleRef>): Bytes
    requires AllInFile(files, chosen)
    decreases |chosen|
  {
    if chosen == [] then [] else AllData(files, chosen[..|chosen| - 1]) + Data(files, chosen[|chosen| - 1])
  }

  /** Where each sample of a track lands, with the samples laid out from `base`. */
  function Places(chosen: seq<SampleRef>, base: nat, track: nat): (p: seq<nat>)
    ensures |p| == |OfTrack(chosen, track)|
    decreases |chosen|
  {
    if chosen == [] then [] else
      var init := chosen[..|chosen| - 1];
      Places(init, base, track) + if chosen[|chosen| - 1].track == track then [base + TotalSize(init)] else []
  }

  lemma {:induction false} DataSize(files: seq<Bytes>, chosen: seq<SampleRef>)
    requires AllInFile(files, chosen)
    ensures |AllData(files, chosen)| == TotalSize(chosen)
    decreases |chosen|
  {
    if chosen != [] {
      DataSize(files, chosen[..|chosen| - 1]);
    }
  }

  /** At its place, a sample's own bytes. */
  lemma {:induction false} PlacedData(files: seq<Bytes>, chosen: seq<SampleRef>, base: nat, track: nat, i: nat)
    requires AllInFile(files, chosen) && i < |OfTrack(chosen, track)|
    ensures var s, p := OfTrack(chosen, track)[i], Places(chosen, base, track)[i];
            && InFile(files, s) && base <= p && p + s.size <= base + TotalSize(chosen)
            && |AllData(files, chosen)| == TotalSize(chosen)
            && AllData(files, chosen)[p - base..p - base + s.size] == Data(files, s)
    decreases |chosen|
  {
    hide Data, TotalSize, InFile, OfTrack, Places, AllData;
    if chosen == [] {
      NoSamples(track);
    } else {
      var init := chosen[..|chosen| - 1];
      DataSize(files, init);
      DataSize(files, chosen);
      LastSample(files, chosen, base, track);
      if i < |OfTrack(init, track)| {
        PlacedData(files, init, base, track, i);
        var s, p := OfTrack(init, track)[i], Places(init, base, track)[i];
        InPrefix(AllData(files, init), AllData(files, chosen), p - base, s.size);
      }
    }
  }

  lemma {:induction false} NoSamples(track: nat)
    ensures OfTrack([], track) == []
  {}

  /** What the last sample adds. */
  lemma {:induction false} LastSample(files: seq<Bytes>, chosen: seq<SampleRef>, base: nat, track: nat)
    requires AllInFile(files, chosen) && chosen != []
    ensures var init, last := chosen[..|chosen| - 1], chosen[|chosen| - 1];
            && InFile(files, last) && |Data(files, last)| == last.size
            && AllData(files, chosen) == AllData(files, init) + Data(files, last)
            && TotalSize(chosen) == TotalSize(init) + last.size
            && (if last.track == track
                then OfTrack(chosen, track) == OfTrack(init, track) + [last]
                     && Places(chosen, base, track) == Places(init, base, track) + [base + TotalSize(init)]
                else OfTrack(chosen, track) == OfTrack(init, track)
                     && Places(chosen, base, track) == Places(init, base, track))
  {}

  lemma {:induction false} InPrefix(a: Bytes, b: Bytes, at: nat, size: nat)
    requires a <= b && at + size <= |a|
    ensures b[at..at + size] == a[at..at + size]
  {}

  // ---- What the chunks and tables say ----

  /** What holds of a track's chunk tables while the chunks are built. */
  ghost predicate Tabled(chosen: seq<SampleRef>, base: nat, track: nat) {
    var chunks := Chunks(chosen);
    var offsets, counts, sizes := Offsets(chunks, base, track), Counts(chunks, track), Sizes(OfTrack(chosen, track));
    && |offsets| == |counts| && Sum(counts) == |sizes| && Len(chunks) == TotalSize(chosen)
    && Laid(offsets, counts, sizes) == Places(chosen, base, track)
    && (chunks != [] && chunks[|chunks| - 1].track == track ==>
        var c := chunks[|chunks| - 1];
        && counts != [] && counts[|counts| - 1] == c.samples && c.samples <= |sizes|
        && offsets[|offsets| - 1] + c.len == base + Len(chunks)
        && Sum(sizes[|sizes| - c.samples..]) == c.len)
  }

  lemma {:induction false} LaidNew(offsets: seq<nat>, counts: seq<nat>, sizes: seq<nat>, at: nat, z: nat)
    requires |offsets| == |counts| && Sum(counts) == |sizes|
    ensures Sum(counts + [1]) == |sizes + [z]|
    ensures Laid(offsets + [at], counts + [1], sizes + [z]) == Laid(offsets, counts, sizes) + [at]
  {
    var c, o, s := counts + [1], offsets + [at], sizes + [z];
    assert c[..|c| - 1] == counts && o[..|o| - 1] == offsets && s[..|s| - 1] == sizes && s[|s| - 1..] == [z];
    assert Consecutive(at, [z]) == [at] + Consecutive(at + z, []);
  }

  lemma {:induction false} LaidMore(offsets: seq<nat>, counts: seq<nat>, sizes: seq<nat>, z: nat)
    requires |offsets| == |counts| && Sum(counts) == |sizes| && counts != []
    ensures var n := |counts| - 1;
            var more := counts[..n] + [counts[n] + 1];
            && counts[n] <= |sizes|
            && Sum(more) == |sizes + [z]|
            && Laid(offsets, more, sizes + [z])
               == Laid(offsets, counts, sizes) + [offsets[n] + Sum(sizes[|sizes| - counts[n]..])]
  {
    var n := |counts| - 1;
    var more, s, m := counts[..n] + [counts[n] + 1], sizes + [z], |sizes| - counts[n];
    assert more[..n] == counts[..n];
    assert s[..m] == sizes[..m] && s[m..] == sizes[m..] + [z];
    ConsecutiveSnoc(offsets[n], sizes[m..], z);
    hide Consecutive;
    var before := Laid(offsets[..n], counts[..n], sizes[..m]);
    assert Laid(offsets, counts, sizes) == before + Consecutive(offsets[n], sizes[m..]);
    assert Laid(offsets, more, s) == before + Consecutive(offsets[n], s[m..]);
  }

  lemma {:induction false} TrackSnoc(chosen: seq<SampleRef>, base: nat, track: nat)
    requires chosen != []
    ensures var init, s := chosen[..|chosen| - 1], chosen[|chosen| - 1];
            && Chunks(chosen) == AddSample(Chunks(init), s) && TotalSize(chosen) == TotalSize(init) + s.size
            && (if s.track == track
                then Sizes(OfTrack(chosen, track)) == Sizes(OfTrack(init, track)) + [s.size]
                     && Places(chosen, base, track) == Places(init, base, track) + [base + TotalSize(init)]
                else OfTrack(chosen, track) == OfTrack(init, track)
                     && Places(chosen, base, track) == Places(init, base, track))
  {
    hide AddSample;
  }

  /** Adding a chunk, or growing the last one, as the tables of a track see it. */
  lemma {:induction false} ChunkSnoc(init: seq<Chunk>, c: Chunk, base: nat, track: nat)
    ensures Len(init + [c]) == Len(init) + c.len
    ensures Counts(init + [c], track) == if c.track == track then Counts(init, track) + [c.samples]
      else Counts(init, track)
    ensures Offsets(init + [c], base, track)
         == if c.track == track then Offsets(init, base, track) + [base + Len(init)] else Offsets(init, base, track)
  {
    assert (init + [c])[..|init|] == init;
  }

  lemma {:induction false} TabledNew(chosen: seq<SampleRef>, base: nat, track: nat)
    requires chosen != [] && Tabled(chosen[..|chosen| - 1], base, track)
    requires var init, s := Chunks(chosen[..|chosen| - 1]), chosen[|chosen| - 1];
             init == [] || !Continues(init[|init| - 1], s)
    ensures Tabled(chosen, base, track)
  {
    hide Chunks, Counts, Offsets, Len, Sum, Laid, Places, OfTrack, TotalSize;
    var init, s := chosen[..|chosen| - 1], chosen[|chosen| - 1];
    TrackSnoc(chosen, base, track);
    var chunks := Chunks(init);
    var c := Chunk(s.track, s.seg, s.offset, s.size, 1);
    assert Chunks(chosen) == chunks + [c];
    ChunkSnoc(chunks, c, base, track);
    if s.track == track {
      var sizes := Sizes(OfTrack(init, track));
      LaidNew(Offsets(chunks, base, track), Counts(chunks, track), sizes, base + Len(chunks), s.size);
      var now := sizes + [s.size];
      assert now[|now| - 1..] == [s.size];
      SumOne(s.size);
    }
  }

  lemma {:induction false} SumOne(n: nat)
    ensures Sum([n]) == n
  {
    assert [n][..0] == [];
  }

  lemma {:induction false} SumSnoc(s: seq<nat>, n: nat)
    ensures Sum(s + [n]) == Sum(s) + n
  {
    assert (s + [n])[..|s|] == s;
  }

  lemma {:induction false} TabledMore(chosen: seq<SampleRef>, base: nat, track: nat)
    requires chosen != [] && Tabled(chosen[..|chosen| - 1], base, track)
    requires var init, s := Chunks(chosen[..|chosen| - 1]), chosen[|chosen| - 1];
             init != [] && Continues(init[|init| - 1], s)
    ensures Tabled(chosen, base, track)
  {
    hide Chunks, Counts, Offsets, Len, Sum, Laid, Places, OfTrack, TotalSize, Sizes;
    var init, s := chosen[..|chosen| - 1], chosen[|chosen| - 1];
    TrackSnoc(chosen, base, track);
    var chunks := Chunks(init);
    var n := |chunks| - 1;
    var c := chunks[n].(len := chunks[n].len + s.size, samples := chunks[n].samples + 1);
    assert Chunks(chosen) == chunks[..n] + [c];
    ChunkSnoc(chunks[..n], chunks[n], base, track);
    assert chunks[..n] + [chunks[n]] == chunks;
    ChunkSnoc(chunks[..n], c, base, track);
    if s.track == track {
      LastCounted(Offsets(chunks, base, track), Counts(chunks, track), Sizes(OfTrack(init, track)), s.size,
                  Counts(chunks[..n], track), chunks[n].samples);
    }
  }

  /** One sample more in the last chunk of a track. */
  lemma {:induction false} LastCounted(offsets: seq<nat>, counts: seq<nat>, sizes: seq<nat>, size: nat,
          before: seq<nat>, last: nat)
    requires |offsets| == |counts| && Sum(counts) == |sizes| && counts == before + [last]
    ensures last <= |sizes|
    ensures var now, n := sizes + [size], |counts| - 1;
            && Sum(before + [last + 1]) == |now|
            && Laid(offsets, before + [last + 1], now) ==
               Laid(offsets, counts, sizes) + [offsets[n] + Sum(sizes[|sizes| - last..])]
            && Sum(now[|now| - (last + 1)..]) == Sum(sizes[|sizes| - last..]) + size
  {
    hide Sum, Laid;
    LaidMore(offsets, counts, sizes, size);
    assert counts[..|counts| - 1] == before;
    var now, m := sizes + [size], |sizes| - last;
    assert now[m..] == sizes[m..] + [size];
    SumSnoc(sizes[m..], size);
  }

  /** For every interleaving of tracks and chunks, the tables of a track lay its samples out at their places. */
  lemma {:induction false} ChunksAreTabled(chosen: seq<SampleRef>, base: nat, track: nat)
    ensures Tabled(chosen, base, track)
    decreases |chosen|
  {
    hide Tabled, Chunks;
    if chosen == [] {
      NothingTabled(chosen, base, track);
    } else {
      var init := Chunks(chosen[..|chosen| - 1]);
      ChunksAreTabled(chosen[..|chosen| - 1], base, track);
      if init == [] || !Continues(init[|init| - 1], chosen[|chosen| - 1]) {
        TabledNew(chosen, base, track);
      } else {
        TabledMore(chosen, base, track);
      }
    }
  }

  lemma {:induction false} NothingTabled(chosen: seq<SampleRef>, base: nat, track: nat)
    requires chosen == []
    ensures Tabled(chosen, base, track)
  {}

  // ---- The clip's bytes ----

  predicate PiecesInFile(files: seq<Bytes>, chunks: seq<Chunk>) {
    forall i :: 0 <= i < |chunks| ==>
      chunks[i].seg < |files| && 0 <= chunks[i].offset && chunks[i].offset + chunks[i].len <= |files[chunks[i].seg]|
  }

  function PieceBytes(files: seq<Bytes>, c: Chunk): Bytes
    requires c.seg < |files| && 0 <= c.offset && c.offset + c.len <= |files[c.seg]|
  {
    files[c.seg][c.offset..c.offset + c.len]
  }

  /** The byte ranges of the plan, copied as they are. */
  function Body(files: seq<Bytes>, chunks: seq<Chunk>): Bytes
    requires PiecesInFile(files, chunks)
    decreases |chunks|
  {
    if chunks == [] then [] else Body(files, chunks[..|chunks| - 1]) + PieceBytes(files, chunks[|chunks| - 1])
  }

  lemma {:induction false} BodySnoc(files: seq<Bytes>, init: seq<Chunk>, c: Chunk)
    requires PiecesInFile(files, init)
    requires c.seg < |files| && 0 <= c.offset && c.offset + c.len <= |files[c.seg]|
    ensures PiecesInFile(files, init + [c]) && Body(files, init + [c]) == Body(files, init) + PieceBytes(files, c)
  {
    assert (init + [c])[..|init|] == init;
  }

  lemma {:induction false} PieceGrows(files: seq<Bytes>, c: Chunk, s: SampleRef)
    requires c.seg < |files| && 0 <= c.offset && c.offset + c.len <= |files[c.seg]|
    requires InFile(files, s) && Continues(c, s)
    ensures PieceBytes(files, c.(len := c.len + s.size, samples := c.samples + 1)) ==
      PieceBytes(files, c) + Data(files, s)
  {}

  lemma {:induction false} BodyStep(files: seq<Bytes>, chunks: seq<Chunk>, s: SampleRef)
    requires PiecesInFile(files, chunks) && InFile(files, s)
    ensures PiecesInFile(files, AddSample(chunks, s))
    ensures Body(files, AddSample(chunks, s)) == Body(files, chunks) + Data(files, s)
  {
    hide Body, PieceBytes, Data;
    var n := |chunks| - 1;
    if chunks != [] && Continues(chunks[n], s) {
      PieceGrows(files, chunks[n], s);
      assert chunks[..n] + [chunks[n]] == chunks;
      BodySnoc(files, chunks[..n], chunks[n]);
      BodySnoc(files, chunks[..n], chunks[n].(len := chunks[n].len + s.size, samples := chunks[n].samples + 1));
    } else {
      NewPiece(files, s);
      BodySnoc(files, chunks, Chunk(s.track, s.seg, s.offset, s.size, 1));
    }
  }

  lemma {:induction false} NewPiece(files: seq<Bytes>, s: SampleRef)
    requires InFile(files, s)
    ensures PieceBytes(files, Chunk(s.track, s.seg, s.offset, s.size, 1)) == Data(files, s)
  {}

  /** The pieces, end to end, are the chosen samples' bytes, end to end. */
  lemma {:induction false} BodyIsTheData(files: seq<Bytes>, chosen: seq<SampleRef>)
    requires AllInFile(files, chosen)
    ensures PiecesInFile(files, Chunks(chosen)) && Body(files, Chunks(chosen)) == AllData(files, chosen)
    decreases |chosen|
  {
    hide AddSample, Data, InFile;
    if chosen != [] {
      BodyIsTheData(files, chosen[..|chosen| - 1]);
      BodyStep(files, Chunks(chosen[..|chosen| - 1]), chosen[|chosen| - 1]);
    }
  }

  function ClipBytes(files: seq<Bytes>, plan: Plan): Bytes
    requires PiecesInFile(files, plan.pieces)
  {
    plan.header + Body(files, plan.pieces)
  }

  // ---- A track, opened ----

  lemma {:induction false} KeyNumbersAre(s: seq<SampleRef>, i: nat)
    requires i < |s|
    ensures i + 1 in KeyNumbers(s) <==> s[i].key
    decreases |s|
  {
    var init := s[..|s| - 1];
    KeyNumbersBelow(init);
    if i < |init| {
      KeyNumbersAre(init, i);
    }
  }

  lemma {:induction false} KeyNumbersBelow(s: seq<SampleRef>)
    ensures forall k :: k in KeyNumbers(s) ==> 1 <= k <= |s|
    decreases |s|
  {
    if s != [] {
      KeyNumbersBelow(s[..|s| - 1]);
    }
  }

  lemma {:induction false} PrefixSumsAre(deltas: seq<nat>, i: nat)
    requires i < |deltas|
    ensures PrefixSums(deltas)[i] == Sum(deltas[..i])
    decreases |deltas|
  {
    if i < |deltas| - 1 {
      PrefixSumsAre(deltas[..|deltas| - 1], i);
      assert deltas[..|deltas| - 1][..i] == deltas[..i];
    }
  }

  /** What one opened sample of a track says, from the track's own samples. */
  ghost predicate Describes(o: Opened, s: seq<SampleRef>, i: nat, video: bool, timescale: nat, media: nat)
    requires i < |s|
  {
    && o.size == s[i].size && o.key == (!video || s[i].key)
    && o.dts == Scale(Sum(Durations(s)[..i]), timescale, media)
    && o.pts == Scale(Sum(Durations(s)[..i]) + s[i].cts, timescale, media)
  }

  lemma {:induction false} OpenedDescribes(t: Trak, chosen: seq<SampleRef>, chunks: seq<Chunk>, base: nat,
          offsets: seq<nat>,
                                           video: bool, timescale: nat, media: nat, i: nat)
    requires t == TablesOf(t.track, chosen, chunks, base)
    requires i < |OfTrack(chosen, t.track)| == |offsets|
    ensures |Expanded(t.stts)| == |offsets| == |t.sizes|
    ensures var o := OpenedAt(t, i, offsets, PrefixSums(Expanded(t.stts)), ShiftsOf(t), video, timescale, media);
            Describes(o, OfTrack(chosen, t.track), i, video, timescale, media) && o.offset == offsets[i]
  {
    hide Sum, Scale, RunLength, Expanded, Stsc, Counts, Offsets, KeyNumbers, PrefixSums;
    var s := OfTrack(chosen, t.track);
    RunLengthExpands(Durations(s));
    RunLengthExpands(Shifts(s));
    PrefixSumsAre(Durations(s), i);
    KeyNumbersAre(s, i);
  }

  lemma {:induction false} TrakIs(n: nat, chosen: seq<SampleRef>, chunks: seq<Chunk>, base: nat, k: nat)
    requires k < |Traks(n, chosen, chunks, base)|
    ensures var t := Traks(n, chosen, chunks, base)[k];
            t.track < n && OfTrack(chosen, t.track) != [] && t == TablesOf(t.track, chosen, chunks, base)
    decreases n
  {
    hide TablesOf, OfTrack;
    if k < |Traks(n - 1, chosen, chunks, base)| {
      TrakIs(n - 1, chosen, chunks, base, k);
    } else {
      assert TablesOf(n - 1, chosen, chunks, base).track == n - 1 by { TrackOfTables(n - 1, chosen, chunks, base); }
    }
  }

  lemma {:induction false} TrackOfTables(track: nat, chosen: seq<SampleRef>, chunks: seq<Chunk>, base: nat)
    ensures TablesOf(track, chosen, chunks, base).track == track
  {}

  /** Every track with a chosen sample is there. */
  lemma {:induction false} EveryTrackIsThere(n: nat, chosen: seq<SampleRef>, chunks: seq<Chunk>, base: nat, track: nat)
    requires track < n && OfTrack(chosen, track) != []
    ensures TablesOf(track, chosen, chunks, base) in Traks(n, chosen, chunks, base)
    decreases n
  {
    hide TablesOf, OfTrack;
    if track < n - 1 {
      EveryTrackIsThere(n - 1, chosen, chunks, base, track);
    }
  }

  lemma {:induction false} OfTrackHas(chosen: seq<SampleRef>, s: SampleRef)
    requires s in chosen
    ensures s in OfTrack(chosen, s.track)
    decreases |chosen|
  {
    var init, last := chosen[..|chosen| - 1], chosen[|chosen| - 1];
    assert chosen == init + [last];
    if s in init {
      OfTrackHas(init, s);
    }
  }

  /** A chosen sample is among those of one of the clip's tracks. */
  lemma {:induction false} TrackOf(n: nat, chosen: seq<SampleRef>, s: SampleRef) returns (k: nat)
    requires s in chosen && s.track < n
    ensures k < |PlanOf(n, chosen).traks| && PlanOf(n, chosen).traks[k].track == s.track
      && s in OfTrack(chosen, s.track)
  {
    hide Traks, OfTrack, Chunks, HeaderSize, Len;
    var traks, chunks := PlanOf(n, chosen).traks, Chunks(chosen);
    var base := HeaderSize(Traks(n, chosen, chunks, 0)) + 8;
    OfTrackHas(chosen, s);
    EveryTrackIsThere(n, chosen, chunks, base, s.track);
    k :| 0 <= k < |traks| && traks[k] == TablesOf(s.track, chosen, chunks, base);
  }

  /**
    The clip of any samples of any files: opening the tables of any of its tracks gives that track's samples,
    all of them and in order, each at an offset where the clip holds exactly the sample's bytes.
   */
  lemma {:induction false} OpenedClip(n: nat, files: seq<Bytes>, chosen: seq<SampleRef>, k: nat, video: bool,
          timescale: nat, media: nat)
    requires AllInFile(files, chosen) && k < |PlanOf(n, chosen).traks|
    ensures PiecesInFile(files, PlanOf(n, chosen).pieces)
    ensures var plan := PlanOf(n, chosen);
            var clip, t := ClipBytes(files, plan), plan.traks[k];
            var s, out := OfTrack(chosen, t.track), Open(t, video, timescale, media);
            && s != [] && |out| == |s|
            && forall i :: 0 <= i < |s| ==>
                 && Describes(out[i], s, i, video, timescale, media)
                 && InFile(files, s[i]) && out[i].offset + s[i].size <= |clip|
                 && clip[out[i].offset..out[i].offset + s[i].size] == Data(files, s[i])
  {
    hide Traks, Chunks, Body, HeaderSize, AllData, Len, TotalSize, OffsetsFrom, Laid, Counts, Sum, Stsc, Expanded;
    hide PrefixSums, RunLength, KeyNumbers, Offsets, Describes, Places, Data, InFile;
    var plan := PlanOf(n, chosen);
    var base, chunks, t := |plan.header|, Chunks(chosen), plan.traks[k];
    BodyIsTheData(files, chosen);
    HeaderIgnoresOffsets(n, chosen, chunks, 0, HeaderSize(Traks(n, chosen, chunks, 0)) + 8);
    assert base == HeaderSize(Traks(n, chosen, chunks, 0)) + 8;
    TrakIs(n, chosen, chunks, base, k);
    var s, places := OfTrack(chosen, t.track), Places(chosen, base, t.track);
    OffsetsArePlaces(t, chosen, base);
    var clip, out := ClipBytes(files, plan), Open(t, video, timescale, media);
    assert clip == plan.header + AllData(files, chosen);
    OpenedDescribes(t, chosen, chunks, base, places, video, timescale, media, 0);
    hide PlanOf, ClipBytes, OfTrack, Open;
    forall i | 0 <= i < |s|
      ensures Describes(out[i], s, i, video, timescale, media)
      ensures InFile(files, s[i]) && out[i].offset + s[i].size <= |clip|
      ensures clip[out[i].offset..out[i].offset + s[i].size] == Data(files, s[i])
    {
      OpenedDescribes(t, chosen, chunks, base, places, video, timescale, media, i);
      PlacedData(files, chosen, base, t.track, i);
      AfterHeader(plan.header, AllData(files, chosen), places[i], s[i].size);
    }
  }

  lemma {:induction false} AfterHeader(header: Bytes, body: Bytes, at: nat, size: nat)
    requires |header| <= at && at + size <= |header| + |body|
    ensures (header + body)[at..at + size] == body[at - |header|..at - |header| + size]
  {}

  lemma {:induction false} OffsetsArePlaces(t: Trak, chosen: seq<SampleRef>, base: nat)
    requires t == TablesOf(t.track, chosen, Chunks(chosen), base)
    ensures OffsetsFrom(t.stco, t.stsc, 0, t.sizes, 0) == Places(chosen, base, t.track)
  {
    hide Chunks, OffsetsFrom, Laid, Places, Stsc, Sum, Offsets, Counts, OfTrack, Len, TotalSize, RunLength, KeyNumbers;
    ChunksAreTabled(chosen, base, t.track);
    var offsets, counts, sizes := t.stco, Counts(Chunks(chosen), t.track), t.sizes;
    SumNone(counts);
    OffsetsAreLaid(offsets, counts, sizes, 0, 0);
    LaidNone(offsets, counts, sizes);
  }

  lemma {:induction false} SumNone(s: seq<nat>)
    ensures Sum(s[..0]) == 0
  {}

  lemma {:induction false} LaidNone(offsets: seq<nat>, counts: seq<nat>, sizes: seq<nat>)
    ensures Sum(counts[..0]) == 0 && |offsets[..0]| == |counts[..0]| == |sizes[..0]|
    ensures Laid(offsets[..0], counts[..0], sizes[..0]) == []
  {}
}
