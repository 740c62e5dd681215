/**
  A clip: some of a recording's samples as one progressive MP4. Runs of one track that are contiguous in one
  file become chunks, and the sample tables describe the samples of every track.
 */
module Clip {
  import opened Util
  import opened Fmp4
  import opened SegmentFile

  // ---- Selection ----

  function OfTrack(samples: seq<SampleRef>, track: nat): (s: seq<SampleRef>)
    ensures forall i :: 0 <= i < |s| ==> s[i].track == track && s[i] in samples
    decreases |samples|
  {
    if samples == [] then [] else
      var last := samples[|samples| - 1];
      OfTrack(samples[..|samples| - 1], track) + (if last.track == track then [last] else [])
  }

  /** The last key sample at or before `t`. */
  function LastKeyBy(s: seq<SampleRef>, t: int): (i: Option<nat>)
    ensures i.Some? ==> i.value < |s| && s[i.value].key && s[i.value].time <= t
    ensures forall k :: 0 <= k < |s| && s[k].key && s[k].time <= t ==> i.Some? && k <= i.value
    decreases |s|
  {
    if s == [] then None
    else if s[|s| - 1].key && s[|s| - 1].time <= t then Some(|s| - 1)
    else LastKeyBy(s[..|s| - 1], t)
  }

  function FirstKey(s: seq<SampleRef>, from: nat): (i: Option<nat>)
    requires from <= |s|
    ensures i.Some? ==> from <= i.value < |s| && s[i.value].key && forall k :: from <= k < i.value ==> !s[k].key
    ensures i.None? ==> forall k :: from <= k < |s| ==> !s[k].key
    decreases |s| - from
  {
    if from == |s| then None else if s[from].key then Some(from) else FirstKey(s, from + 1)
  }

  function LastBefore(s: seq<SampleRef>, t: int): (i: Option<nat>)
    ensures i.Some? ==> i.value < |s| && s[i.value].time < t
    ensures forall k :: 0 <= k < |s| && s[k].time < t ==> i.Some? && k <= i.value
    decreases |s|
  {
    if s == [] then None else if s[|s| - 1].time < t then Some(|s| - 1) else LastBefore(s[..|s| - 1], t)
  }

  /** The primary samples the clip starts and ends with. */
  datatype Span = Span(first: SampleRef, last: SampleRef)

  function SpanOf(primary: seq<SampleRef>, start: int, end: int): Option<Span> {
    var snapped, anyKey, before := LastKeyBy(primary, start), FirstKey(primary, 0), LastBefore(primary, end);
    var first := if snapped.Some? then snapped else anyKey;
    if first.None? then None
    else
      var last := if before.Some? && before.value > first.value then before.value else first.value;
      Some(Span(primary[first.value], primary[last]))
  }

  predicate AtOrBefore(a: SampleRef, b: SampleRef) {
    a.seg < b.seg || (a.seg == b.seg && a.offset <= b.offset)
  }

  function EndTime(s: SampleRef, tracks: seq<TrackIn>): int
    requires s.track < |tracks|
  {
    s.time + MicrosOf(s.dur, tracks[s.track].timescale)
  }

  predicate Wanted(s: SampleRef, span: Span, tracks: seq<TrackIn>)
    requires s.track < |tracks| && span.last.track < |tracks|
  {
    if s.track == 0 then s.time >= span.first.time && AtOrBefore(s, span.last)
    else EndTime(s, tracks) > span.first.time && s.time < EndTime(span.last, tracks)
  }

  function Filter(samples: seq<SampleRef>, span: Span, tracks: seq<TrackIn>): (f: seq<SampleRef>)
    requires span.last.track < |tracks| && forall i :: 0 <= i < |samples| ==> samples[i].track < |tracks|
    ensures forall i :: 0 <= i < |f| ==> f[i] in samples
    decreases |samples|
  {
    if samples == [] then [] else
      (if Wanted(samples[0], span, tracks) then [samples[0]] else []) + Filter(samples[1..], span, tracks)
  }

  function Insert(s: SampleRef, sorted: seq<SampleRef>): seq<SampleRef>
    decreases |sorted|
  {
    if sorted == [] || AtOrBefore(s, sorted[0]) then [s] + sorted else [sorted[0]] + Insert(s, sorted[1..])
  }

  /** A stable sort by place. */
  function Sorted(s: seq<SampleRef>): seq<SampleRef>
    decreases |s|
  {
    if s == [] then [] else Insert(s[0], Sorted(s[1..]))
  }

  function Chosen(samples: seq<SampleRef>, span: Span, tracks: seq<TrackIn>): seq<SampleRef>
    requires span.last.track < |tracks| && forall i :: 0 <= i < |samples| ==> samples[i].track < |tracks|
  {
    Sorted(Filter(samples, span, tracks))
  }

  // ---- Chunks ----

  datatype Chunk = Chunk(track: nat, seg: nat, offset: int, len: nat, samples: nat)

  predicate Continues(c: Chunk, s: SampleRef) {
    c.track == s.track && c.seg == s.seg && c.offset + c.len == s.offset
  }

  function AddSample(chunks: seq<Chunk>, s: SampleRef): seq<Chunk> {
    var n := |chunks| - 1;
    if chunks != [] && Continues(chunks[n], s) then
      chunks[..n] + [chunks[n].(len := chunks[n].len + s.size, samples := chunks[n].samples + 1)]
    else chunks + [Chunk(s.track, s.seg, s.offset, s.size, 1)]
  }

  function Chunks(chosen: seq<SampleRef>): seq<Chunk>
    decreases |chosen|
  {
    if chosen == [] then [] else AddSample(Chunks(chosen[..|chosen| - 1]), chosen[|chosen| - 1])
  }

  method BuildChunks(chosen: seq<SampleRef>) returns (chunks: seq<Chunk>)
    ensures chunks == Chunks(chosen)
  {
    chunks := [];
    for i := 0 to |chosen|
      invariant chunks == Chunks(chosen[..i])
    {
      var s, n := chosen[i], |chunks| - 1;
      assert chosen[..i + 1][..i] == chosen[..i];
      if chunks != [] && chunks[n].track == s.track && chunks[n].seg == s.seg
        && chunks[n].offset + chunks[n].len == s.offset {
        chunks := chunks[..n] + [chunks[n].(len := chunks[n].len + s.size, samples := chunks[n].samples + 1)];
      } else {
        chunks := chunks + [Chunk(s.track, s.seg, s.offset, s.size, 1)];
      }
    }
    assert chosen[..|chosen|] == chosen;
  }

  function Len(chunks: seq<Chunk>): nat
    decreases |chunks|
  {
    if chunks == [] then 0 else Len(chunks[..|chunks| - 1]) + chunks[|chunks| - 1].len
  }

  // ---- Run-length tables ----

  datatype Runs<T> = Runs(value: T, count: nat)

  function AddValue<T(==)>(runs: seq<Runs<T>>, v: T): seq<Runs<T>> {
    var n := |runs| - 1;
    if runs != [] && runs[n].value == v then runs[..n] + [runs[n].(count := runs[n].count + 1)]
    else runs + [Runs(v, 1)]
  }

  function RunLength<T(==)>(s: seq<T>): seq<Runs<T>>
    decreases |s|
  {
    if s == [] then [] else AddValue(RunLength(s[..|s| - 1]), s[|s| - 1])
  }

  method BuildRuns<T(==)>(s: seq<T>) returns (runs: seq<Runs<T>>)
    ensures runs == RunLength(s)
  {
    runs := [];
    for i := 0 to |s|
      invariant runs == RunLength(s[..i])
    {
      assert s[..i + 1][..i] == s[..i];
      var n := |runs| - 1;
      if runs != [] && runs[n].value == s[i] {
        runs := runs[..n] + [runs[n].(count := runs[n].count + 1)];
      } else {
        runs := runs + [Runs(s[i], 1)];
      }
    }
    assert s[..|s|] == s;
  }

  /** `n` copies of `v`. */
  function Repeat<T>(v: T, n: nat): (r: seq<T>)
    ensures |r| == n && forall i :: 0 <= i < n ==> r[i] == v
  {
    seq(n, _ => v)
  }

  function Expanded<T>(runs: seq<Runs<T>>): seq<T>
    decreases |runs|
  {
    if runs == [] then [] else Expanded(runs[..|runs| - 1]) + Repeat(runs[|runs| - 1].value, runs[|runs| - 1].count)
  }

  /** No two neighbouring runs could be one, and none is empty. */
  predicate Shortest<T(==)>(runs: seq<Runs<T>>) {
    && (forall i :: 0 < i < |runs| ==> runs[i - 1].value != runs[i].value)
    && (forall i :: 0 <= i < |runs| ==> runs[i].count > 0)
  }

  lemma {:induction false} ExpandedSnoc<T>(runs: seq<Runs<T>>, r: Runs<T>)
    ensures Expanded(runs + [r]) == Expanded(runs) + Repeat(r.value, r.count)
  {
    assert (runs + [r])[..|runs|] == runs;
  }

  lemma {:induction false} RepeatMore<T>(v: T, n: nat)
    ensures Repeat(v, n + 1) == Repeat(v, n) + [v] && Repeat(v, 1) == [v]
  {}

  lemma {:induction false} AddValueIs<T>(runs: seq<Runs<T>>, v: T)
    requires Shortest(runs)
    ensures Expanded(AddValue(runs, v)) == Expanded(runs) + [v] && Shortest(AddValue(runs, v))
  {
    hide Expanded, Repeat;
    var n := |runs| - 1;
    if runs != [] && runs[n].value == v {
      assert runs[..n] + [runs[n]] == runs;
      ExpandedSnoc(runs[..n], runs[n]);
      ExpandedSnoc(runs[..n], runs[n].(count := runs[n].count + 1));
      RepeatMore(v, runs[n].count);
    } else {
      ExpandedSnoc(runs, Runs(v, 1));
      RepeatMore(v, 1);
    }
  }

  /** The table expands to what it was made from, and is as short as it can be. */
  lemma {:induction false} RunLengthExpands<T>(s: seq<T>)
    ensures Expanded(RunLength(s)) == s && Shortest(RunLength(s))
    decreases |s|
  {
    hide AddValue, Shortest;
    if s == [] {
      NoRuns<T>();
    } else {
      RunLengthExpands(s[..|s| - 1]);
      AddValueIs(RunLength(s[..|s| - 1]), s[|s| - 1]);
      assert s == s[..|s| - 1] + [s[|s| - 1]];
    }
  }

  lemma {:induction false} NoRuns<T>()
    ensures RunLength<T>([]) == [] && Expanded<T>([]) == [] && Shortest<T>([])
  {}

  /** Samples per chunk, from a chunk number on (numbered from 1). */
  datatype StscEntry = StscEntry(firstChunk: nat, samplesPerChunk: nat)

  function Stsc(counts: seq<nat>): seq<StscEntry>
    decreases |counts|
  {
    if counts == [] then [] else
      var before, n := Stsc(counts[..|counts| - 1]), counts[|counts| - 1];
      if before == [] || before[|before| - 1].samplesPerChunk != n then before + [StscEntry(|counts|, n)] else before
  }

  method BuildStsc(counts: seq<nat>) returns (entries: seq<StscEntry>)
    ensures entries == Stsc(counts)
  {
    entries := [];
    for i := 0 to |counts|
      invariant entries == Stsc(counts[..i])
    {
      assert counts[..i + 1][..i] == counts[..i];
      if entries == [] || entries[|entries| - 1].samplesPerChunk != counts[i] {
        entries := entries + [StscEntry(i + 1, counts[i])];
      }
    }
    assert counts[..|counts|] == counts;
  }

  // ---- The sample tables of a track ----

  /** The tables of one track; `stco` comes last, when the size of the header is known. */
  datatype Trak = Trak(track: nat, stts: seq<Runs<nat>>, ctts: Option<seq<Runs<int>>>, stss: Option<seq<nat>>,
                       sizes: seq<nat>, stsc: seq<StscEntry>, stco: seq<nat>)

  function Durations(s: seq<SampleRef>): (d: seq<nat>)
    ensures |d| == |s| && forall i :: 0 <= i < |s| ==> d[i] == s[i].dur
  {
    seq(|s|, i requires 0 <= i < |s| => s[i].dur)
  }

  function Shifts(s: seq<SampleRef>): (d: seq<int>)
    ensures |d| == |s| && forall i :: 0 <= i < |s| ==> d[i] == s[i].cts
  {
    seq(|s|, i requires 0 <= i < |s| => s[i].cts)
  }

  function Sizes(s: seq<SampleRef>): (d: seq<nat>)
    ensures |d| == |s| && forall i :: 0 <= i < |s| ==> d[i] == s[i].size
  {
    seq(|s|, i requires 0 <= i < |s| => s[i].size)
  }

  /** The numbers, from 1, of the key samples. */
  function KeyNumbers(s: seq<SampleRef>): seq<nat>
    decreases |s|
  {
    if s == [] then [] else KeyNumbers(s[..|s| - 1]) + (if s[|s| - 1].key then [|s|] else [])
  }

  function Counts(chunks: seq<Chunk>, track: nat): seq<nat>
    decreases |chunks|
  {
    if chunks == [] then [] else
      Counts(chunks[..|chunks| - 1], track) +
      if chunks[|chunks| - 1].track == track then [chunks[|chunks| - 1].samples] else []
  }

  /** Where each chunk of a track begins, with the chunks laid out from `base`. */
  function Offsets(chunks: seq<Chunk>, base: nat, track: nat): seq<nat>
    decreases |chunks|
  {
    if chunks == [] then [] else
      var init := chunks[..|chunks| - 1];
      Offsets(init, base, track) + if chunks[|chunks| - 1].track == track then [base + Len(init)] else []
  }

  function TablesOf(track: nat, chosen: seq<SampleRef>, chunks: seq<Chunk>, base: nat): Trak {
    var s := OfTrack(chosen, track);
    Trak(track,
         RunLength(Durations(s)),
         if exists i :: 0 <= i < |s| && s[i].cts != 0 then Some(RunLength(Shifts(s))) else None,
         if forall i :: 0 <= i < |s| ==> s[i].key then None else Some(KeyNumbers(s)),
         Sizes(s),
         Stsc(Counts(chunks, track)),
         Offsets(chunks, base, track))
  }

  /** The tables of every track that has samples, in track order. */
  function Traks(n: nat, chosen: seq<SampleRef>, chunks: seq<Chunk>, base: nat): seq<Trak> {
    if n == 0 then [] else
      Traks(n - 1, chosen, chunks, base) +
      if OfTrack(chosen, n - 1) == [] then [] else [TablesOf(n - 1, chosen, chunks, base)]
  }

  /**
    The encoded size of `ftyp` and `moov`: fixed headers and fixed-width table entries, so it does not depend
    on the chunk offsets. The bytes themselves are not modelled.
   */
  function HeaderSize(traks: seq<Trak>): nat
    decreases |traks|
  {
    if traks == [] then 256 else HeaderSize(traks[..|traks| - 1]) + TrakSize(traks[|traks| - 1])
  }

  function TrakSize(t: Trak): nat {
    512 + 8 * |t.stts| + (if t.ctts.Some? then 16 + 8 * |t.ctts.value| else 0) +
      (if t.stss.Some? then 16 + 4 * |t.stss.value| else 0)
    + 4 * |t.sizes| + 12 * |t.stsc| + 4 * |t.stco|
  }

  function EncodeHeader(traks: seq<Trak>): (b: Bytes)
    ensures |b| == HeaderSize(traks)
  {
    seq(HeaderSize(traks), _ => 0)
  }

  // ---- The plan ----

  datatype Plan = Plan(traks: seq<Trak>, header: Bytes, pieces: seq<Chunk>)

  datatype Planned = Ready(plan: Plan, chosen: seq<SampleRef>, span: Span) | NoTracks | BadRange
      | Corrupt(error: ReadError)
                   | TooLarge | SizeChanged

  const MAX_CLIP_BYTES := 2 * 1024 * 1024 * 1024
  const U32_MAX := 0xFFFF_FFFF

  /** The size of the clip the plan describes. */
  function SizeOf(plan: Plan): nat {
    |plan.header| + Len(plan.pieces)
  }

  /** A segment of the recording: whether its name is a segment's, its file, and how long the playlist says it is. */
  datatype Segment = Segment(named: bool, boxes: seq<Box>, micros: nat)

  function PlanOf(n: nat, chosen: seq<SampleRef>): Plan {
    var chunks := Chunks(chosen);
    var probe := HeaderSize(Traks(n, chosen, chunks, 0));
    var traks := Traks(n, chosen, chunks, probe + 8);
    Plan(traks, EncodeHeader(traks) + MdatHeader(Len(chunks)), chunks)
  }

  lemma {:induction false} OffsetsLength(chunks: seq<Chunk>, base: nat, track: nat)
    ensures |Offsets(chunks, base, track)| == |Counts(chunks, track)|
    decreases |chunks|
  {
    if chunks != [] {
      OffsetsLength(chunks[..|chunks| - 1], base, track);
    }
  }

  lemma {:induction false} HeaderSnoc(traks: seq<Trak>, t: Trak)
    ensures HeaderSize(traks + [t]) == HeaderSize(traks) + TrakSize(t)
  {
    assert (traks + [t])[..|traks|] == traks;
  }

  lemma {:induction false} TrakSizeIgnoresOffsets(track: nat, chosen: seq<SampleRef>, chunks: seq<Chunk>, a: nat,
          b: nat)
    ensures TrakSize(TablesOf(track, chosen, chunks, a)) == TrakSize(TablesOf(track, chosen, chunks, b))
  {
    hide Offsets, Counts, RunLength, KeyNumbers, Stsc, OfTrack;
    OffsetsLength(chunks, a, track);
    OffsetsLength(chunks, b, track);
  }

  /** The size of the header does not depend on where the chunks begin: the probe is right. */
  lemma {:induction false} HeaderIgnoresOffsets(n: nat, chosen: seq<SampleRef>, chunks: seq<Chunk>, a: nat, b: nat)
    ensures HeaderSize(Traks(n, chosen, chunks, a)) == HeaderSize(Traks(n, chosen, chunks, b))
    decreases n
  {
    hide TablesOf, OfTrack, HeaderSize, TrakSize;
    if n > 0 {
      HeaderIgnoresOffsets(n - 1, chosen, chunks, a, b);
      if OfTrack(chosen, n - 1) != [] {
        TrakSizeIgnoresOffsets(n - 1, chosen, chunks, a, b);
        HeaderSnoc(Traks(n - 1, chosen, chunks, a), TablesOf(n - 1, chosen, chunks, a));
        HeaderSnoc(Traks(n - 1, chosen, chunks, b), TablesOf(n - 1, chosen, chunks, b));
      } else {
        assert Traks(n - 1, chosen, chunks, a) + [] == Traks(n - 1, chosen, chunks, a);
        assert Traks(n - 1, chosen, chunks, b) + [] == Traks(n - 1, chosen, chunks, b);
      }
    }
  }

  function Filled(traks: seq<Trak>, chunks: seq<Chunk>, base: nat): (f: seq<Trak>)
    ensures |f| == |traks|
  {
    seq(|traks|, i requires 0 <= i < |traks| => traks[i].(stco := Offsets(chunks, base, traks[i].track)))
  }

  /** Every chunk begins where a 32-bit offset can point to. */
  ghost predicate Fit(chunks: seq<Chunk>, base: nat) {
    forall i :: 0 <= i < |chunks| ==> base + Len(chunks[..i]) <= U32_MAX
  }

  /** Gives every track's tables the places of its chunks, if they fit. */
  method Fill(traks: seq<Trak>, chunks: seq<Chunk>, n: nat, base: nat) returns (fits: bool, filled: seq<Trak>)
    requires forall i :: 0 <= i < |chunks| ==> chunks[i].track < n
    requires forall i :: 0 <= i < |traks| ==> traks[i].track < n
    ensures fits <==> Fit(chunks, base)
    ensures fits ==> filled == Filled(traks, chunks, base)
  {
    var places := seq(n, _ => []);
    var offset := base;
    for i := 0 to |chunks|
      invariant |places| == n && offset == base + Len(chunks[..i])
      invariant forall k :: 0 <= k < i ==> base + Len(chunks[..k]) <= U32_MAX
      invariant forall t :: 0 <= t < n ==> places[t] == Offsets(chunks[..i], base, t)
    {
      assert chunks[..i + 1][..i] == chunks[..i];
      if offset > U32_MAX {
        return false, [];
      }
      var t := chunks[i].track;
      places := places[t := places[t] + [offset]];
      offset := offset + chunks[i].len;
    }
    assert chunks[..|chunks|] == chunks;
    fits := true;
    filled := seq(|traks|, i requires 0 <= i < |traks| => traks[i].(stco := places[traks[i].track]));
  }

  function Total(recording: seq<Segment>): nat {
    if recording == [] then 0 else recording[0].micros + Total(recording[1..])
  }

  predicate Touched(s: Segment, start: int, from: int, end: int) {
    start + s.micros > from && start < end
  }

  /** The segments the range touches; the first begins at `start`. */
  function TouchedOf(recording: seq<Segment>, start: int, from: int, end: int): seq<(Segment, int)> {
    if recording == [] then [] else
      (if Touched(recording[0], start, from, end) then [(recording[0], start)] else [])
      + TouchedOf(recording[1..], start + recording[0].micros, from, end)
  }

  /** A file is read only under a segment's name. */
  function ReadNamed(s: Segment, tracks: seq<TrackIn>, seg: nat, start: int): Refs
    requires tracks != []
  {
    if s.named then ReadSegment(s.boxes, tracks, seg, start) else Failed(UnexpectedEntry)
  }

  /** The samples of the files, numbered from `seg`. */
  function ReadAll(files: seq<(Segment, int)>, tracks: seq<TrackIn>, seg: nat): Refs
    requires tracks != []
  {
    if files == [] then Refs([])
    else Then(ReadNamed(files[0].0, tracks, seg, files[0].1), ReadAll(files[1..], tracks, seg + 1))
  }

  lemma {:induction false} ReadAllKnown(files: seq<(Segment, int)>, tracks: seq<TrackIn>, seg: nat)
    requires tracks != []
    ensures var r := ReadAll(files, tracks, seg); r.Refs? ==> forall i :: 0 <= i < |r.refs| ==>
      r.refs[i].track < |tracks|
    decreases |files|
  {
    hide Known, ReadSegment, Then;
    AllReadKnown(files, tracks, seg);
    hide ReadAll;
    KnownIs(ReadAll(files, tracks, seg), |tracks|);
  }

  lemma {:induction false} KnownIs(r: Refs, n: nat)
    requires Known(r, n)
    ensures r.Refs? ==> forall i :: 0 <= i < |r.refs| ==> r.refs[i].track < n
  {}

  lemma {:induction false} NamedKnown(s: Segment, tracks: seq<TrackIn>, seg: nat, start: int)
    requires tracks != []
    ensures Known(ReadNamed(s, tracks, seg, start), |tracks|)
  {
    hide ReadBoxes, FileOf, FirstOf, MicrosOf;
    if s.named {
      TracksKnown(s.boxes, tracks, 0, seg, |FileOf(s.boxes)|);
      var read := ReadBoxes(s.boxes, tracks, 0, seg, |FileOf(s.boxes)|);
      if read.Refs? && FirstOf(read.refs, 0).Some? {
        assert forall i :: 0 <= i < |read.refs| ==> Timed(read.refs, tracks, start)[i].track == read.refs[i].track;
      }
    }
  }

  lemma {:induction false} AllReadKnown(files: seq<(Segment, int)>, tracks: seq<TrackIn>, seg: nat)
    requires tracks != []
    ensures Known(ReadAll(files, tracks, seg), |tracks|)
    decreases |files|
  {
    hide ReadNamed, Then;
    if files != [] {
      NamedKnown(files[0].0, tracks, seg, files[0].1);
      AllReadKnown(files[1..], tracks, seg + 1);
      hide Known;
      ThenKnown(ReadNamed(files[0].0, tracks, seg, files[0].1), ReadAll(files[1..], tracks, seg + 1), |tracks|);
    }
  }

  function PlanClip(recording: seq<Segment>, tracks: seq<TrackIn>, from: int, end: int): Planned {
    if from < 0 || end <= from then BadRange
    else if tracks == [] then NoTracks
    else if recording == [] || from >= Total(recording) then BadRange
    else
      var files := TouchedOf(recording, 0, from, end);
      var read := ReadAll(files, tracks, 0);
      ReadAllKnown(files, tracks, 0);
      if read.Failed? then Corrupt(read.error)
      else
        var span := SpanOf(OfTrack(read.refs, 0), from, end);
        if span.None? then BadRange
        else
          var chosen := Chosen(read.refs, span.value, tracks);
          var plan := PlanOf(|tracks|, chosen);
          if SizeOf(plan) > MAX_CLIP_BYTES then TooLarge else Ready(plan, chosen, span.value)
  }

  method ReadTouched(recording: seq<Segment>, tracks: seq<TrackIn>, from: int, end: int) returns (out: Refs)
    requires tracks != []
    ensures out == ReadAll(TouchedOf(recording, 0, from, end), tracks, 0)
  {
    hide ReadSegment, ReadNamed, ReadAll, TouchedOf, Then;
    var start, refs, seg := 0, [], 0;
    assert recording[0..] == recording;
    NothingRead(ReadAll(TouchedOf(recording, 0, from, end), tracks, 0), tracks);
    for i := 0 to |recording|
      invariant seg >= 0
      invariant Then(Refs(refs), ReadAll(TouchedOf(recording[i..], start, from, end), tracks, seg))
             == ReadAll(TouchedOf(recording, 0, from, end), tracks, 0)
    {
      var s := recording[i];
      assert recording[i..][0] == s && recording[i..][1..] == recording[i + 1..];
      ghost var rest := TouchedOf(recording[i + 1..], start + s.micros, from, end);
      TouchedStep(recording[i..], start, from, end);
      if start + s.micros > from && start < end {
        var more := ReadOne(s, tracks, seg, start);
        ReadStep(s, start, rest, tracks, seg);
        ThenAssoc(Refs(refs), more, ReadAll(rest, tracks, seg + 1));
        ThenIs(Refs(refs), more, ReadAll(rest, tracks, seg + 1));
        if more.Failed? {
          return more;
        }
        refs, seg := refs + more.refs, seg + 1;
      }
      start := start + s.micros;
    }
    TouchedStep(recording[|recording|..], start, from, end);
    NothingRead(Refs(refs), tracks);
    ReadNone(tracks, seg);
    out := Refs(refs);
  }

  method ReadOne(s: Segment, tracks: seq<TrackIn>, seg: nat, start: int) returns (out: Refs)
    requires tracks != []
    ensures out == ReadNamed(s, tracks, seg, start)
  {
    if !s.named {
      return Failed(UnexpectedEntry);
    }
    out := ReadFile(s.boxes, tracks, seg, start);
  }

  lemma {:induction false} TouchedStep(recording: seq<Segment>, start: int, from: int, end: int)
    ensures TouchedOf(recording, start, from, end) == if recording == [] then [] else
              var rest := TouchedOf(recording[1..], start + recording[0].micros, from, end);
              if Touched(recording[0], start, from, end) then [(recording[0], start)] + rest else rest
  {}

  lemma {:induction false} ReadStep(s: Segment, start: int, rest: seq<(Segment, int)>, tracks: seq<TrackIn>, seg: nat)
    requires tracks != []
    ensures ReadAll([(s, start)] + rest, tracks, seg)
         == Then(ReadNamed(s, tracks, seg, start), ReadAll(rest, tracks, seg + 1))
  {
    assert ([(s, start)] + rest)[1..] == rest;
    hide ReadNamed, Then;
  }

  lemma {:induction false} ReadNone(tracks: seq<TrackIn>, seg: nat)
    requires tracks != []
    ensures ReadAll([], tracks, seg) == Refs([])
  {}

  lemma {:induction false} NothingRead(r: Refs, tracks: seq<TrackIn>)
    ensures Then(Refs([]), r) == r && Then(r, Refs([])) == r
  {
    if r.Refs? {
      assert [] + r.refs == r.refs && r.refs + [] == r.refs;
    }
  }

  lemma {:induction false} ThenIs(a: Refs, b: Refs, c: Refs)
    requires a.Refs?
    ensures b.Failed? ==> Then(Then(a, b), c) == b
    ensures b.Refs? ==> Then(a, b) == Refs(a.refs + b.refs)
  {}

  lemma {:induction false} ChunkTracks(chosen: seq<SampleRef>, n: nat)
    requires forall i :: 0 <= i < |chosen| ==> chosen[i].track < n
    ensures forall i :: 0 <= i < |Chunks(chosen)| ==> Chunks(chosen)[i].track < n
    decreases |chosen|
  {
    if chosen != [] {
      ChunkTracks(chosen[..|chosen| - 1], n);
    }
  }

  lemma {:induction false} TraksBelow(n: nat, chosen: seq<SampleRef>, chunks: seq<Chunk>, base: nat)
    ensures forall i :: 0 <= i < |Traks(n, chosen, chunks, base)| ==> Traks(n, chosen, chunks, base)[i].track < n
    decreases n
  {
    if n > 0 {
      TraksBelow(n - 1, chosen, chunks, base);
    }
  }

  lemma {:induction false} FilledAdd(a: seq<Trak>, b: seq<Trak>, chunks: seq<Chunk>, base: nat)
    ensures Filled(a + b, chunks, base) == Filled(a, chunks, base) + Filled(b, chunks, base)
  {
    hide Offsets;
  }

  /** Only the chunk offsets depend on where the chunks begin. */
  lemma {:induction false} TraksFilled(n: nat, chosen: seq<SampleRef>, chunks: seq<Chunk>, a: nat, b: nat)
    ensures Filled(Traks(n, chosen, chunks, a), chunks, b) == Traks(n, chosen, chunks, b)
    decreases n
  {
    hide Offsets, OfTrack, Counts, RunLength, KeyNumbers, Stsc;
    if n > 0 {
      TraksFilled(n - 1, chosen, chunks, a, b);
      if OfTrack(chosen, n - 1) != [] {
        var t := TablesOf(n - 1, chosen, chunks, a);
        assert Filled([t], chunks, b) == [TablesOf(n - 1, chosen, chunks, b)];
        FilledAdd(Traks(n - 1, chosen, chunks, a), [t], chunks, b);
      } else {
        FilledAdd(Traks(n - 1, chosen, chunks, a), [], chunks, b);
      }
    }
  }

  lemma {:induction false} LenPrefix(chunks: seq<Chunk>, n: nat)
    requires n <= |chunks|
    ensures Len(chunks[..n]) <= Len(chunks)
    decreases |chunks|
  {
    if n < |chunks| {
      LenPrefix(chunks[..|chunks| - 1], n);
      assert chunks[..|chunks| - 1][..n] == chunks[..n];
    } else {
      assert chunks[..n] == chunks;
    }
  }

  /** No chunk of a clip within the limit begins beyond 32 bits. */
  lemma {:induction false} SmallFits(chunks: seq<Chunk>, base: nat)
    requires base + Len(chunks) <= U32_MAX
    ensures Fit(chunks, base)
  {
    forall i | 0 <= i < |chunks|
      ensures base + Len(chunks[..i]) <= U32_MAX
    {
      LenPrefix(chunks, i);
    }
  }

  lemma {:induction false} ChunksLen(chosen: seq<SampleRef>)
    ensures Len(Chunks(chosen)) == TotalSize(chosen)
    decreases |chosen|
  {
    if chosen != [] {
      var init, s := chosen[..|chosen| - 1], chosen[|chosen| - 1];
      ChunksLen(init);
      var before := Chunks(init);
      var n := |before| - 1;
      if before != [] && Continues(before[n], s) {
        assert before == before[..n] + [before[n]];
        LenSnoc(before[..n], before[n]);
        LenSnoc(before[..n], before[n].(len := before[n].len + s.size, samples := before[n].samples + 1));
      } else {
        LenSnoc(before, Chunk(s.track, s.seg, s.offset, s.size, 1));
      }
    }
  }

  lemma {:induction false} LenSnoc(chunks: seq<Chunk>, c: Chunk)
    ensures Len(chunks + [c]) == Len(chunks) + c.len
  {
    assert (chunks + [c])[..|chunks|] == chunks;
  }

  function TotalSize(chosen: seq<SampleRef>): nat
    decreases |chosen|
  {
    if chosen == [] then 0 else TotalSize(chosen[..|chosen| - 1]) + chosen[|chosen| - 1].size
  }

  method MeasureSize(chosen: seq<SampleRef>) returns (payload: nat)
    ensures payload == TotalSize(chosen)
  {
    payload := 0;
    for i := 0 to |chosen|
      invariant payload == TotalSize(chosen[..i])
    {
      assert chosen[..i + 1][..i] == chosen[..i];
      payload := payload + chosen[i].size;
    }
    assert chosen[..|chosen|] == chosen;
  }

  datatype Layout = Fits(plan: Plan) | Over | Changed

  /**
    Lays the clip out: measures the header with offsets from 0, then gives it the real ones. Of the source's size
    tests only the limit on the whole clip decides, and the header never changes its size.
   */
  method LayOut(n: nat, chosen: seq<SampleRef>) returns (layout: Layout)
    requires forall i :: 0 <= i < |chosen| ==> chosen[i].track < n
    ensures layout == if SizeOf(PlanOf(n, chosen)) > MAX_CLIP_BYTES then Over else Fits(PlanOf(n, chosen))
  {
    hide Traks, Filled, Chunks, HeaderSize, Len, TotalSize, Fit, EncodeHeader, MdatHeader;
    ChunksLen(chosen);
    ghost var plan := PlanOf(n, chosen);
    var payload := MeasureSize(chosen);
    if payload > MAX_CLIP_BYTES {
      return Over;
    }
    var chunks := BuildChunks(chosen);
    var tables := Traks(n, chosen, chunks, 0);
    ChunkTracks(chosen, n);
    TraksBelow(n, chosen, chunks, 0);
    SmallFits(chunks, 0);
    var fits, trial := Fill(tables, chunks, n, 0);
    if !fits {
      return Over;
    }
    TraksFilled(n, chosen, chunks, 0, 0);
    var probe := HeaderSize(trial);
    var traks: seq<Trak>;
    fits, traks := Fill(tables, chunks, n, probe + 8);
    TraksFilled(n, chosen, chunks, 0, probe + 8);
    HeaderIgnoresOffsets(n, chosen, chunks, 0, probe + 8);
    HeaderLength(n, chosen);
    if !fits {
      FitIfSmall(chunks, probe + 8);
      return Over;
    }
    if HeaderSize(traks) != probe {
      return Changed;
    }
    if payload + 8 > U32_MAX {
      return Over;
    }
    var made := Plan(traks, EncodeHeader(traks) + MdatHeader(payload), chunks);
    layout := if |made.header| + payload > MAX_CLIP_BYTES then Over else Fits(made);
  }

  lemma {:induction false} HeaderLength(n: nat, chosen: seq<SampleRef>)
    ensures |PlanOf(n, chosen).header| == HeaderSize(Traks(n, chosen, Chunks(chosen), 0)) + 8
    ensures PlanOf(n, chosen).pieces == Chunks(chosen)
  {
    hide Traks, Chunks, HeaderSize, Len;
    var chunks := Chunks(chosen);
    HeaderIgnoresOffsets(n, chosen, chunks, 0, HeaderSize(Traks(n, chosen, chunks, 0)) + 8);
  }

  lemma {:induction false} FitIfSmall(chunks: seq<Chunk>, base: nat)
    requires !Fit(chunks, base)
    ensures base + Len(chunks) > U32_MAX
  {
    hide Fit, Len;
    if base + Len(chunks) <= U32_MAX {
      SmallFits(chunks, base);
    }
  }
}
