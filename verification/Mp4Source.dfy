/** Opening a progressive MP4: the sample tables expanded, and the samples of its tracks merged by decode time. */
module Mp4Source {
  import opened Util
  import opened Fmp4
  import opened Clip

  datatype Opened = Opened(offset: nat, size: nat, dts: int, pts: int, key: bool)

  function Lookup(stsc: seq<StscEntry>, chunk: nat): nat
    decreases |stsc|
  {
    if stsc == [] then 1
    else if stsc[|stsc| - 1].firstChunk <= chunk then stsc[|stsc| - 1].samplesPerChunk
    else Lookup(stsc[..|stsc| - 1], chunk)
  }

  function Consecutive(offset: nat, sizes: seq<nat>): (o: seq<nat>)
    ensures |o| == |sizes|
    decreases |sizes|
  {
    if sizes == [] then [] else [offset] + Consecutive(offset + sizes[0], sizes[1..])
  }

  /** The samples of the chunks from number `chunk` on (from 0), the first of them being number `sample`. */
  function OffsetsFrom(chunks: seq<nat>, stsc: seq<StscEntry>, chunk: nat, sizes: seq<nat>, sample: nat): seq<nat>
    requires chunk <= |chunks| && sample <= |sizes|
    decreases |chunks| - chunk
  {
    if chunk == |chunks| then [] else
      var n := Min(Lookup(stsc, chunk + 1), |sizes| - sample);
      Consecutive(chunks[chunk], sizes[sample..sample + n]) + OffsetsFrom(chunks, stsc, chunk + 1, sizes, sample + n)
  }

  function PrefixSums(deltas: seq<nat>): (t: seq<int>)
    ensures |t| == |deltas|
    decreases |deltas|
  {
    if deltas == [] then [] else
      PrefixSums(deltas[..|deltas| - 1]) + [Sum(deltas[..|deltas| - 1])]
  }

  function Sum(s: seq<nat>): nat
    decreases |s|
  {
    if s == [] then 0 else Sum(s[..|s| - 1]) + s[|s| - 1]
  }

  function Scale(v: int, timescale: nat, media: nat): int {
    TruncDiv(v * timescale, Max(media, 1))
  }

  function OpenedAt(t: Trak, i: nat, offsets: seq<nat>, dts: seq<int>, cts: seq<int>, video: bool, timescale: nat,
          media: nat): Opened
    requires i < |t.sizes| && i < |offsets| && i < |dts|
  {
    Opened(offsets[i], t.sizes[i], Scale(dts[i], timescale, media),
           Scale(dts[i] + (if i < |cts| then cts[i] else 0), timescale, media),
           !video || t.stss.None? || i + 1 in t.stss.value)
  }

  function OpenTables(t: Trak, offsets: seq<nat>, dts: seq<int>, cts: seq<int>, video: bool, timescale: nat,
          media: nat): seq<Opened> {
    seq(Min(|t.sizes|, Min(|offsets|, |dts|)), i requires 0 <= i < Min(|t.sizes|, Min(|offsets|, |dts|)) =>
      OpenedAt(t, i, offsets, dts, cts, video, timescale, media))
  }

  function ShiftsOf(t: Trak): seq<int> {
    if t.ctts.Some? then Expanded(t.ctts.value) else []
  }

  function Open(t: Trak, video: bool, timescale: nat, media: nat): seq<Opened> {
    OpenTables(t, OffsetsFrom(t.stco, t.stsc, 0, t.sizes, 0), PrefixSums(Expanded(t.stts)), ShiftsOf(t), video,
      timescale, media)
  }

  // ---- The loops ----

  method FindPerChunk(stsc: seq<StscEntry>, chunk: nat) returns (n: nat)
    ensures n == Lookup(stsc, chunk)
  {
    var i := |stsc|;
    assert stsc[..i] == stsc;
    while i > 0
      invariant 0 <= i <= |stsc| && Lookup(stsc, chunk) == Lookup(stsc[..i], chunk)
    {
      assert stsc[..i][..i - 1] == stsc[..i - 1];
      if stsc[i - 1].firstChunk <= chunk {
        return stsc[i - 1].samplesPerChunk;
      }
      i := i - 1;
    }
    n := 1;
  }

  method AppendChunk(offset: nat, sizes: seq<nat>, first: nat, per: nat,
          before: seq<nat>) returns (offsets: seq<nat>, sample: nat)
    requires first <= |sizes|
    ensures sample == first + Min(per, |sizes| - first)
    ensures offsets == before + Consecutive(offset, sizes[first..sample])
  {
    offsets, sample := before, first;
    var at, k := offset, 0;
    ghost var last := first + Min(per, |sizes| - first);
    while k < per && sample < |sizes|
      invariant k <= per && sample == first + k <= last
      invariant offsets + Consecutive(at, sizes[sample..last]) == before + Consecutive(offset, sizes[first..last])
    {
      assert sizes[sample..last][0] == sizes[sample] && sizes[sample..last][1..] == sizes[sample + 1..last];
      offsets := offsets + [at];
      at := at + sizes[sample];
      sample, k := sample + 1, k + 1;
    }
  }

  method ExpandOffsets(chunks: seq<nat>, stsc: seq<StscEntry>, sizes: seq<nat>) returns (offsets: seq<nat>)
    ensures offsets == OffsetsFrom(chunks, stsc, 0, sizes, 0)
  {
    hide OffsetsFrom, Consecutive, Lookup;
    offsets := [];
    var sample: nat := 0;
    for i := 0 to |chunks|
      invariant sample <= |sizes|
      invariant offsets + OffsetsFrom(chunks, stsc, i, sizes, sample) == OffsetsFrom(chunks, stsc, 0, sizes, 0)
    {
      OffsetsUnfold(chunks, stsc, i, sizes, sample);
      var per := FindPerChunk(stsc, i + 1);
      offsets, sample := AppendChunk(chunks[i], sizes, sample, per, offsets);
    }
    OffsetsUnfold(chunks, stsc, |chunks|, sizes, sample);
  }

  lemma {:induction false} OffsetsUnfold(chunks: seq<nat>, stsc: seq<StscEntry>, chunk: nat, sizes: seq<nat>,
          sample: nat)
    requires chunk <= |chunks| && sample <= |sizes|
    ensures OffsetsFrom(chunks, stsc, chunk, sizes, sample) ==
      if chunk == |chunks| then [] else
        var next := sample + Min(Lookup(stsc, chunk + 1), |sizes| - sample);
        Consecutive(chunks[chunk], sizes[sample..next]) + OffsetsFrom(chunks, stsc, chunk + 1, sizes, next)
  {
    hide Consecutive, Lookup;
  }

  method ExpandTimes(stts: seq<Runs<nat>>) returns (dts: seq<int>, total: int)
    ensures dts == PrefixSums(Expanded(stts)) && total == Sum(Expanded(stts))
  {
    hide Repeat, PrefixSums, Sum, Expanded;
    dts, total := [], 0;
    NoTimes();
    assert stts[..0] == [];
    for i := 0 to |stts|
      invariant dts == PrefixSums(Expanded(stts[..i])) && total == Sum(Expanded(stts[..i]))
    {
      ghost var before, v := Expanded(stts[..i]), stts[i].value;
      RepeatNone(before, v);
      for k := 0 to stts[i].count
        invariant dts == PrefixSums(before + Repeat(v, k)) && total == Sum(before + Repeat(v, k))
      {
        RepeatMore(v, k);
        assert before + Repeat(v, k + 1) == before + Repeat(v, k) + [v];
        TimesSnoc(before + Repeat(v, k), v);
        dts := dts + [total];
        total := total + stts[i].value;
      }
      assert stts[..i + 1] == stts[..i] + [stts[i]];
      ExpandedSnoc(stts[..i], stts[i]);
    }
    assert stts[..|stts|] == stts;
  }

  lemma {:induction false} NoTimes()
    ensures PrefixSums([]) == [] && Sum([]) == 0 && Expanded<nat>([]) == []
  {}

  lemma {:induction false} RepeatNone(s: seq<nat>, v: nat)
    ensures s + Repeat(v, 0) == s
  {}

  lemma {:induction false} TimesSnoc(deltas: seq<nat>, v: nat)
    ensures PrefixSums(deltas + [v]) == PrefixSums(deltas) + [Sum(deltas)] && Sum(deltas + [v]) == Sum(deltas) + v
  {
    assert (deltas + [v])[..|deltas|] == deltas;
  }

  method ExpandShifts(ctts: seq<Runs<int>>) returns (cts: seq<int>)
    ensures cts == Expanded(ctts)
  {
    cts := [];
    for i := 0 to |ctts|
      invariant cts == Expanded(ctts[..i])
    {
      assert ctts[..i + 1][..i] == ctts[..i];
      for k := 0 to ctts[i].count
        invariant cts == Expanded(ctts[..i]) + Repeat(ctts[i].value, k)
      {
        cts := cts + [ctts[i].value];
      }
    }
    assert ctts[..|ctts|] == ctts;
  }

  lemma {:induction false} OpenedSize(t: Trak, i: nat, offsets: seq<nat>, dts: seq<int>, cts: seq<int>, video: bool,
          timescale: nat, media: nat)
    requires i < |t.sizes| && i < |offsets| && i < |dts|
    ensures OpenedAt(t, i, offsets, dts, cts, video, timescale, media).size == t.sizes[i]
  {}

  const MAX_SAMPLE := 64 * 1024 * 1024

  /** No sample is larger than the source believes a sample can be. */
  predicate Plausible(samples: seq<Opened>) {
    forall i :: 0 <= i < |samples| ==> samples[i].size <= MAX_SAMPLE
  }

  /** `None` for tables taken to be corrupt. */
  method OpenTrack(t: Trak, video: bool, timescale: nat, media: nat) returns (result: Option<seq<Opened>>)
    ensures result == if Plausible(Open(t, video, timescale, media)) then Some(Open(t, video, timescale, media))
      else None
  {
    hide OffsetsFrom, PrefixSums, Expanded, Sum, OpenedAt;
    var offsets := ExpandOffsets(t.stco, t.stsc, t.sizes);
    var dts, total := ExpandTimes(t.stts);
    var cts := [];
    if t.ctts.Some? {
      cts := ExpandShifts(t.ctts.value);
    }
    var samples := [];
    ghost var all := OpenTables(t, offsets, dts, cts, video, timescale, media);
    for i := 0 to Min(|t.sizes|, Min(|offsets|, |dts|))
      invariant samples == all[..i] && Plausible(samples)
    {
      OpenedSize(t, i, offsets, dts, cts, video, timescale, media);
      if t.sizes[i] > MAX_SAMPLE {
        assert all[i].size > MAX_SAMPLE;
        return None;
      }
      samples := samples + [OpenedAt(t, i, offsets, dts, cts, video, timescale, media)];
    }
    assert samples == all;
    result := Some(samples);
  }

  // ---- What the writer's tables expand to ----

  /** Each chunk's samples, by the chunks' own sample counts. */
  function Laid(chunks: seq<nat>, counts: seq<nat>, sizes: seq<nat>): seq<nat>
    requires |chunks| == |counts| && Sum(counts) == |sizes|
    decreases |counts|
  {
    if counts == [] then [] else
      var n := |counts| - 1;
      var m := |sizes| - counts[n];
      Laid(chunks[..n], counts[..n], sizes[..m]) + Consecutive(chunks[n], sizes[m..])
  }

  /** The table of samples per chunk, looked up, is the list it was made from. */
  lemma {:induction false} LookupIs(counts: seq<nat>, chunk: nat)
    requires 1 <= chunk <= |counts|
    ensures Lookup(Stsc(counts), chunk) == counts[chunk - 1]
    decreases |counts|
  {
    var init, n := counts[..|counts| - 1], counts[|counts| - 1];
    var before := Stsc(init);
    StscRange(init);
    if chunk < |counts| {
      LookupIs(init, chunk);
      if Stsc(counts) != before {
        assert Stsc(counts)[..|before|] == before;
      }
    } else if Stsc(counts) == before {
      assert |init| >= 1;
      assert before[|before| - 1].firstChunk <= |init|;
    }
  }

  lemma {:induction false} StscRange(counts: seq<nat>)
    ensures forall i :: 0 <= i < |Stsc(counts)| ==> 1 <= Stsc(counts)[i].firstChunk <= |counts|
    ensures counts != [] ==> Stsc(counts) != []
    decreases |counts|
  {
    if counts != [] {
      StscRange(counts[..|counts| - 1]);
    }
  }

  /** The expansion stops where the table's samples do. */
  lemma {:induction false} OffsetsAreLaid(chunks: seq<nat>, counts: seq<nat>, sizes: seq<nat>, k: nat, sample: nat)
    requires |chunks| == |counts| && Sum(counts) == |sizes| && k <= |chunks| && sample == Sum(counts[..k])
    ensures sample <= |sizes|
    ensures Laid(chunks[..k], counts[..k], sizes[..sample]) + OffsetsFrom(chunks, Stsc(counts), k, sizes, sample)
         == Laid(chunks, counts, sizes)
    decreases |chunks| - k
  {
    hide Stsc, Consecutive, Lookup, Laid, OffsetsFrom, Sum;
    SumPrefix(counts, k);
    if k == |chunks| {
      assert chunks[..k] == chunks && counts[..k] == counts && sizes[..sample] == sizes;
      OffsetsUnfold(chunks, Stsc(counts), k, sizes, sample);
    } else {
      SumPrefix(counts, k + 1);
      SumStep(counts, k);
      OffsetsAreLaid(chunks, counts, sizes, k + 1, sample + counts[k]);
      LaidStep(chunks, counts, sizes, k, sample);
      OffsetsStep(chunks, counts, sizes, k, sample);
    }
  }

  lemma {:induction false} SumStep(s: seq<nat>, k: nat)
    requires k < |s|
    ensures Sum(s[..k + 1]) == Sum(s[..k]) + s[k]
  {
    assert s[..k + 1][..k] == s[..k];
  }

  lemma {:induction false} LaidStep(chunks: seq<nat>, counts: seq<nat>, sizes: seq<nat>, k: nat, sample: nat)
    requires |chunks| == |counts| && k < |chunks| && sample == Sum(counts[..k]) && sample + counts[k] <= |sizes|
    ensures Sum(counts[..k + 1]) == sample + counts[k]
    ensures Laid(chunks[..k + 1], counts[..k + 1], sizes[..sample + counts[k]])
         == Laid(chunks[..k], counts[..k], sizes[..sample]) + Consecutive(chunks[k], sizes[sample..sample + counts[k]])
  {
    var next := sample + counts[k];
    SumStep(counts, k);
    assert counts[..k + 1][..k] == counts[..k] && chunks[..k + 1][..k] == chunks[..k];
    assert sizes[..next][..sample] == sizes[..sample] && sizes[..next][sample..] == sizes[sample..next];
  }

  lemma {:induction false} OffsetsStep(chunks: seq<nat>, counts: seq<nat>, sizes: seq<nat>, k: nat, sample: nat)
    requires |chunks| == |counts| && k < |chunks| && sample + counts[k] <= |sizes|
    ensures OffsetsFrom(chunks, Stsc(counts), k, sizes, sample)
         == Consecutive(chunks[k], sizes[sample..sample + counts[k]])
            + OffsetsFrom(chunks, Stsc(counts), k + 1, sizes, sample + counts[k])
  {
    LookupIs(counts, k + 1);
  }

  lemma {:induction false} SumPrefix(s: seq<nat>, k: nat)
    requires k <= |s|
    ensures Sum(s[..k]) <= Sum(s)
    decreases |s| - k
  {
    if k < |s| {
      SumPrefix(s, k + 1);
      assert s[..k + 1][..k] == s[..k];
    } else {
      assert s[..k] == s;
    }
  }

  lemma {:induction false} ConsecutiveSnoc(offset: nat, sizes: seq<nat>, z: nat)
    ensures Consecutive(offset, sizes + [z]) == Consecutive(offset, sizes) + [offset + Sum(sizes)]
    decreases |sizes|
  {
    hide Consecutive, Sum;
    ConsecutiveStep(offset, sizes + [z]);
    ConsecutiveStep(offset, sizes);
    if sizes == [] {
      NoTimes();
      ConsecutiveStep(offset + z, []);
      assert (sizes + [z])[1..] == [] && (sizes + [z])[0] == z;
    } else {
      ConsecutiveSnoc(offset + sizes[0], sizes[1..], z);
      assert (sizes + [z])[1..] == sizes[1..] + [z] && (sizes + [z])[0] == sizes[0];
      SumCons(sizes);
    }
  }

  lemma {:induction false} ConsecutiveStep(offset: nat, sizes: seq<nat>)
    ensures Consecutive(offset, sizes) == if sizes == [] then []
      else [offset] + Consecutive(offset + sizes[0], sizes[1..])
  {}

  lemma {:induction false} SumCons(s: seq<nat>)
    requires s != []
    ensures Sum(s) == s[0] + Sum(s[1..])
    decreases |s|
  {
    if |s| > 1 {
      SumCons(s[..|s| - 1]);
      assert s[..|s| - 1][1..] == s[1..][..|s| - 2];
    }
  }
}
