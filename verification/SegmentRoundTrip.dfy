/** What the fragment writer wrote, the segment reader reads back: every sample, in order, with its own bytes. */
module SegmentRoundTrip {
  import opened Util
  import opened Fmp4
  import opened SegmentFile

  datatype Written = Written(sequence: nat, runs: seq<Run>)

  function FragmentMoof(f: Written): Moof {
    MoofOf(f.sequence, NonEmpty(f.runs))
  }

  function FragmentBoxes(f: Written): seq<Box> {
    var kept := NonEmpty(f.runs);
    [MoofBox(FragmentMoof(f)), OtherBox(MdatHeader(|Payload(kept)|) + Payload(kept))]
  }

  function BoxesOf(fs: seq<Written>): seq<Box> {
    if fs == [] then [] else FragmentBoxes(fs[0]) + BoxesOf(fs[1..])
  }

  /** The segment file as written: the fragments' bytes, one after the other. */
  function BytesOf(fs: seq<Written>): Bytes {
    if fs == [] then [] else Fragment(fs[0].sequence, fs[0].runs) + BytesOf(fs[1..])
  }

  /** A sample of the recording and the clip track it belongs to. */
  datatype Origin = Origin(track: nat, sample: Sample)

  /** Decode times are not stored sample by sample: they add up from the run's first. */
  function Retimed(samples: seq<Sample>, dts: int): (r: seq<Sample>)
    ensures |r| == |samples|
  {
    if samples == [] then [] else [samples[0].(dts := dts)] + Retimed(samples[1..], dts + samples[0].dur)
  }

  function FirstDts(samples: seq<Sample>): nat
    requires samples != []
  {
    if samples[0].dts < 0 then 0 else samples[0].dts
  }

  function OriginsOf(samples: seq<Sample>, track: nat): (o: seq<Origin>)
    ensures |o| == |samples|
  {
    seq(|samples|, i requires 0 <= i < |samples| => Origin(track, samples[i]))
  }

  function RunOrigins(run: Run, tracks: seq<TrackIn>): seq<Origin>
    requires run.samples != []
  {
    var track := Position(tracks, run.trackId);
    if track.None? then [] else OriginsOf(Retimed(run.samples, FirstDts(run.samples)), track.value)
  }

  function RunsOrigins(runs: seq<Run>, tracks: seq<TrackIn>): seq<Origin>
    requires forall i :: 0 <= i < |runs| ==> runs[i].samples != []
  {
    if runs == [] then [] else RunOrigins(runs[0], tracks) + RunsOrigins(runs[1..], tracks)
  }

  function FileOrigins(fs: seq<Written>, tracks: seq<TrackIn>): seq<Origin> {
    if fs == [] then [] else RunsOrigins(NonEmpty(fs[0].runs), tracks) + FileOrigins(fs[1..], tracks)
  }

  /** The reference describes the sample, and points at its bytes. */
  ghost predicate Refers(file: Bytes, r: SampleRef, o: Origin) {
    && r.track == o.track && r.dts == o.sample.dts && r.dur == o.sample.dur && r.cts == o.sample.cts
       && r.key == o.sample.key
    && r.size == |o.sample.data| && 0 <= r.offset && r.offset + r.size <= |file|
    && file[r.offset..r.offset + r.size] == o.sample.data
  }

  /** References to the origins, one each, in file order, between two offsets. */
  ghost predicate AllRefer(file: Bytes, refs: seq<SampleRef>, origins: seq<Origin>, seg: nat, lo: int, hi: int) {
    && |refs| == |origins| && lo <= hi
    && (forall i :: 0 <= i < |refs| ==> Refers(file, refs[i], origins[i]) && refs[i].seg == seg)
    && (forall i :: 0 <= i < |refs| ==> lo <= refs[i].offset && refs[i].offset + refs[i].size <= hi)
    && (forall i, j :: 0 <= i < j < |refs| ==> refs[i].offset + refs[i].size <= refs[j].offset)
  }

  lemma {:induction false} ReferJoin(file: Bytes, a: seq<SampleRef>, oa: seq<Origin>, b: seq<SampleRef>,
          ob: seq<Origin>,
                                     seg: nat, lo: int, mid: int, hi: int)
    requires AllRefer(file, a, oa, seg, lo, mid) && AllRefer(file, b, ob, seg, mid, hi)
    ensures AllRefer(file, a + b, oa + ob, seg, lo, hi)
  {
    hide Refers;
  }

  lemma {:induction false} ThenJoin(file: Bytes, a: Refs, oa: seq<Origin>, b: Refs, ob: seq<Origin>, seg: nat,
          lo: int, mid: int, hi: int)
    requires a.Refs? && AllRefer(file, a.refs, oa, seg, lo, mid)
    requires b.Refs? && AllRefer(file, b.refs, ob, seg, mid, hi)
    ensures Then(a, b).Refs? && AllRefer(file, Then(a, b).refs, oa + ob, seg, lo, hi)
  {
    hide AllRefer;
    ReferJoin(file, a.refs, oa, b.refs, ob, seg, lo, mid, hi);
  }

  lemma {:induction false} ReferNone(file: Bytes, seg: nat, lo: int, hi: int)
    requires lo <= hi
    ensures AllRefer(file, [], [], seg, lo, hi)
  {}

  /** The run's bytes lie in the file at `offset`. */
  ghost predicate Lies(file: Bytes, offset: int, bytes: Bytes) {
    0 <= offset && offset + |bytes| <= |file| && file[offset..offset + |bytes|] == bytes
  }

  lemma {:induction false} LiesSplit(file: Bytes, offset: int, a: Bytes, b: Bytes)
    requires Lies(file, offset, a + b)
    ensures Lies(file, offset, a) && Lies(file, offset + |a|, b)
  {
    var n := offset + |a| + |b|;
    assert file[offset..n][..|a|] == a && file[offset..n][|a|..] == b;
    assert file[offset..n][..|a|] == file[offset..offset + |a|];
    assert file[offset..n][|a|..] == file[offset + |a|..n];
  }

  lemma {:induction false} EntryBack(file: Bytes, s: Sample, at: At)
    requires Lies(file, at.offset, s.data)
    ensures Inside(at, Entry(s), |file|)
    ensures AllRefer(file, [RefOf(Entry(s), at)], OriginsOf([s.(dts := at.dts)], at.track), at.seg, at.offset,
      at.offset + |s.data|)
  {
    assert IsKey(FLAGS_SYNC) && !IsKey(FLAGS_NON_SYNC);
  }

  lemma {:induction false} RunBack(file: Bytes, samples: seq<Sample>, at: At)
    requires Lies(file, at.offset, Concat(samples))
    ensures var r := ReadRun(Entries(samples), at, |file|);
            r.Refs? && AllRefer(file, r.refs, OriginsOf(Retimed(samples, at.dts), at.track), at.seg,
                                at.offset, at.offset + |Concat(samples)|)
    decreases |samples|
  {
    hide ReadRun, AllRefer, Concat, Retimed, Lies, Inside, RefOf, Entries, OriginsOf;
    if samples == [] {
      NoRun(file, samples, at);
    } else {
      RunUnfold(file, samples, at);
      var s, rest, next := samples[0], samples[1..], Step(at, Entry(samples[0]));
      var r := ReadRun(Entries(rest), next, |file|);
      LiesSplit(file, at.offset, s.data, Concat(rest));
      EntryBack(file, s, at);
      RunBack(file, rest, next);
      ReferJoin(file, [RefOf(Entry(s), at)], OriginsOf([s.(dts := at.dts)], at.track), r.refs,
                OriginsOf(Retimed(rest, next.dts), at.track), at.seg, at.offset, next.offset,
                next.offset + |Concat(rest)|);
      OriginsAdd([s.(dts := at.dts)], Retimed(rest, next.dts), at.track);
    }
  }

  lemma {:induction false} NoRun(file: Bytes, samples: seq<Sample>, at: At)
    requires samples == []
    ensures var r := ReadRun(Entries(samples), at, |file|);
            r.Refs? && AllRefer(file, r.refs, OriginsOf(Retimed(samples, at.dts), at.track), at.seg,
                                at.offset, at.offset + |Concat(samples)|)
  {}

  lemma {:induction false} RunUnfold(file: Bytes, samples: seq<Sample>, at: At)
    requires samples != []
    ensures var s, rest, next := samples[0], samples[1..], Step(at, Entry(samples[0]));
            && next == at.(offset := at.offset + |s.data|, dts := at.dts + s.dur)
            && Concat(samples) == s.data + Concat(rest)
            && Retimed(samples, at.dts) == [s.(dts := at.dts)] + Retimed(rest, next.dts)
            && (Inside(at, Entry(s), |file|) ==>
                var r := ReadRun(Entries(rest), next, |file|);
                ReadRun(Entries(samples), at, |file|) == if r.Failed? then r else Refs([RefOf(Entry(s), at)] + r.refs))
  {
    var e := Entries(samples);
    assert e[0] == Entry(samples[0]) && e[1..] == Entries(samples[1..]);
    hide Entries, RefOf, Inside;
  }

  lemma {:induction false} OriginsAdd(a: seq<Sample>, b: seq<Sample>, track: nat)
    ensures OriginsOf(a + b, track) == OriginsOf(a, track) + OriginsOf(b, track)
  {}

  lemma {:induction false} TrafBack(file: Bytes, run: Run, tracks: seq<TrackIn>, pos: nat, offset: int, seg: nat)
    requires run.samples != [] && Lies(file, pos + offset, Concat(run.samples))
    ensures var r := ReadTraf(TrafOf(run, offset), tracks, pos, seg, |file|);
            r.Refs? && AllRefer(file, r.refs, RunOrigins(run, tracks), seg, pos + offset,
              pos + offset + |Concat(run.samples)|)
  {
    hide AllRefer, Concat, Retimed, Lies, ReadRun, Entries, OriginsOf;
    var track := Position(tracks, run.trackId);
    if track.Some? {
      RunBack(file, run.samples, At(track.value, seg, pos + offset, FirstDts(run.samples)));
    } else {
      ReferNone(file, seg, pos + offset, pos + offset + |Concat(run.samples)|);
    }
  }

  lemma {:induction false} TrafsBack(file: Bytes, runs: seq<Run>, tracks: seq<TrackIn>, pos: nat, offset: int, seg: nat)
    requires forall i :: 0 <= i < |runs| ==> runs[i].samples != []
    requires Lies(file, pos + offset, Payload(runs))
    ensures var r := ReadTrafs(Trafs(runs, offset), tracks, pos, seg, |file|);
            r.Refs? && AllRefer(file, r.refs, RunsOrigins(runs, tracks), seg, pos + offset,
              pos + offset + |Payload(runs)|)
    decreases |runs|
  {
    hide AllRefer, Concat, Payload, Trafs, TrafOf, ReadTrafs, ReadTraf, RunsOrigins, RunOrigins, Lies, Then;
    if runs == [] {
      NoTrafs(file, runs, tracks, pos, offset, seg);
    } else {
      TrafsUnfold(file, runs, tracks, pos, offset, seg);
      var rest, size := runs[1..], |Concat(runs[0].samples)|;
      var one, more := ReadTraf(TrafOf(runs[0], offset), tracks, pos, seg, |file|),
        ReadTrafs(Trafs(rest, offset + size), tracks, pos, seg, |file|);
      LiesSplit(file, pos + offset, Concat(runs[0].samples), Payload(rest));
      TrafBack(file, runs[0], tracks, pos, offset, seg);
      TrafsBack(file, rest, tracks, pos, offset + size, seg);
      ThenJoin(file, one, RunOrigins(runs[0], tracks), more, RunsOrigins(rest, tracks), seg,
               pos + offset, pos + offset + size, pos + offset + size + |Payload(rest)|);
    }
  }

  lemma {:induction false} NoTrafs(file: Bytes, runs: seq<Run>, tracks: seq<TrackIn>, pos: nat, offset: int, seg: nat)
    requires runs == []
    ensures var r := ReadTrafs(Trafs(runs, offset), tracks, pos, seg, |file|);
            r.Refs? && AllRefer(file, r.refs, RunsOrigins(runs, tracks), seg, pos + offset,
              pos + offset + |Payload(runs)|)
  {}

  lemma {:induction false} TrafsUnfold(file: Bytes, runs: seq<Run>, tracks: seq<TrackIn>, pos: nat, offset: int,
          seg: nat)
    requires runs != [] && forall i :: 0 <= i < |runs| ==> runs[i].samples != []
    ensures Payload(runs) == Concat(runs[0].samples) + Payload(runs[1..])
    ensures RunsOrigins(runs, tracks) == RunOrigins(runs[0], tracks) + RunsOrigins(runs[1..], tracks)
    ensures ReadTrafs(Trafs(runs, offset), tracks, pos, seg, |file|)
         == Then(ReadTraf(TrafOf(runs[0], offset), tracks, pos, seg, |file|),
                 ReadTrafs(Trafs(runs[1..], offset + |Concat(runs[0].samples)|), tracks, pos, seg, |file|))
  {
    var trafs := Trafs(runs, offset);
    assert trafs[0] == TrafOf(runs[0], offset) && trafs[1..] == Trafs(runs[1..], offset + |Concat(runs[0].samples)|);
    hide Concat, TrafOf, ReadTraf, RunOrigins, Trafs;
  }

  lemma {:induction false} FragmentLayout(f: Written)
    ensures var kept := NonEmpty(f.runs);
            && Fragment(f.sequence, f.runs) ==
               BoxBytes(FragmentBoxes(f)[0]) + MdatHeader(|Payload(kept)|) + Payload(kept)
            && |BoxBytes(FragmentBoxes(f)[0])| == RunsSize(kept)
            && FileOf(FragmentBoxes(f)) == Fragment(f.sequence, f.runs)
            && BoxBytes(FragmentBoxes(f)[1]) == MdatHeader(|Payload(kept)|) + Payload(kept)
  {
    var kept, boxes := NonEmpty(f.runs), FragmentBoxes(f);
    SizeIgnoresOffsets(kept, RunsSize(kept) + 8);
    hide MdatHeader, Payload, EncodeMoof, RunsSize, NonEmpty;
    assert boxes[1..] == [boxes[1]] && boxes[1..][1..] == [];
    assert FileOf(boxes[1..]) == BoxBytes(boxes[1]) + [] == BoxBytes(boxes[1]);
    assert FileOf(boxes) == BoxBytes(boxes[0]) + BoxBytes(boxes[1]);
  }

  lemma {:induction false} FileOfAdd(a: seq<Box>, b: seq<Box>)
    ensures FileOf(a + b) == FileOf(a) + FileOf(b)
    decreases |a|
  {
    if a == [] {
      assert a + b == b;
    } else {
      FileOfAdd(a[1..], b);
      assert (a + b)[1..] == a[1..] + b;
      assert BoxBytes(a[0]) + (FileOf(a[1..]) + FileOf(b)) == BoxBytes(a[0]) + FileOf(a[1..]) + FileOf(b);
    }
  }

  /** The boxes read back are exactly the bytes the fragments were written as. */
  lemma {:induction false} BoxesAreTheFile(fs: seq<Written>)
    ensures FileOf(BoxesOf(fs)) == BytesOf(fs)
  {
    if fs != [] {
      BoxesAreTheFile(fs[1..]);
      FragmentLayout(fs[0]);
      hide Fragment, FragmentBoxes, FileOf;
      FileOfAdd(FragmentBoxes(fs[0]), BoxesOf(fs[1..]));
    }
  }

  lemma {:induction false} FragmentBack(file: Bytes, f: Written, tracks: seq<TrackIn>, pos: nat, seg: nat)
    requires Lies(file, pos, Fragment(f.sequence, f.runs))
    ensures var r := ReadTrafs(FragmentMoof(f).trafs, tracks, pos, seg, |file|);
            r.Refs? && AllRefer(file, r.refs, RunsOrigins(NonEmpty(f.runs), tracks), seg,
                                pos, pos + |Fragment(f.sequence, f.runs)|)
  {
    hide Payload, RunsSize, Trafs, MdatHeader, Fragment, BoxBytes, ReadTrafs, RunsOrigins, Lies, FileOf, AllRefer;
    hide NonEmpty, FragmentMoof;
    var kept := NonEmpty(f.runs);
    var moof, mdat := BoxBytes(FragmentBoxes(f)[0]), MdatHeader(|Payload(kept)|);
    MoofTrafs(f);
    FragmentLayout(f);
    LiesSplit(file, pos, moof + mdat, Payload(kept));
    var offset := RunsSize(kept) + 8;
    TrafsBack(file, kept, tracks, pos, offset, seg);
    var r := ReadTrafs(FragmentMoof(f).trafs, tracks, pos, seg, |file|);
    AllReferWider(file, r.refs, RunsOrigins(kept, tracks), seg, pos + offset, pos + offset + |Payload(kept)|,
                  pos, pos + |Fragment(f.sequence, f.runs)|);
  }

  lemma {:induction false} MoofTrafs(f: Written)
    ensures var kept := NonEmpty(f.runs); FragmentMoof(f).trafs == Trafs(kept, RunsSize(kept) + 8)
  {
    hide Trafs, RunsSize, NonEmpty;
  }

  lemma {:induction false} AllReferWider(file: Bytes, refs: seq<SampleRef>, origins: seq<Origin>, seg: nat, lo: int,
          hi: int, lower: int, higher: int)
    requires AllRefer(file, refs, origins, seg, lo, hi) && lower <= lo && hi <= higher
    ensures AllRefer(file, refs, origins, seg, lower, higher)
  {
    hide Refers;
  }

  lemma {:induction false} BoxesBack(file: Bytes, fs: seq<Written>, tracks: seq<TrackIn>, pos: nat, seg: nat)
    requires Lies(file, pos, BytesOf(fs))
    ensures var r := ReadBoxes(BoxesOf(fs), tracks, pos, seg, |file|);
            r.Refs? && AllRefer(file, r.refs, FileOrigins(fs, tracks), seg, pos, pos + |BytesOf(fs)|)
    decreases |fs|
  {
    hide AllRefer, BytesOf, Fragment, BoxesOf, FragmentBoxes, FileOrigins, RunsOrigins, ReadBoxes, ReadTrafs;
    hide Lies, NonEmpty, Then;
    if fs == [] {
      NoBoxes(file, fs, tracks, pos, seg);
    } else {
      var f, rest := fs[0], fs[1..];
      BoxesUnfold(file, fs, tracks, pos, seg);
      var bytes := Fragment(f.sequence, f.runs);
      var one := ReadTrafs(FragmentMoof(f).trafs, tracks, pos, seg, |file|);
      var more := ReadBoxes(BoxesOf(rest), tracks, pos + |bytes|, seg, |file|);
      LiesSplit(file, pos, bytes, BytesOf(rest));
      FragmentBack(file, f, tracks, pos, seg);
      BoxesBack(file, rest, tracks, pos + |bytes|, seg);
      ThenJoin(file, one, RunsOrigins(NonEmpty(f.runs), tracks), more, FileOrigins(rest, tracks), seg,
               pos, pos + |bytes|, pos + |bytes| + |BytesOf(rest)|);
    }
  }

  lemma {:induction false} NoBoxes(file: Bytes, fs: seq<Written>, tracks: seq<TrackIn>, pos: nat, seg: nat)
    requires fs == []
    ensures var r := ReadBoxes(BoxesOf(fs), tracks, pos, seg, |file|);
            r.Refs? && AllRefer(file, r.refs, FileOrigins(fs, tracks), seg, pos, pos + |BytesOf(fs)|)
  {}

  lemma {:induction false} BoxesUnfold(file: Bytes, fs: seq<Written>, tracks: seq<TrackIn>, pos: nat, seg: nat)
    requires fs != []
    ensures var f, rest := fs[0], fs[1..];
            var bytes := Fragment(f.sequence, f.runs);
            && BytesOf(fs) == bytes + BytesOf(rest)
            && FileOrigins(fs, tracks) == RunsOrigins(NonEmpty(f.runs), tracks) + FileOrigins(rest, tracks)
            && ReadBoxes(BoxesOf(fs), tracks, pos, seg, |file|)
               == Then(ReadTrafs(FragmentMoof(f).trafs, tracks, pos, seg, |file|),
                       ReadBoxes(BoxesOf(rest), tracks, pos + |bytes|, seg, |file|))
  {
    FragmentLayout(fs[0]);
    assert |FragmentBoxes(fs[0])| == 2 && FragmentBoxes(fs[0])[0].MoofBox? && FragmentBoxes(fs[0])[1].OtherBox?;
    hide ReadBoxes, ReadTrafs, FragmentBoxes, Fragment, NonEmpty, RunsOrigins, Payload, MdatHeader, RunsSize;
    ReadTwo(FragmentBoxes(fs[0]), BoxesOf(fs[1..]), tracks, pos, seg, |file|);
  }

  lemma {:induction false} ReadTwo(two: seq<Box>, rest: seq<Box>, tracks: seq<TrackIn>, pos: nat, seg: nat, length: nat)
    requires |two| == 2 && two[0].MoofBox? && two[1].OtherBox?
    ensures ReadBoxes(two + rest, tracks, pos, seg, length)
         == Then(ReadTrafs(two[0].moof.trafs, tracks, pos, seg, length),
                 ReadBoxes(rest, tracks, pos + |FileOf(two)|, seg, length))
  {
    var all := two + rest;
    assert all[1..][1..] == rest && all[0] == two[0] && all[1..][0] == two[1];
    assert FileOf(two) == BoxBytes(two[0]) + BoxBytes(two[1]) by {
      assert two[1..][1..] == [];
      assert FileOf(two[1..]) == BoxBytes(two[1]) + FileOf(two[1..][1..]);
    }
    hide BoxBytes, ReadTrafs, FileOf;
    var last := ReadBoxes(rest, tracks, pos + |BoxBytes(two[0])| + |BoxBytes(two[1])|, seg, length);
    assert ReadBoxes(all[1..], tracks, pos + |BoxBytes(two[0])|, seg, length) == Then(Refs([]), last);
    assert Then(Refs([]), last) == last;
  }

  predicate GapFree(samples: seq<Sample>) {
    forall i :: 0 < i < |samples| ==> samples[i].dts == samples[i - 1].dts + samples[i - 1].dur
  }

  /** A run comes back with its own decode times exactly when it has no gaps and does not start before zero. */
  lemma {:induction false} GapFreeComesBack(samples: seq<Sample>)
    requires samples != []
    ensures Retimed(samples, FirstDts(samples)) == samples <==> GapFree(samples) && samples[0].dts >= 0
  {
    RetimedIs(samples, FirstDts(samples));
  }

  lemma {:induction false} RetimedIs(samples: seq<Sample>, dts: int)
    ensures Retimed(samples, dts) == samples <==> (samples != [] ==> samples[0].dts == dts) && GapFree(samples)
    decreases |samples|
  {
    if samples != [] {
      var rest, next := samples[1..], dts + samples[0].dur;
      RetimedIs(rest, next);
      var r := Retimed(samples, dts);
      assert r[0] == samples[0].(dts := dts) && r[1..] == Retimed(rest, next);
      assert r == [r[0]] + r[1..] && samples == [samples[0]] + rest;
      hide Retimed;
      GapFreeHead(samples);
    }
  }

  lemma {:induction false} GapFreeHead(samples: seq<Sample>)
    requires samples != []
    ensures GapFree(samples) <==>
      (samples[1..] != [] ==> samples[1..][0].dts == samples[0].dts + samples[0].dur) && GapFree(samples[1..])
  {
    var rest := samples[1..];
    if GapFree(samples) {
      forall i | 0 < i < |rest|
        ensures rest[i].dts == rest[i - 1].dts + rest[i - 1].dur
      {
        assert samples[i + 1].dts == samples[i].dts + samples[i].dur;
      }
    }
  }

  /** The whole segment file: every sample of every run of a known track, in order, with its own bytes. */
  lemma {:induction false} SegmentComesBack(fs: seq<Written>, tracks: seq<TrackIn>, seg: nat, start: int)
    requires tracks != []
    ensures var r := ReadSegment(BoxesOf(fs), tracks, seg, start);
            if HasTrack(FileOrigins(fs, tracks), 0)
            then r.Refs? && AllRefer(BytesOf(fs), r.refs, FileOrigins(fs, tracks), seg, 0, |BytesOf(fs)|)
            else r == Failed(NoPrimary)
  {
    hide BytesOf, BoxesOf, FileOf, FileOrigins, ReadBoxes, AllRefer, HasTrack, Timed, Lies, FirstOf;
    BoxesAreTheFile(fs);
    var file := BytesOf(fs);
    LiesWhole(file);
    BoxesBack(file, fs, tracks, 0, seg);
    var read, origins := ReadBoxes(BoxesOf(fs), tracks, 0, seg, |file|), FileOrigins(fs, tracks);
    TracksKnown(BoxesOf(fs), tracks, 0, seg, |file|);
    SameTracks(file, read.refs, origins, seg, 0, |file|, 0);
    if FirstOf(read.refs, 0).Some? {
      TimedRefers(file, read.refs, origins, seg, 0, |file|, tracks, start);
    }
  }

  lemma {:induction false} LiesWhole(file: Bytes)
    ensures Lies(file, 0, file)
  {
    assert file[0..|file|] == file;
  }

  ghost predicate HasTrack(origins: seq<Origin>, track: nat) {
    exists i :: 0 <= i < |origins| && origins[i].track == track
  }

  lemma {:induction false} SameTracks(file: Bytes, refs: seq<SampleRef>, origins: seq<Origin>, seg: nat, lo: int,
          hi: int, track: nat)
    requires AllRefer(file, refs, origins, seg, lo, hi)
    ensures FirstOf(refs, track).Some? <==> HasTrack(origins, track)
  {
    FirstOfIs(refs, track);
    assert forall i :: 0 <= i < |refs| ==> refs[i].track == origins[i].track by {
      assert forall i :: 0 <= i < |refs| ==> Refers(file, refs[i], origins[i]);
    }
  }

  lemma {:induction false} TimedRefers(file: Bytes, refs: seq<SampleRef>, origins: seq<Origin>, seg: nat, lo: int,
          hi: int,
                                       tracks: seq<TrackIn>, start: int)
    requires AllRefer(file, refs, origins, seg, lo, hi) && FirstOf(refs, 0).Some? && tracks != []
    requires forall i :: 0 <= i < |refs| ==> refs[i].track < |tracks|
    ensures AllRefer(file, Timed(refs, tracks, start), origins, seg, lo, hi)
  {
    hide MicrosOf, FirstOf;
    var t := Timed(refs, tracks, start);
    forall i | 0 <= i < |t|
      ensures Refers(file, t[i], origins[i])
    {
      assert Refers(file, refs[i], origins[i]);
    }
  }

  lemma {:induction false} FirstOfIs(refs: seq<SampleRef>, track: nat)
    ensures FirstOf(refs, track).Some? <==> exists i :: 0 <= i < |refs| && refs[i].track == track
    decreases |refs|
  {
    if refs != [] {
      FirstOfIs(refs[1..], track);
      if refs[0].track != track && FirstOf(refs[1..], track).Some? {
        var i :| 0 <= i < |refs[1..]| && refs[1..][i].track == track;
        assert refs[i + 1].track == track;
      } else if i :| 0 <= i < |refs| && refs[i].track == track && i > 0 {
        assert refs[1..][i - 1].track == track;
      }
    }
  }
}
