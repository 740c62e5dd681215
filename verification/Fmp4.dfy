/** CMAF fragments: one `moof` and one `mdat` holding a run of samples of every track. */
module Fmp4 {
  import opened Util

  type Byte = x: int | 0 <= x < 256

  type Bytes = seq<Byte>

  datatype Sample = Sample(dts: int, cts: int, dur: nat, key: bool, data: Bytes)

  datatype Run = Run(trackId: nat, samples: seq<Sample>)

  datatype TrunEntry = TrunEntry(duration: nat, size: nat, flags: nat, cts: int)

  datatype Traf = Traf(trackId: nat, baseDecodeTime: nat, dataOffset: int, entries: seq<TrunEntry>)

  datatype Moof = Moof(sequence: nat, trafs: seq<Traf>)

  const FLAGS_SYNC := 0x0200_0000
  const FLAGS_NON_SYNC := 0x0101_0000

  /**
    The encoded size of a `moof`: fixed-width headers and four 32-bit fields per sample, so it is the
    same for any offsets stored in it. The bytes themselves are not modelled.
   */
  function MoofSize(trafs: seq<Traf>): nat {
    if trafs == [] then 24 else 64 + 16 * |trafs[0].entries| + MoofSize(trafs[1..])
  }

  function EncodeMoof(moof: Moof): (b: Bytes)
    ensures |b| == MoofSize(moof.trafs)
  {
    seq(MoofSize(moof.trafs), _ => 0)
  }

  function MdatHeader(payload: nat): (b: Bytes)
    ensures |b| == 8
  {
    var n := payload + 8;
    [n / 0x100_0000 % 256, n / 0x1_0000 % 256, n / 0x100 % 256, n % 256, 0x6d, 0x64, 0x61, 0x74]
  }

  function Concat(samples: seq<Sample>): Bytes {
    if samples == [] then [] else samples[0].data + Concat(samples[1..])
  }

  function Payload(runs: seq<Run>): Bytes {
    if runs == [] then [] else Concat(runs[0].samples) + Payload(runs[1..])
  }

  function NonEmpty(runs: seq<Run>): (r: seq<Run>)
    ensures forall i :: 0 <= i < |r| ==> r[i].samples != []
  {
    if runs == [] then []
    else if runs[0].samples == [] then NonEmpty(runs[1..])
    else [runs[0]] + NonEmpty(runs[1..])
  }

  function Entry(s: Sample): TrunEntry {
    TrunEntry(s.dur, |s.data|, if s.key then FLAGS_SYNC else FLAGS_NON_SYNC, s.cts)
  }

  function Entries(samples: seq<Sample>): (e: seq<TrunEntry>)
    ensures |e| == |samples|
  {
    seq(|samples|, i requires 0 <= i < |samples| => Entry(samples[i]))
  }

  function TrafOf(run: Run, offset: int): Traf
    requires run.samples != []
  {
    Traf(run.trackId, if run.samples[0].dts < 0 then 0 else run.samples[0].dts, offset, Entries(run.samples))
  }

  /** One `traf` a run; each run's bytes start where the run before it ends. */
  function Trafs(runs: seq<Run>, offset: int): (t: seq<Traf>)
    requires forall i :: 0 <= i < |runs| ==> runs[i].samples != []
    ensures |t| == |runs|
  {
    if runs == [] then []
    else [TrafOf(runs[0], offset)] + Trafs(runs[1..], offset + |Concat(runs[0].samples)|)
  }

  function MoofOf(sequence: nat, runs: seq<Run>): Moof
    requires forall i :: 0 <= i < |runs| ==> runs[i].samples != []
  {
    Moof(sequence, Trafs(runs, RunsSize(runs) + 8))
  }

  /** `MoofSize` of the runs' `moof`, whatever its offsets. */
  function RunsSize(runs: seq<Run>): nat {
    if runs == [] then 24 else 64 + 16 * |runs[0].samples| + RunsSize(runs[1..])
  }

  function Fragment(sequence: nat, runs: seq<Run>): Bytes {
    var kept := NonEmpty(runs);
    EncodeMoof(MoofOf(sequence, kept)) + MdatHeader(|Payload(kept)|) + Payload(kept)
  }

  /** Offsets have no influence on the size of a `moof`, so it can be measured before they are known. */
  lemma {:induction false} SizeIgnoresOffsets(runs: seq<Run>, offset: int)
    requires forall i :: 0 <= i < |runs| ==> runs[i].samples != []
    ensures MoofSize(Trafs(runs, offset)) == RunsSize(runs)
  {
    if runs != [] {
      var t := Trafs(runs, offset);
      assert t[1..] == Trafs(runs[1..], offset + |Concat(runs[0].samples)|);
      SizeIgnoresOffsets(runs[1..], offset + |Concat(runs[0].samples)|);
    }
  }

  lemma {:induction false} PayloadSnoc(runs: seq<Run>, r: Run)
    ensures Payload(runs + [r]) == Payload(runs) + Concat(r.samples)
  {
    hide Payload, Concat;
    PayloadStep(runs);
    if runs == [] {
      PayloadStep([r]);
      PayloadStep([]);
      assert [] + [r] == [r] && [r][1..] == [] && Concat(r.samples) + [] == Concat(r.samples);
    } else {
      PayloadSnoc(runs[1..], r);
      PayloadStep(runs + [r]);
      assert (runs + [r])[0] == runs[0] && (runs + [r])[1..] == runs[1..] + [r];
      AddAssoc(Concat(runs[0].samples), Payload(runs[1..]), Concat(r.samples));
    }
  }

  lemma {:induction false} PayloadStep(runs: seq<Run>)
    ensures Payload(runs) == if runs == [] then [] else Concat(runs[0].samples) + Payload(runs[1..])
  {
    hide Concat;
  }

  lemma {:induction false} ConcatSnoc(samples: seq<Sample>, s: Sample)
    ensures Concat(samples + [s]) == Concat(samples) + s.data
  {
    if samples == [] {
      assert Concat([s]) == s.data + Concat([]);
    } else {
      ConcatSnoc(samples[1..], s);
      assert (samples + [s])[1..] == samples[1..] + [s];
    }
  }

  lemma {:induction false} TrafsSnoc(runs: seq<Run>, r: Run, offset: int)
    requires forall i :: 0 <= i < |runs| ==> runs[i].samples != []
    requires r.samples != []
    ensures Trafs(runs + [r], offset) == Trafs(runs, offset) + [TrafOf(r, offset + |Payload(runs)|)]
  {
    hide Trafs, Payload, TrafOf, Concat;
    if runs == [] {
      TrafsStep([r], offset);
      TrafsStep([], offset);
      TrafsStep([], offset + |Concat(r.samples)|);
      assert [] + [r] == [r] && [r][1..] == [];
    } else {
      assert (runs + [r])[0] == runs[0] && (runs + [r])[1..] == runs[1..] + [r];
      var next := offset + |Concat(runs[0].samples)|;
      TrafsSnoc(runs[1..], r, next);
      TrafsStep(runs, offset);
      TrafsStep(runs + [r], offset);
      AddAssoc([TrafOf(runs[0], offset)], Trafs(runs[1..], next), [TrafOf(r, offset + |Payload(runs)|)]);
    }
  }

  lemma {:induction false} TrafsStep(runs: seq<Run>, offset: int)
    requires forall i :: 0 <= i < |runs| ==> runs[i].samples != []
    ensures runs == [] ==> Trafs(runs, offset) == [] && Payload(runs) == []
    ensures runs != [] ==>
      && Trafs(runs, offset) == [TrafOf(runs[0], offset)] + Trafs(runs[1..], offset + |Concat(runs[0].samples)|)
      && |Payload(runs)| == |Concat(runs[0].samples)| + |Payload(runs[1..])|
  {
    hide TrafOf, Concat;
  }

  /** Gives every run's record its real offset, one after the other. */
  method PatchOffsets(runs: seq<Run>, records: seq<Traf>, first: int) returns (trafs: seq<Traf>)
    requires forall i :: 0 <= i < |runs| ==> runs[i].samples != []
    requires |records| == |runs|
    requires forall i :: 0 <= i < |runs| ==> records[i] == TrafOf(runs[i], 0)
    ensures trafs == Trafs(runs, first)
  {
    trafs := records;
    var offset := first;
    for i := 0 to |runs|
      invariant |trafs| == |runs|
      invariant offset == first + |Payload(runs[..i])|
      invariant trafs[..i] == Trafs(runs[..i], first)
      invariant trafs[i..] == records[i..]
    {
      TrafsSnoc(runs[..i], runs[i], first);
      PayloadSnoc(runs[..i], runs[i]);
      assert runs[..i + 1] == runs[..i] + [runs[i]];
      assert trafs[i] == trafs[i..][0] == records[i];
      trafs := trafs[..i] + [trafs[i].(dataOffset := offset)] + trafs[i + 1..];
      offset := offset + |Concat(runs[i].samples)|;
    }
    assert runs[..|runs|] == runs && trafs[..|runs|] == trafs;
  }

  method AppendPayload(runs: seq<Run>, head: Bytes) returns (out: Bytes)
    ensures out == head + Payload(runs)
  {
    hide Payload, Concat;
    out := head;
    PayloadStep([]);
    assert runs[..0] == [] && head + [] == head;
    for i := 0 to |runs|
      invariant out == head + Payload(runs[..i])
    {
      PayloadSnoc(runs[..i], runs[i]);
      assert runs[..i + 1] == runs[..i] + [runs[i]];
      out := AppendSamples(runs[i].samples, out);
      AddAssoc(head, Payload(runs[..i]), Concat(runs[i].samples));
    }
    assert runs[..|runs|] == runs;
  }

  method AppendSamples(samples: seq<Sample>, head: Bytes) returns (out: Bytes)
    ensures out == head + Concat(samples)
  {
    hide Concat;
    out := head;
    NoSamples();
    assert samples[..0] == [] && head + [] == head;
    for k := 0 to |samples|
      invariant out == head + Concat(samples[..k])
    {
      ConcatSnoc(samples[..k], samples[k]);
      assert samples[..k + 1] == samples[..k] + [samples[k]];
      AddAssoc(head, Concat(samples[..k]), samples[k].data);
      out := out + samples[k].data;
    }
    assert samples[..|samples|] == samples;
  }

  lemma {:induction false} NoSamples()
    ensures Concat([]) == []
  {}

  /** Writes a fragment: the runs' records first, then their offsets, then the bytes. */
  method WriteFragment(sequence: nat, runs: seq<Run>) returns (out: Bytes)
    ensures out == Fragment(sequence, runs)
  {
    var kept := NonEmpty(runs);
    var records := seq(|kept|, i requires 0 <= i < |kept| => TrafOf(kept[i], 0));
    var probe := MoofSize(records);
    ProbeSize(kept, records);
    var trafs := PatchOffsets(kept, records, probe + 8);
    out := EncodeMoof(Moof(sequence, trafs)) + MdatHeader(|Payload(kept)|);
    out := AppendPayload(kept, out);
  }

  lemma {:induction false} ProbeSize(runs: seq<Run>, trafs: seq<Traf>)
    requires |trafs| == |runs|
    requires forall i :: 0 <= i < |runs| ==> runs[i].samples != [] && trafs[i] == TrafOf(runs[i], 0)
    ensures MoofSize(trafs) == RunsSize(runs)
  {
    if runs != [] {
      ProbeSize(runs[1..], trafs[1..]);
    }
  }

  // ---- Opus packet durations (section 3.1 of RFC 6716) ----

  function OpusDuration(packet: Bytes): nat {
    if packet == [] then 960 else
      var toc := packet[0];
      var frames :=
        match toc % 4
        case 0 => 1
        case 1 => 2
        case 2 => 2
        case _ => if |packet| > 1 && packet[1] % 64 > 0 then packet[1] % 64 else 1;
      FrameSamples(toc / 8) * frames
  }

  function FrameSamples(config: nat): nat {
    if config <= 11 then [480, 960, 1920, 2880][config % 4]
    else if config <= 15 then [480, 960][config % 2]
    else [120, 240, 480, 960][config % 4]
  }
}
