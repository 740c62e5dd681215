/** Playing an opened MP4: the samples of its tracks, merged by decode time. */
module Mp4Player {
  import opened Util
  import opened Fmp4
  import opened Mp4Source

  datatype Track = Track(timescale: nat, samples: seq<Opened>, next: nat)

  datatype Frame = Frame(track: nat, dts: int, pts: int, key: bool, data: Bytes)

  datatype Next = Played(frame: Frame) | Done | ReadFailed

  predicate Ok(tracks: seq<Track>) {
    forall i :: 0 <= i < |tracks| ==> tracks[i].timescale > 0 && tracks[i].next <= |tracks[i].samples|
  }

  predicate Has(t: Track) {
    t.next < |t.samples|
  }

  /** When the next sample of a track is due, on a common clock. */
  function Due(t: Track): int
    requires Has(t) && t.timescale > 0
  {
    Time(t, t.next)
  }

  function Time(t: Track, i: nat): int
    requires i < |t.samples| && t.timescale > 0
  {
    MicrosOf(t.samples[i].dts, t.timescale)
  }

  /** The track with the earliest next sample, the first such track on a tie. */
  function Earliest(tracks: seq<Track>): (b: Option<nat>)
    requires Ok(tracks)
    ensures b.None? <==> forall i :: 0 <= i < |tracks| ==> !Has(tracks[i])
    ensures b.Some? ==> b.value < |tracks| && Has(tracks[b.value])
    ensures b.Some? ==> forall i :: 0 <= i < |tracks| && Has(tracks[i]) ==>
      Due(tracks[b.value]) <= Due(tracks[i]) && (i < b.value ==> Due(tracks[b.value]) < Due(tracks[i]))
    decreases |tracks|
  {
    if tracks == [] then None else
      var n := |tracks| - 1;
      var b := Earliest(tracks[..n]);
      if Has(tracks[n]) && (b.None? || Due(tracks[n]) < Due(tracks[b.value])) then Some(n) else b
  }

  function Step(tracks: seq<Track>, i: nat): seq<Track>
    requires i < |tracks|
  {
    tracks[i := tracks[i].(next := tracks[i].next + 1)]
  }

  function FrameAt(file: Bytes, track: nat, s: Opened): Next {
    if s.offset + s.size > |file| then ReadFailed
    else Played(Frame(track, s.dts, s.pts, s.key, file[s.offset..s.offset + s.size]))
  }

  class Source {
    const file: Bytes
    var tracks: seq<Track>

    constructor (file: Bytes, tracks: seq<Track>)
      ensures this.file == file && this.tracks == tracks
    {
      this.file := file;
      this.tracks := tracks;
    }

    method NextFrame() returns (next: Next)
      requires Ok(tracks)
      modifies this`tracks
      ensures Ok(tracks)
      ensures var best := Earliest(old(tracks));
              if best.None? then next == Done && tracks == old(tracks)
              else tracks == Step(old(tracks), best.value)
                   && next == FrameAt(file, best.value, old(tracks)[best.value].samples[old(tracks)[best.value].next])
    {
      hide Earliest, Due, Step, FrameAt;
      var best := FindEarliest();
      if best.None? {
        return Done;
      }
      var i := best.value;
      StepStaysOk(tracks, i);
      var s := tracks[i].samples[tracks[i].next];
      tracks := Step(tracks, i);
      next := FrameAt(file, i, s);
    }

    /** The track whose turn it is. */
    method FindEarliest() returns (track: Option<nat>)
      requires Ok(tracks)
      ensures track == Earliest(tracks)
    {
      hide Due, Earliest;
      var best: Option<(int, nat)> := None;
      NoneEarliest();
      for i := 0 to |tracks|
        invariant best.Some? <==> Earliest(tracks[..i]).Some?
        invariant best.Some? ==> best.value.1 == Earliest(tracks[..i]).value
        invariant best.Some? ==> best.value.0 == Due(tracks[best.value.1])
      {
        EarliestSnoc(tracks[..i + 1]);
        assert tracks[..i + 1][..i] == tracks[..i];
        if Has(tracks[i]) {
          var due := Due(tracks[i]);
          if best.None? || due < best.value.0 {
            best := Some((due, i));
          }
        }
      }
      assert tracks[..|tracks|] == tracks;
      track := if best.Some? then Some(best.value.1) else None;
    }
  }

  lemma {:induction false} NoneEarliest()
    ensures Earliest([]).None?
  {}

  lemma {:induction false} EarliestSnoc(tracks: seq<Track>)
    requires Ok(tracks) && tracks != []
    ensures var n := |tracks| - 1;
            var b := Earliest(tracks[..n]);
            Earliest(tracks) == if Has(tracks[n]) && (b.None? || Due(tracks[n]) < Due(tracks[b.value])) then Some(n)
              else b
  {
    hide Due;
  }

  lemma {:induction false} StepStaysOk(tracks: seq<Track>, i: nat)
    requires Ok(tracks) && i < |tracks| && Has(tracks[i])
    ensures Ok(Step(tracks, i))
  {}

  // ---- A whole file ----

  datatype Playable = At(track: nat, time: int, sample: Opened)

  function Left(tracks: seq<Track>): nat
    requires Ok(tracks)
    decreases |tracks|
  {
    if tracks == [] then 0 else
      Left(tracks[..|tracks| - 1]) + |tracks[|tracks| - 1].samples| - tracks[|tracks| - 1].next
  }

  lemma {:induction false} StepLeft(tracks: seq<Track>, i: nat)
    requires Ok(tracks) && i < |tracks| && Has(tracks[i])
    ensures Ok(Step(tracks, i)) && Left(Step(tracks, i)) < Left(tracks)
    decreases |tracks|
  {
    var n := |tracks| - 1;
    if i < n {
      StepLeft(tracks[..n], i);
      assert Step(tracks, i)[..n] == Step(tracks[..n], i);
    } else {
      assert Step(tracks, i)[..n] == tracks[..n];
    }
  }

  /** Everything still to play, in playing order. */
  function Playing(tracks: seq<Track>): seq<Playable>
    requires Ok(tracks)
    decreases Left(tracks)
  {
    var best := Earliest(tracks);
    if best.None? then [] else
      StepLeft(tracks, best.value);
      [At(best.value, Due(tracks[best.value]), tracks[best.value].samples[tracks[best.value].next])]
      + Playing(Step(tracks, best.value))
  }

  function Of(play: seq<Playable>, track: nat): seq<Opened> {
    if play == [] then [] else (if play[0].track == track then [play[0].sample] else []) + Of(play[1..], track)
  }

  /** Every track's samples are played, all of them, once each and in order. */
  lemma {:induction false} EverySampleOnce(tracks: seq<Track>, t: nat)
    requires Ok(tracks) && t < |tracks|
    ensures Of(Playing(tracks), t) == tracks[t].samples[tracks[t].next..]
    decreases Left(tracks)
  {
    var best := Earliest(tracks);
    if best.Some? {
      StepLeft(tracks, best.value);
      var rest := Step(tracks, best.value);
      EverySampleOnce(rest, t);
      assert Playing(tracks)[1..] == Playing(rest);
      if t == best.value {
        assert tracks[t].samples[tracks[t].next..] ==
          [tracks[t].samples[tracks[t].next]] + rest[t].samples[rest[t].next..];
      }
    }
  }

  /** Nothing more of a track is due before its next sample is. */
  ghost predicate InOrder(tracks: seq<Track>)
    requires Ok(tracks)
  {
    forall t, i, j :: 0 <= t < |tracks| && tracks[t].next <= i <= j < |tracks[t].samples| ==>
      Time(tracks[t], i) <= Time(tracks[t], j)
  }

  /** If each track is in decode order, the merge is in time order. */
  lemma {:induction false} PlayedInTimeOrder(tracks: seq<Track>)
    requires Ok(tracks) && InOrder(tracks)
    ensures forall i, j :: 0 <= i <= j < |Playing(tracks)| ==> Playing(tracks)[i].time <= Playing(tracks)[j].time
    decreases Left(tracks)
  {
    var best := Earliest(tracks);
    if best.Some? {
      StepLeft(tracks, best.value);
      var rest := Step(tracks, best.value);
      assert forall t, i {:trigger Time(rest[t], i)} :: 0 <= t < |rest| && 0 <= i < |rest[t].samples| ==>
        Time(rest[t], i) == Time(tracks[t], i);
      PlayedInTimeOrder(rest);
      NothingEarlier(rest, Due(tracks[best.value]));
      var all := Playing(tracks);
      assert all[0].time == Due(tracks[best.value]) && all[1..] == Playing(rest);
      assert forall j :: 0 < j < |all| ==> all[j] == all[1..][j - 1];
    }
  }

  lemma {:induction false} NothingEarlier(tracks: seq<Track>, time: int)
    requires Ok(tracks) && InOrder(tracks)
    requires forall i :: 0 <= i < |tracks| && Has(tracks[i]) ==> Due(tracks[i]) >= time
    ensures forall j :: 0 <= j < |Playing(tracks)| ==> Playing(tracks)[j].time >= time
    decreases Left(tracks)
  {
    var best := Earliest(tracks);
    if best.Some? {
      StepLeft(tracks, best.value);
      var rest := Step(tracks, best.value);
      assert forall t, i {:trigger Time(rest[t], i)} :: 0 <= t < |rest| && 0 <= i < |rest[t].samples| ==>
        Time(rest[t], i) == Time(tracks[t], i);
      NothingEarlier(rest, time);
      assert Playing(tracks)[1..] == Playing(rest);
    }
  }
}
