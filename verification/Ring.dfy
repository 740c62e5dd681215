/**
  The live ring between one publisher and its viewers: whole groups of pictures are evicted by age and by
  bytes, and what is left is always the end of an append-only log of everything pushed.
 */
module Ring {
  import opened Util
  import opened Fmp4

  /** `details` is all else that is announced of a track, in some encoding: codec, init data, language, parameters. */
  datatype Track = Track(id: nat, video: bool, timescale: nat, details: Bytes)

  datatype Item = FrameItem(track: nat, dts: int, keyframe: bool, data: Bytes)
                | CueItem(atUs: int, section: Bytes)
  {
    function Len(): nat {
      if FrameItem? then |data| else |section|
    }
  }

  /**
    `sync` and `video` are not stored in the source: they remember that the item was pushed as a join point,
    and that its track was a video track then.
   */
  datatype Entry = Entry(item: Item, micros: int, sync: bool, video: bool)

  /** How much to keep: microseconds and bytes. */
  datatype Config = Config(window: nat, maxBytes: nat)

  datatype Buffer = Buffer(frames: seq<Entry>, base: nat, keys: seq<nat>, bytes: int, newest: Option<int>) {
    function End(): nat {
      base + |frames|
    }
  }

  datatype Live = Live(buf: Buffer, tracks: seq<Track>, version: nat, hasVideo: bool, ended: bool)

  datatype PushError = UnknownTrack(track: nat) | Ended

  function Sum(s: seq<Entry>): nat
    decreases |s|
  {
    if s == [] then 0 else s[0].item.Len() + Sum(s[1..])
  }

  // ---- Eviction ----

  function DropBelow(keys: seq<nat>, base: nat): seq<nat>
    decreases |keys|
  {
    if keys != [] && keys[0] < base then DropBelow(keys[1..], base) else keys
  }

  /** Everything before `to` is dropped. */
  function EvictTo(b: Buffer, to: nat): (e: Buffer)
    requires to <= b.End()
    ensures e.End() == b.End()
  {
    var n := if to > b.base then to - b.base else 0;
    Buffer(b.frames[n..], b.base + n, DropBelow(b.keys, b.base + n), b.bytes - Sum(b.frames[..n]), b.newest)
  }

  predicate KeysInside(b: Buffer) {
    && (forall i, j :: 0 <= i < j < |b.keys| ==> b.keys[i] < b.keys[j])
    && (forall i :: 0 <= i < |b.keys| ==> b.base <= b.keys[i] < b.End())
  }

  predicate Wf(b: Buffer) {
    KeysInside(b) && (b.newest.None? ==> b.keys == [])
  }

  /** The second join point is too old to need the group before it, or the bytes are over the cap. */
  predicate Surplus(b: Buffer, cfg: Config)
    requires Wf(b) && |b.keys| >= 2
  {
    b.bytes > cfg.maxBytes || b.frames[b.keys[1] - b.base].micros <= b.newest.value - cfg.window
  }

  function EvictGroups(b: Buffer, cfg: Config): (e: Buffer)
    requires Wf(b)
    ensures Wf(e) && e.End() == b.End()
    decreases |b.keys|
  {
    if |b.keys| >= 2 && Surplus(b, cfg) then
      EvictToKey(b, 1);
      EvictGroups(EvictTo(b, b.keys[1]), cfg)
    else b
  }

  function EvictItems(b: Buffer, cfg: Config): (e: Buffer)
    requires Wf(b)
    ensures Wf(e) && e.End() == b.End()
    decreases |b.frames|
  {
    if b.bytes > cfg.maxBytes && |b.frames| > 1 then
      EvictOne(b);
      EvictItems(EvictTo(b, b.base + 1), cfg)
    else b
  }

  function Evict(b: Buffer, cfg: Config): (e: Buffer)
    requires Wf(b)
    ensures Wf(e) && e.End() == b.End()
  {
    var b1 := if b.keys != [] then (EvictToKey(b, 0); EvictTo(b, b.keys[0])) else b;
    var b2 := EvictGroups(b1, cfg);
    if |b2.keys| < 2 then EvictItems(b2, cfg) else b2
  }

  lemma {:induction false} DropBelowIs(keys: seq<nat>, base: nat, n: nat)
    requires n <= |keys|
    requires forall i :: 0 <= i < n ==> keys[i] < base
    requires forall i :: n <= i < |keys| ==> keys[i] >= base
    ensures DropBelow(keys, base) == keys[n..]
    decreases |keys|
  {
    if n > 0 {
      DropBelowIs(keys[1..], base, n - 1);
    }
  }

  lemma {:induction false} EvictToKey(b: Buffer, i: nat)
    requires Wf(b) && i < |b.keys|
    ensures EvictTo(b, b.keys[i]).keys == b.keys[i..] && EvictTo(b, b.keys[i]).base == b.keys[i]
    ensures Wf(EvictTo(b, b.keys[i]))
  {
    DropBelowIs(b.keys, b.keys[i], i);
  }

  lemma {:induction false} EvictOne(b: Buffer)
    requires Wf(b) && b.frames != []
    ensures var k := if b.keys != [] && b.keys[0] == b.base then 1 else 0;
            EvictTo(b, b.base + 1).keys == b.keys[k..] && Wf(EvictTo(b, b.base + 1))
    ensures EvictTo(b, b.base + 1).frames == b.frames[1..] && EvictTo(b, b.base + 1).base == b.base + 1
  {
    DropBelowIs(b.keys, b.base + 1, if b.keys != [] && b.keys[0] == b.base then 1 else 0);
  }

  // ---- The publisher's operations ----

  function Find(tracks: seq<Track>, id: nat): (t: Option<Track>)
    ensures t.Some? ==> t.value in tracks && t.value.id == id
    ensures t.None? ==> forall i :: 0 <= i < |tracks| ==> tracks[i].id != id
    decreases |tracks|
  {
    if tracks == [] then None else if tracks[0].id == id then Some(tracks[0]) else Find(tracks[1..], id)
  }

  predicate HasVideo(tracks: seq<Track>) {
    exists t :: t in tracks && t.video
  }

  function Append(b: Buffer, e: Entry): (a: Buffer)
    requires Wf(b) && (e.sync ==> e.item.FrameItem?)
    ensures Wf(a)
  {
    var newest := if e.item.CueItem? then b.newest
                  else if b.newest.Some? then Some(Max(b.newest.value, e.micros)) else Some(e.micros);
    AppendInside(b.keys, b.base, b.End());
    Buffer(b.frames + [e], b.base, if e.sync then b.keys + [b.End()] else b.keys, b.bytes + e.item.Len(), newest)
  }

  lemma {:induction false} AppendInside(keys: seq<nat>, base: nat, end: nat)
    requires forall i, j :: 0 <= i < j < |keys| ==> keys[i] < keys[j]
    requires forall i :: 0 <= i < |keys| ==> base <= keys[i] < end
    ensures var k := keys + [end]; forall i, j :: 0 <= i < j < |k| ==> k[i] < k[j]
    ensures base <= end ==> var k := keys + [end]; forall i :: 0 <= i < |k| ==> base <= k[i] < end + 1
  {}

  /** A frame as it enters the ring: viewers may join at keyframes of video, and at those of audio without video. */
  function FrameEntry(frame: Item, track: Track, hasVideo: bool): Entry
    requires frame.FrameItem?
  {
    Entry(frame, MicrosOf(frame.dts, track.timescale), frame.keyframe && (track.video || !hasVideo), track.video)
  }

  function CueEntry(cue: Item, newest: Option<int>): Entry
    requires cue.CueItem?
  {
    Entry(cue, if newest.Some? then newest.value else cue.atUs, false, false)
  }

  datatype Op = OpTracks(tracks: seq<Track>) | OpFrame(frame: Item) | OpCue(cue: Item) | OpEnd

  predicate OpOk(op: Op) {
    (op.OpFrame? ==> op.frame.FrameItem?) && (op.OpCue? ==> op.cue.CueItem?)
  }

  /** What an operation adds to the log. */
  function Added(l: Live, op: Op): (e: seq<Entry>)
    requires OpOk(op)
    ensures |e| <= 1 && (e != [] && e[0].sync ==> e[0].item.FrameItem?)
  {
    if l.ended then []
    else if op.OpFrame? && Find(l.tracks, op.frame.track).Some? then
      [FrameEntry(op.frame, Find(l.tracks, op.frame.track).value, l.hasVideo)]
    else if op.OpCue? then [CueEntry(op.cue, l.buf.newest)]
    else []
  }

  function Apply(l: Live, op: Op, cfg: Config): (n: Live)
    requires Wf(l.buf) && OpOk(op)
    ensures Wf(n.buf)
  {
    if l.ended then l
    else if op.OpEnd? then l.(ended := true)
    else if op.OpTracks? then
      if l.tracks == op.tracks then l
      else l.(tracks := op.tracks, version := l.version + 1, hasVideo := HasVideo(op.tracks))
    else if Added(l, op) != [] then l.(buf := Evict(Append(l.buf, Added(l, op)[0]), cfg))
    else l
  }

  const EMPTY := Live(Buffer([], 0, [], 0, None), [], 0, false, false)

  class Stream {
    const cfg: Config
    var frames: seq<Entry>
    var base: nat
    var keys: seq<nat>
    var bytes: int
    var newest: Option<int>
    var tracks: seq<Track>
    var version: nat
    var hasVideo: bool
    var ended: bool

    function Buf(): Buffer
      reads this
    {
      Buffer(frames, base, keys, bytes, newest)
    }

    function State(): Live
      reads this
    {
      Live(Buf(), tracks, version, hasVideo, ended)
    }

    constructor (cfg: Config)
      ensures State() == EMPTY && this.cfg == cfg
    {
      this.cfg := cfg;
      frames, base, keys, bytes, newest := [], 0, [], 0, None;
      tracks, version, hasVideo, ended := [], 0, false, false;
    }

    method DropTo(to: nat)
      requires to <= Buf().End()
      modifies this`frames, this`base, this`keys, this`bytes
      ensures Buf() == EvictTo(old(Buf()), to)
    {
      DropItems(to);
      label dropped:
      hide Sum;
      ghost var all := keys;
      while keys != [] && keys[0] < base
        invariant DropBelow(keys, base) == DropBelow(all, base)
        invariant unchanged@dropped(`frames, `base, `bytes)
        decreases |keys|
      {
        keys := keys[1..];
      }
    }

    method DropItems(to: nat)
      requires to <= Buf().End()
      modifies this`frames, this`base, this`bytes
      ensures base == Max(old(base), to)
      ensures frames == old(frames)[base - old(base)..] && bytes == old(bytes) - Sum(old(frames)[..base - old(base)])
    {
      ghost var all := frames;
      while base < to
        invariant old(base) <= base <= Max(old(base), to)
        invariant frames == all[base - old(base)..]
        invariant bytes == old(bytes) - Sum(all[..base - old(base)])
      {
        DropFront(all, base - old(base));
        hide Sum;
        bytes := bytes - frames[0].item.Len();
        frames := frames[1..];
        base := base + 1;
      }
    }

    method Trim()
      requires Wf(Buf())
      modifies this`frames, this`base, this`keys, this`bytes
      ensures Buf() == Evict(old(Buf()), cfg)
    {
      hide EvictTo, EvictGroups, EvictItems;
      if keys != [] {
        EvictToKey(Buf(), 0);
        DropTo(keys[0]);
      }
      TrimGroups();
      if |keys| < 2 {
        TrimItems();
      }
    }

    method TrimGroups()
      requires Wf(Buf())
      modifies this`frames, this`base, this`keys, this`bytes
      ensures Buf() == EvictGroups(old(Buf()), cfg)
    {
      hide EvictTo;
      ghost var b := Buf();
      var over := true;
      while over && |keys| >= 2
        invariant Wf(Buf()) && EvictGroups(b, cfg) == EvictGroups(Buf(), cfg)
        invariant !over && |keys| >= 2 ==> !Surplus(Buf(), cfg)
        decreases |keys|, over
      {
        var second := keys[1];
        if bytes > cfg.maxBytes || frames[second - base].micros <= newest.value - cfg.window {
          EvictToKey(Buf(), 1);
          DropTo(second);
        } else {
          over := false;
        }
      }
    }

    method TrimItems()
      requires Wf(Buf())
      modifies this`frames, this`base, this`keys, this`bytes
      ensures Buf() == EvictItems(old(Buf()), cfg)
    {
      hide EvictTo;
      ghost var b := Buf();
      while bytes > cfg.maxBytes && |frames| > 1
        invariant Wf(Buf()) && EvictItems(b, cfg) == EvictItems(Buf(), cfg)
        decreases |frames|
      {
        EvictOne(Buf());
        DropTo(base + 1);
      }
    }

    method Enter(e: Entry)
      requires Wf(Buf()) && (e.sync ==> e.item.FrameItem?)
      modifies this`frames, this`base, this`keys, this`bytes, this`newest
      ensures Buf() == Evict(Append(old(Buf()), e), cfg)
    {
      if e.sync {
        keys := keys + [base + |frames|];
      }
      if e.item.FrameItem? {
        newest := Some(if newest.Some? then Max(newest.value, e.micros) else e.micros);
      }
      bytes := bytes + e.item.Len();
      frames := frames + [e];
      assert Buf() == Append(old(Buf()), e);
      Trim();
    }

    method Push(frame: Item) returns (error: Option<PushError>)
      requires Wf(Buf()) && frame.FrameItem?
      modifies this`frames, this`base, this`keys, this`bytes, this`newest
      ensures State() == Apply(old(State()), OpFrame(frame), cfg)
      ensures error == if ended then Some(PushError.Ended)
                       else if Find(tracks, frame.track).None? then Some(UnknownTrack(frame.track)) else None
    {
      if ended {
        return Some(PushError.Ended);
      }
      var track := Find(tracks, frame.track);
      if track.None? {
        return Some(UnknownTrack(frame.track));
      }
      hide Evict, Append, Wf, FrameEntry;
      Enter(FrameEntry(frame, track.value, hasVideo));
      error := None;
    }

    method InjectCue(cue: Item) returns (error: Option<PushError>)
      requires Wf(Buf()) && cue.CueItem?
      modifies this`frames, this`base, this`keys, this`bytes, this`newest
      ensures State() == Apply(old(State()), OpCue(cue), cfg)
      ensures error == if ended then Some(PushError.Ended) else None
    {
      if ended {
        return Some(PushError.Ended);
      }
      hide Evict, Append, Wf;
      Enter(CueEntry(cue, newest));
      error := None;
    }

    method SetTracks(list: seq<Track>) returns (error: Option<PushError>)
      requires Wf(Buf())
      modifies this`tracks, this`version, this`hasVideo
      ensures State() == Apply(old(State()), OpTracks(list), cfg)
      ensures error == if ended then Some(PushError.Ended) else None
    {
      if ended {
        return Some(PushError.Ended);
      }
      error := None;
      if tracks != list {
        hasVideo := HasVideo(list);
        tracks, version := list, version + 1;
      }
    }

    method End()
      requires Wf(Buf())
      modifies this`ended
      ensures State() == Apply(old(State()), OpEnd, cfg)
    {
      ended := true;
    }
  }

  lemma {:induction false} DropFront(s: seq<Entry>, n: nat)
    requires n < |s|
    ensures Sum(s[..n + 1]) == Sum(s[..n]) + s[n..][0].item.Len() && s[n..][1..] == s[n + 1..]
  {
    SumSnoc(s, n);
  }

  lemma {:induction false} SumSnoc(s: seq<Entry>, n: nat)
    requires n < |s|
    ensures Sum(s[..n + 1]) == Sum(s[..n]) + s[n].item.Len()
    decreases n
  {
    if n == 0 {
      assert s[..1] == [s[0]];
    } else {
      SumSnoc(s[1..], n - 1);
      assert s[1..][..n] == s[..n + 1][1..] && s[1..][..n - 1] == s[..n][1..];
    }
  }
}
