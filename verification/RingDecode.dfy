/**
  What is left in the ring after any run, as a function of what was pushed; and exactly when every video frame
  left in it has a keyframe of its track before it.
 */
module RingDecode {
  import opened Util
  import opened Fmp4
  import opened Ring
  import opened RingLog

  // ---- The ring is one eviction of everything pushed ----

  /** Everything pushed, with nothing evicted. */
  function Whole(log: seq<Entry>): (b: Buffer)
    requires SyncsAreFrames(log)
    ensures Wf(b)
    decreases |log|
  {
    if log == [] then EMPTY.buf else Append(Whole(log[..|log| - 1]), log[|log| - 1])
  }

  predicate SyncsAreFrames(log: seq<Entry>) {
    forall k :: 0 <= k < |log| && log[k].sync ==> log[k].item.FrameItem?
  }

  /** `m` is the join point that follows join point `k`. */
  ghost predicate Follows(log: seq<Entry>, k: nat, m: nat) {
    k < m < |log| && log[k].sync && log[m].sync && forall n :: k < n < m ==> !log[n].sync
  }

  /** The group from `k` to `m` has to go. */
  ghost predicate Goes(log: seq<Entry>, k: nat, m: nat, newest: Option<int>, cfg: Config) {
    && k < m < |log|
    && (Sum(log[k..]) > cfg.maxBytes || (newest.Some? && log[m].micros <= newest.value - cfg.window))
  }

  ghost predicate NoneAfter(log: seq<Entry>, k: nat) {
    forall n :: k < n < |log| ==> !log[n].sync
  }

  /** Nothing before `base` could have stayed. */
  ghost predicate Least(base: nat, log: seq<Entry>, newest: Option<int>, cfg: Config) {
    && (forall k: nat, m: nat :: Follows(log, k, m) && k < base ==> Goes(log, k, m, newest, cfg))
    && (forall k: nat :: k < base && NoneAfter(log, k) ==> OverCap(log, k, cfg))
  }

  /** What the log alone decides about a buffer. */
  ghost predicate Decided(b: Buffer, log: seq<Entry>, cfg: Config) {
    Refines(b, log) && (log != [] ==> Bounded(b, cfg)) && Least(b.base, log, b.newest, cfg)
  }

  lemma {:induction false} SumGrows(log: seq<Entry>, e: Entry, k: nat)
    requires k <= |log|
    ensures Sum((log + [e])[k..]) >= Sum(log[k..])
  {
    assert (log + [e])[k..] == log[k..] + [e];
    SumAdd(log[k..], [e]);
  }

  lemma {:induction false} SumShrinks(log: seq<Entry>, k: nat, m: nat)
    requires k <= m <= |log|
    ensures Sum(log[k..]) >= Sum(log[m..])
  {
    SumSplit(log[k..], m - k);
    assert log[k..][m - k..] == log[m..];
  }

  /** A join point in the buffer and the one after it are next to each other in `keys`. */
  lemma {:induction false} NeighbouringKeys(b: Buffer, log: seq<Entry>, k: nat, m: nat) returns (i: nat)
    requires Refines(b, log) && Follows(log, k, m) && b.base <= k
    ensures i + 1 < |b.keys| && b.keys[i] == k && b.keys[i + 1] == m && k < m < |log|
  {
    hide Sum;
    i :| 0 <= i < |b.keys| && b.keys[i] == k;
    var j :| 0 <= j < |b.keys| && b.keys[j] == m;
    assert i < j;
    assert log[b.keys[i + 1]].sync by { assert b.keys[i + 1] in b.keys; }
  }

  /** The buffer begins at a join point with a second one after it, or nothing after its first item is one. */
  lemma {:induction false} SecondKey(b: Buffer, log: seq<Entry>, cfg: Config)
    requires Refines(b, log) && Bounded(b, cfg)
    ensures |b.keys| >= 2 ==> Follows(log, b.base, b.keys[1])
    ensures |b.keys| < 2 ==> NoneAfter(log, b.base)
  {
    hide Sum;
    if |b.keys| >= 2 {
      assert b.keys[0] in b.keys && b.keys[1] in b.keys;
    }
  }

  /** What is in a bounded buffer stays: its first group does not have to go. */
  lemma {:induction false} FirstStays(b: Buffer, log: seq<Entry>, cfg: Config)
    requires log != [] && Refines(b, log) && Bounded(b, cfg)
    ensures !OverCap(log, b.base, cfg)
    ensures |b.keys| >= 2 ==> !Goes(log, b.base, b.keys[1], b.newest, cfg)
  {
    hide Sum;
  }

  /** A buffer cannot begin between a join point and the next. */
  lemma {:induction false} BeginsOutside(b: Buffer, log: seq<Entry>, cfg: Config, k: nat, m: nat)
    requires Refines(b, log) && Bounded(b, cfg) && Follows(log, k, m) && k < b.base
    ensures m <= b.base
  {
    hide Sum;
    assert m >= b.base ==> m in b.keys;
    assert b.keys != [] ==> b.keys[0] in b.keys;
  }

  /** A log decides where its buffer begins. */
  lemma {:induction false} BaseIsDecided(a: Buffer, b: Buffer, log: seq<Entry>, cfg: Config)
    requires log != [] && Decided(a, log, cfg) && Decided(b, log, cfg) && a.newest == b.newest
    ensures a.base >= b.base
  {
    hide Sum, Bounded, OverCap, Goes, Follows, NoneAfter, Refines;
    if a.base < b.base {
      SecondKey(a, log, cfg);
      FirstStays(a, log, cfg);
    }
  }

  lemma {:induction false} SameKeys(a: seq<nat>, b: seq<nat>)
    requires forall i, j :: 0 <= i < j < |a| ==> a[i] < a[j]
    requires forall i, j :: 0 <= i < j < |b| ==> b[i] < b[j]
    requires forall k :: k in a <==> k in b
    ensures a == b
    decreases |a|
  {
    assert a != [] ==> a[0] in b;
    assert b != [] ==> b[0] in a;
    if a != [] && b != [] {
      FirstIsLeast(a, b[0]);
      FirstIsLeast(b, a[0]);
      forall k
        ensures k in a[1..] <==> k in b[1..]
      {
        TailHas(a, k);
        TailHas(b, k);
      }
      SameKeys(a[1..], b[1..]);
      assert a == [a[0]] + a[1..] && b == [b[0]] + b[1..];
    }
  }

  lemma {:induction false} FirstIsLeast(a: seq<nat>, k: nat)
    requires (forall i, j :: 0 <= i < j < |a| ==> a[i] < a[j]) && k in a
    ensures a[0] <= k
  {}

  lemma {:induction false} TailHas(a: seq<nat>, k: nat)
    requires (forall i, j :: 0 <= i < j < |a| ==> a[i] < a[j]) && a != []
    ensures k in a[1..] <==> k in a && k != a[0]
  {
    assert a == [a[0]] + a[1..];
  }

  /** A log and its newest time decide the whole buffer. */
  lemma {:induction false} BufferIsDecided(a: Buffer, b: Buffer, log: seq<Entry>, cfg: Config)
    requires log != [] && Decided(a, log, cfg) && Decided(b, log, cfg) && a.newest == b.newest
    ensures a == b
  {
    hide Sum;
    BaseIsDecided(a, b, log, cfg);
    BaseIsDecided(b, a, log, cfg);
    SameKeys(a.keys, b.keys);
  }

  // ---- Every eviction keeps it decided ----

  lemma {:induction false} GoesOn(log: seq<Entry>, e: Entry, k: nat, m: nat, newest: Option<int>, later: Option<int>,
          cfg: Config)
    requires Goes(log, k, m, newest, cfg)
    requires newest.Some? ==> later.Some? && later.value >= newest.value
    ensures Goes(log + [e], k, m, later, cfg)
  {
    SumGrows(log, e, k);
    hide Sum;
  }

  lemma {:induction false} OverCapOn(log: seq<Entry>, e: Entry, k: nat, cfg: Config)
    requires OverCap(log, k, cfg)
    ensures OverCap(log + [e], k, cfg)
  {
    SumGrows(log, e, k);
  }

  /** What eviction says of its groups, in terms of the log. */
  lemma {:induction false} EvictedGroupGoes(b: Buffer, cfg: Config, log: seq<Entry>, k: nat, m: nat)
    requires Wf(b) && Refines(b, log) && b.frames != []
    requires Follows(log, k, m) && b.base <= k && m <= Evict(b, cfg).base
    ensures Goes(log, k, m, b.newest, cfg)
  {
    hide Sum, Evict, OverCap, Bounded, Follows, Wf;
    EvictKeepsTheLog(b, cfg, log);
    hide Refines;
    var i := NeighbouringKeys(b, log, k, m);
    assert MustGo(log, b.keys, i, b.newest, cfg);
  }

  lemma {:induction false} LastKeyIs(b: Buffer, log: seq<Entry>, k: nat)
    requires Wf(b) && Refines(b, log) && b.base <= k && NoneAfter(log, k)
    ensures LastKey(b) <= k
  {
    hide Sum;
    if b.keys != [] {
      assert LastKey(b) in b.keys;
    }
  }

  /** Eviction leaves a decided buffer, if what was gone before could not have stayed. */
  lemma {:induction false} EvictDecides(b: Buffer, cfg: Config, log: seq<Entry>)
    requires Wf(b) && Refines(b, log) && b.frames != [] && Least(b.base, log, b.newest, cfg)
    ensures Decided(Evict(b, cfg), log, cfg)
  {
    hide Sum, Append, Evict, OverCap, Bounded, Follows, Goes, NoneAfter, Wf, Refines;
    EvictKeepsTheLog(b, cfg, log);
    NewestStays(b, cfg);
    var c := Evict(b, cfg);
    forall k: nat, m: nat | Follows(log, k, m) && k < c.base
      ensures Goes(log, k, m, c.newest, cfg)
    {
      if b.base <= k {
        BeginsOutside(c, log, cfg, k, m);
        EvictedGroupGoes(b, cfg, log, k, m);
      }
    }
    forall k: nat | k < c.base && NoneAfter(log, k)
      ensures OverCap(log, k, cfg)
    {
      if b.base <= k {
        LastKeyIs(b, log, k);
      }
    }
  }

  lemma {:induction false} NoKeysNoGroups(b: Buffer, cfg: Config)
    requires Wf(b) && b.keys == []
    ensures Evict(b, cfg) == EvictItems(b, cfg)
  {
    hide EvictTo, EvictItems;
  }

  lemma {:induction false} NewestStays(b: Buffer, cfg: Config)
    requires Wf(b)
    ensures Evict(b, cfg).newest == b.newest
  {
    hide Evict, EvictTo, EvictGroups, EvictItems, Surplus;
    if b.keys != [] {
      EvictUnfolds(b, cfg);
      EvictToNewest(b, b.keys[0]);
      GroupsNewest(EvictTo(b, b.keys[0]), cfg);
      ItemsNewest(EvictGroups(EvictTo(b, b.keys[0]), cfg), cfg);
    } else {
      NoKeysNoGroups(b, cfg);
      ItemsNewest(b, cfg);
    }
  }

  lemma {:induction false} EvictToNewest(b: Buffer, to: nat)
    requires to <= b.End()
    ensures EvictTo(b, to).newest == b.newest
  {}

  lemma {:induction false} GroupsNewest(b: Buffer, cfg: Config)
    requires Wf(b)
    ensures EvictGroups(b, cfg).newest == b.newest
    decreases |b.keys|
  {
    hide EvictTo;
    if |b.keys| >= 2 && Surplus(b, cfg) {
      EvictToKey(b, 1);
      EvictToNewest(b, b.keys[1]);
      GroupsNewest(EvictTo(b, b.keys[1]), cfg);
    }
  }

  lemma {:induction false} ItemsNewest(b: Buffer, cfg: Config)
    requires Wf(b)
    ensures EvictItems(b, cfg).newest == b.newest
    decreases |b.frames|
  {
    hide EvictTo;
    if b.bytes > cfg.maxBytes && |b.frames| > 1 {
      EvictOne(b);
      EvictToNewest(b, b.base + 1);
      ItemsNewest(EvictTo(b, b.base + 1), cfg);
    }
  }

  /** What could not have stayed still could not once more has been pushed. */
  lemma {:induction false} LeastGrows(b: Buffer, e: Entry, cfg: Config, log: seq<Entry>, later: Option<int>)
    requires Least(b.base, log, b.newest, cfg) && b.base <= |log|
    requires b.newest.Some? ==> later.Some? && later.value >= b.newest.value
    ensures Least(b.base, log + [e], later, cfg)
  {
    var log' := log + [e];
    assert forall n :: 0 <= n < |log| ==> log'[n] == log[n];
    forall k: nat, m: nat | Follows(log', k, m) && k < b.base
      ensures Goes(log', k, m, later, cfg)
    {
      if m < |log| {
        assert Follows(log, k, m);
        GoesOn(log, e, k, m, b.newest, later, cfg);
      } else {
        assert NoneAfter(log, k);
        OverCapOn(log, e, k, cfg);
        hide Sum;
      }
    }
    forall k: nat | k < b.base && NoneAfter(log', k)
      ensures OverCap(log', k, cfg)
    {
      assert NoneAfter(log, k);
      OverCapOn(log, e, k, cfg);
    }
  }

  // ---- Runs ----

  ghost predicate DecidedLive(l: Live, cfg: Config, log: seq<Entry>) {
    && Wf(l.buf) && Decided(l.buf, log, cfg)
    && SyncsAreFrames(log) && l.buf.newest == Whole(log).newest
  }

  lemma {:induction false} ApplyDecides(l: Live, op: Op, cfg: Config, log: seq<Entry>)
    requires DecidedLive(l, cfg, log) && OpOk(op)
    ensures DecidedLive(Apply(l, op, cfg), cfg, log + Added(l, op))
  {
    hide DecidedLive, Apply, Added, Append, Evict, Decided, OverCap, Wf, OpOk, SyncsAreFrames, Whole;
    DecidedParts(l, cfg, log);
    ApplyIs(l, op, cfg);
    if Added(l, op) == [] {
      assert log + [] == log;
      DecidedWhole(Apply(l, op, cfg), cfg, log);
    } else {
      var e := Added(l, op)[0];
      assert Added(l, op) == [e];
      PushDecides(l.buf, e, cfg, log);
      WholeStep(log, e);
      SameNewest(l.buf, Whole(log), e);
      DecidedWhole(Apply(l, op, cfg), cfg, log + [e]);
    }
  }

  lemma {:induction false} DecidedParts(l: Live, cfg: Config, log: seq<Entry>)
    requires DecidedLive(l, cfg, log)
    ensures Wf(l.buf) && Decided(l.buf, log, cfg) && SyncsAreFrames(log) && l.buf.newest == Whole(log).newest
  {}

  lemma {:induction false} DecidedWhole(l: Live, cfg: Config, log: seq<Entry>)
    requires Wf(l.buf) && Decided(l.buf, log, cfg) && SyncsAreFrames(log) && l.buf.newest == Whole(log).newest
    ensures DecidedLive(l, cfg, log)
  {}

  lemma {:induction false} SameNewest(a: Buffer, b: Buffer, e: Entry)
    requires Wf(a) && Wf(b) && (e.sync ==> e.item.FrameItem?) && a.newest == b.newest
    ensures Append(a, e).newest == Append(b, e).newest
  {}

  lemma {:induction false} WholeStep(log: seq<Entry>, e: Entry)
    requires SyncsAreFrames(log) && (e.sync ==> e.item.FrameItem?)
    ensures SyncsAreFrames(log + [e]) && Whole(log + [e]) == Append(Whole(log), e)
  {
    assert (log + [e])[..|log|] == log;
    hide Append;
  }

  lemma {:induction false} PushDecides(b: Buffer, e: Entry, cfg: Config, log: seq<Entry>)
    requires Wf(b) && Decided(b, log, cfg) && (e.sync ==> e.item.FrameItem?)
    ensures Wf(Append(b, e)) && Decided(Evict(Append(b, e), cfg), log + [e], cfg)
    ensures Evict(Append(b, e), cfg).newest == Append(b, e).newest
  {
    hide Sum, Append, Evict, OverCap, Bounded, Wf, Least, Decided, Refines;
    DecidedIs(b, log, cfg);
    AppendShape(b, e);
    var a := Append(b, e);
    AppendRefines(b, e, log);
    LeastGrows(b, e, cfg, log, a.newest);
    EvictDecides(a, cfg, log + [e]);
    NewestStays(a, cfg);
  }

  lemma {:induction false} DecidedIs(b: Buffer, log: seq<Entry>, cfg: Config)
    requires Decided(b, log, cfg)
    ensures Refines(b, log) && Least(b.base, log, b.newest, cfg) && b.base <= |log|
  {
    hide Sum, Least, Bounded;
  }

  lemma {:induction false} AppendShape(b: Buffer, e: Entry)
    requires Wf(b) && (e.sync ==> e.item.FrameItem?)
    ensures var a := Append(b, e);
            && Wf(a) && a.base == b.base
            && (b.newest.Some? ==> a.newest.Some? && a.newest.value >= b.newest.value)
  {}

  lemma {:induction false} RunDecides(l: Live, ops: seq<Op>, cfg: Config, log: seq<Entry>)
    requires DecidedLive(l, cfg, log) && OpsOk(ops)
    ensures DecidedLive(ApplyAll(l, ops, cfg), cfg, log + LogOf(l, ops, cfg))
    decreases |ops|
  {
    if ops == [] {
      assert log + [] == log;
    } else {
      RunStep(l, ops, cfg);
      hide Apply, Added, Decided, OpOk, LogOf, ApplyAll, OpsOk;
      ApplyDecides(l, ops[0], cfg, log);
      hide DecidedLive, Wf;
      RunDecides(Apply(l, ops[0], cfg), ops[1..], cfg, log + Added(l, ops[0]));
      AddAssoc(log, Added(l, ops[0]), LogOf(Apply(l, ops[0], cfg), ops[1..], cfg));
    }
  }

  lemma {:induction false} WholeRefines(log: seq<Entry>)
    requires SyncsAreFrames(log)
    ensures Refines(Whole(log), log) && Whole(log).base == 0 && (log != [] ==> Whole(log).frames != [])
    decreases |log|
  {
    hide Refines, Append, Whole, Wf;
    if log == [] {
      WholeOfNothing();
    } else {
      var front, e := log[..|log| - 1], log[|log| - 1];
      assert SyncsAreFrames(front) && front + [e] == log;
      hide SyncsAreFrames;
      WholeRefines(front);
      WholeStep(front, e);
      AppendRefines(Whole(front), e, front);
      AppendShape(Whole(front), e);
    }
  }

  lemma {:induction false} WholeOfNothing()
    ensures Refines(Whole([]), []) && Whole([]).base == 0
  {}

  /**
    Evicting after every push is the same as evicting once: after any run of operations the ring is what one
    eviction of everything ever pushed would leave.
   */
  lemma {:induction false} OneEvictionWouldDo(ops: seq<Op>, cfg: Config)
    requires OpsOk(ops)
    ensures var log := LogOf(EMPTY, ops, cfg);
            && SyncsAreFrames(log)
            && ApplyAll(EMPTY, ops, cfg).buf == (if log == [] then Whole(log) else Evict(Whole(log), cfg))
  {
    var log, b := LogOf(EMPTY, ops, cfg), ApplyAll(EMPTY, ops, cfg).buf;
    RunDecides(EMPTY, ops, cfg, []);
    assert [] + log == log;
    hide ApplyAll, LogOf, Evict, Least;
    WholeRefines(log);
    if log != [] {
      assert Least(Whole(log).base, log, Whole(log).newest, cfg) by { NothingBefore(log, Whole(log).newest, cfg); }
      EvictDecides(Whole(log), cfg, log);
      NewestStays(Whole(log), cfg);
      BufferIsDecided(b, Evict(Whole(log), cfg), log, cfg);
    }
  }

  lemma {:induction false} NothingBefore(log: seq<Entry>, newest: Option<int>, cfg: Config)
    ensures Least(0, log, newest, cfg)
  {}

  // ---- Decoding from what is left ----

  predicate Picture(e: Entry) {
    e.item.FrameItem? && e.video
  }

  /** Frame `i` has a keyframe of its own track at or before it. */
  ghost predicate Started(frames: seq<Entry>, i: nat)
    requires i < |frames| && Picture(frames[i])
  {
    exists j :: 0 <= j <= i && Starts(frames[j], frames[i].item.track)
  }

  predicate Starts(e: Entry, track: nat) {
    Picture(e) && e.item.keyframe && e.item.track == track
  }

  /** No video frame in the buffer has lost the keyframe it needs. */
  ghost predicate Decodable(b: Buffer) {
    forall i :: 0 <= i < |b.frames| && Picture(b.frames[i]) ==> Started(b.frames, i)
  }

  /** The oldest video frame of its track that is left. */
  ghost predicate Oldest(frames: seq<Entry>, i: nat) {
    && i < |frames| && Picture(frames[i])
    && forall j :: 0 <= j < i && Picture(frames[j]) ==> frames[j].item.track != frames[i].item.track
  }

  /** Whatever was pushed, under whatever track lists: it is the oldest frame left of each video track that decides. */
  lemma {:induction false} DecodableByTrack(b: Buffer)
    ensures Decodable(b) <==> forall i: nat :: Oldest(b.frames, i) ==> b.frames[i].item.keyframe
  {
    if Decodable(b) {
      forall i: nat | Oldest(b.frames, i)
        ensures b.frames[i].item.keyframe
      {
        assert Started(b.frames, i);
      }
    }
    if forall i: nat :: Oldest(b.frames, i) ==> b.frames[i].item.keyframe {
      forall i | 0 <= i < |b.frames| && Picture(b.frames[i])
        ensures Started(b.frames, i)
      {
        var j := OldestOf(b.frames, i);
        assert Starts(b.frames[j], b.frames[i].item.track);
      }
    }
  }

  lemma {:induction false} OldestOf(frames: seq<Entry>, i: nat) returns (j: nat)
    requires i < |frames| && Picture(frames[i])
    ensures j <= i && Oldest(frames, j) && frames[j].item.track == frames[i].item.track
    decreases i
  {
    if k: nat :| k < i && Picture(frames[k]) && frames[k].item.track == frames[i].item.track {
      j := OldestOf(frames, k);
    } else {
      j := i;
    }
  }

  /** From here on the log is within the byte cap, or is one item. */
  ghost predicate Fits(log: seq<Entry>, k: nat, cfg: Config) {
    k < |log| && !OverCap(log, k, cfg)
  }

  ghost predicate SomeJoinFits(log: seq<Entry>, cfg: Config) {
    exists k: nat :: Fits(log, k, cfg) && log[k].sync
  }

  ghost predicate SomePictureFits(log: seq<Entry>, cfg: Config) {
    exists k: nat :: Fits(log, k, cfg) && Picture(log[k])
  }

  lemma {:induction false} FitsOn(log: seq<Entry>, k: nat, m: nat, cfg: Config)
    requires Fits(log, k, cfg) && k <= m < |log|
    ensures Fits(log, m, cfg)
  {
    SumShrinks(log, k, m);
  }

  /** After any run the ring has a join point exactly when one pushed still fits under the byte cap. */
  lemma {:induction false} KeysExactly(b: Buffer, log: seq<Entry>, cfg: Config)
    requires log != [] && Decided(b, log, cfg)
    ensures b.keys != [] <==> SomeJoinFits(log, cfg)
  {
    hide Sum;
    FirstStays(b, log, cfg);
    if b.keys != [] {
      assert b.keys[0] in b.keys;
      assert Fits(log, b.base, cfg) && log[b.base].sync;
    } else if k: nat :| Fits(log, k, cfg) && log[k].sync {
      var last := LastJoin(log, k);
      FitsOn(log, k, last, cfg);
      LeftIfLast(b, log, cfg, last);
    }
  }

  /** The last join point is left if it fits. */
  lemma {:induction false} LeftIfLast(b: Buffer, log: seq<Entry>, cfg: Config, last: nat)
    requires Decided(b, log, cfg) && last < |log| && log[last].sync && NoneAfter(log, last) && b.keys == []
    ensures OverCap(log, last, cfg)
  {
    hide Sum;
    assert last >= b.base ==> last in b.keys;
  }

  lemma {:induction false} LastJoin(log: seq<Entry>, k: nat) returns (last: nat)
    requires k < |log| && log[k].sync
    ensures k <= last < |log| && log[last].sync && NoneAfter(log, last)
    decreases |log| - k
  {
    if m: nat :| k < m < |log| && log[m].sync {
      last := LastJoin(log, m);
    } else {
      last := k;
    }
  }

  // ---- Track lists ----

  predicate Carries(tracks: seq<Track>, id: nat) {
    Find(tracks, id).Some? && Find(tracks, id).value.video
  }

  /** Frames of `id` are the only video there is, and no audio keyframe is a join point. */
  ghost predicate OnlyVideo(tracks: seq<Track>, id: nat) {
    (tracks == [] || HasVideo(tracks)) && forall x: nat :: Carries(tracks, x) ==> x == id
  }

  /** The lists have one and the same video track, or none of them has any. */
  ghost predicate Agree(lists: set<seq<Track>>) {
    || (forall list, x: nat :: list in lists ==> !Carries(list, x))
    || (exists id: nat :: AllOnly(lists, id))
  }

  ghost predicate AllOnly(lists: set<seq<Track>>, id: nat) {
    forall list :: list in lists ==> OnlyVideo(list, id)
  }

  ghost predicate Uses(ops: seq<Op>, lists: set<seq<Track>>) {
    forall i :: 0 <= i < |ops| && ops[i].OpTracks? ==> ops[i].tracks in lists
  }

  ghost predicate Listed(l: Live, lists: set<seq<Track>>) {
    (l.tracks == [] || l.tracks in lists) && l.hasVideo == HasVideo(l.tracks)
  }

  /** What the log looks like while the only video is track `id`: its keyframes are the join points. */
  ghost predicate OneTrack(log: seq<Entry>, id: nat) {
    forall k :: 0 <= k < |log| ==> Regular(log[k], id)
  }

  ghost predicate Regular(e: Entry, id: nat) {
    && (Picture(e) ==> e.item.track == id)
    && (e.sync <==> Picture(e) && e.item.keyframe)
  }

  lemma {:induction false} AddedIs(l: Live, op: Op, lists: set<seq<Track>>, cfg: Config)
    requires Wf(l.buf) && OpOk(op) && Listed(l, lists) && (op.OpTracks? ==> op.tracks in lists)
    ensures Listed(Apply(l, op, cfg), lists)
    ensures forall id: nat :: AllOnly(lists, id) ==> OneTrack(Added(l, op), id)
    ensures (forall list, x: nat :: list in lists ==> !Carries(list, x)) ==> forall e :: e in Added(l, op) ==>
      !Picture(e)
  {
    hide Evict, Append, Wf, MicrosOf, HasVideo;
    if Added(l, op) != [] && op.OpFrame? {
      var track := Find(l.tracks, op.frame.track).value;
      assert l.tracks in lists;
      assert track.video <==> Carries(l.tracks, op.frame.track);
    }
  }

  lemma {:induction false} RunIsRegular(l: Live, ops: seq<Op>, lists: set<seq<Track>>, cfg: Config)
    requires Wf(l.buf) && OpsOk(ops) && Uses(ops, lists) && Listed(l, lists)
    ensures forall id: nat :: AllOnly(lists, id) ==> OneTrack(LogOf(l, ops, cfg), id)
    ensures (forall list, x: nat :: list in lists ==> !Carries(list, x)) ==>
      forall e :: e in LogOf(l, ops, cfg) ==> !Picture(e)
    decreases |ops|
  {
    if ops != [] {
      RunStep(l, ops, cfg);
      assert Uses(ops[1..], lists);
      hide Apply, Added, LogOf, ApplyAll, OpOk, OpsOk, Wf, Carries, Regular, Picture;
      AddedIs(l, ops[0], lists, cfg);
      hide Listed;
      RunIsRegular(Apply(l, ops[0], cfg), ops[1..], lists, cfg);
    }
  }

  /**
    With one video track, a buffer with a join point begins at a keyframe of that track; one without has no keyframe.
   */
  lemma {:induction false} OneTrackDecodes(b: Buffer, log: seq<Entry>, cfg: Config, id: nat)
    requires log != [] && Decided(b, log, cfg) && OneTrack(log, id)
    ensures b.keys != [] ==> Decodable(b)
    ensures b.keys == [] ==> (Decodable(b) <==> !SomePictureFits(log, cfg))
  {
    hide Sum;
    assert forall i :: 0 <= i < |b.frames| ==> b.frames[i] == log[b.base + i] && Regular(log[b.base + i], id);
    if b.keys != [] {
      assert b.keys[0] in b.keys;
      forall i | 0 <= i < |b.frames| && Picture(b.frames[i])
        ensures Started(b.frames, i)
      {
        assert Starts(b.frames[0], b.frames[i].item.track);
      }
    } else {
      NoKeysNoStart(b, log, id);
      PicturesLeft(b, log, cfg);
    }
  }

  lemma {:induction false} NoKeysNoStart(b: Buffer, log: seq<Entry>, id: nat)
    requires Refines(b, log) && OneTrack(log, id) && b.keys == []
    ensures Decodable(b) <==> forall i :: 0 <= i < |b.frames| ==> !Picture(b.frames[i])
  {
    hide Sum;
    forall i, track | 0 <= i < |b.frames|
      ensures !Starts(b.frames[i], track)
    {
      assert Regular(log[b.base + i], id);
    }
  }

  /** Without a join point, what is left is exactly what fits. */
  lemma {:induction false} PicturesLeft(b: Buffer, log: seq<Entry>, cfg: Config)
    requires log != [] && Decided(b, log, cfg) && b.keys == []
    ensures SomePictureFits(log, cfg) <==> exists i :: 0 <= i < |b.frames| && Picture(b.frames[i])
  {
    hide Sum, Picture;
    FirstStays(b, log, cfg);
    if i :| 0 <= i < |b.frames| && Picture(b.frames[i]) {
      FitsOn(log, b.base, b.base + i, cfg);
      assert Fits(log, b.base + i, cfg) && Picture(log[b.base + i]);
    }
    if k: nat :| Fits(log, k, cfg) && Picture(log[k]) {
      if k < b.base {
        StillJoins(b, log, cfg, k);
      } else {
        assert b.frames[k - b.base] == log[k];
      }
    }
  }

  /** If an item before the buffer fits, the buffer has a join point. */
  lemma {:induction false} StillJoins(b: Buffer, log: seq<Entry>, cfg: Config, k: nat)
    requires log != [] && Decided(b, log, cfg) && k < b.base && Fits(log, k, cfg)
    ensures b.keys != []
  {
    hide Sum;
    KeysExactly(b, log, cfg);
    assert NoneAfter(log, k) ==> OverCap(log, k, cfg);
    if m: nat :| k < m < |log| && log[m].sync {
      FitsOn(log, k, m, cfg);
    }
  }

  /** After any run the ring has a join point exactly when one of those pushed still fits under the byte cap. */
  lemma {:induction false} RunKeysExactly(ops: seq<Op>, cfg: Config)
    requires OpsOk(ops)
    ensures ApplyAll(EMPTY, ops, cfg).buf.keys != [] <==> SomeJoinFits(LogOf(EMPTY, ops, cfg), cfg)
  {
    var log, b := LogOf(EMPTY, ops, cfg), ApplyAll(EMPTY, ops, cfg).buf;
    RunDecides(EMPTY, ops, cfg, []);
    assert [] + log == log;
    hide ApplyAll, LogOf, OverCap, Bounded, Least;
    if log != [] {
      KeysExactly(b, log, cfg);
    }
  }

  /**
    Which runs keep the promise that every frame left can be decoded, while the track lists agree on the video
    track: those where a join point still fits under the byte cap, or no video frame does.
   */
  lemma {:induction false} DecodableExactly(ops: seq<Op>, lists: set<seq<Track>>, cfg: Config)
    requires OpsOk(ops) && Uses(ops, lists) && Agree(lists)
    ensures var log := LogOf(EMPTY, ops, cfg);
            Decodable(ApplyAll(EMPTY, ops, cfg).buf) <==> SomeJoinFits(log, cfg) || !SomePictureFits(log, cfg)
  {
    var log, b := LogOf(EMPTY, ops, cfg), ApplyAll(EMPTY, ops, cfg).buf;
    RunDecides(EMPTY, ops, cfg, []);
    assert [] + log == log;
    hide ApplyAll, LogOf, OverCap, Carries, Bounded, Least;
    RunIsRegular(EMPTY, ops, lists, cfg);
    if log != [] {
      KeysExactly(b, log, cfg);
      if id: nat :| AllOnly(lists, id) {
        OneTrackDecodes(b, log, cfg, id);
      } else {
        NoPictures(b, log, cfg);
      }
    }
  }

  lemma {:induction false} NoPictures(b: Buffer, log: seq<Entry>, cfg: Config)
    requires Refines(b, log) && forall e :: e in log ==> !Picture(e)
    ensures Decodable(b) && !SomePictureFits(log, cfg)
  {
    hide Sum, Picture;
    assert forall i :: 0 <= i < |b.frames| ==> b.frames[i] in log;
  }

  // ---- Why the lists have to agree ----

  ghost predicate Decodes(ops: seq<Op>, cfg: Config)
    requires OpsOk(ops)
  {
    Decodable(ApplyAll(EMPTY, ops, cfg).buf)
  }

  ghost predicate HasJoin(ops: seq<Op>, cfg: Config)
    requires OpsOk(ops)
  {
    ApplyAll(EMPTY, ops, cfg).buf.keys != []
  }

  /** A keyframe under one track list, then a delta frame under another. */
  function KeyThenDelta(first: seq<Track>, key: nat, second: seq<Track>, delta: nat): (ops: seq<Op>)
    ensures OpsOk(ops)
  {
    [OpTracks(first), OpFrame(FrameItem(key, 0, true, [])), OpTracks(second), OpFrame(FrameItem(delta, 0, false, []))]
  }

  lemma {:induction false} NothingToEvict(b: Buffer, cfg: Config)
    requires Wf(b) && |b.keys| < 2 && (b.keys != [] ==> b.keys[0] == b.base) && b.bytes <= cfg.maxBytes
    ensures Evict(b, cfg) == b
  {
    DropBelowIs(b.keys, b.base, 0);
    assert b.frames[..0] == [] && b.frames[0..] == b.frames;
    assert Sum([]) == 0;
    hide Sum;
  }

  lemma {:induction false} PushEmpty(l: Live, track: nat, keyframe: bool, cfg: Config)
    requires Wf(l.buf) && !l.ended && Find(l.tracks, track).Some?
    requires l.buf.keys == [] || (l.buf.keys == [l.buf.base] && !keyframe)
    requires l.buf.keys == [] ==> l.buf.frames == []
    requires l.buf.bytes <= cfg.maxBytes
    ensures var e := FrameEntry(FrameItem(track, 0, keyframe, []), Find(l.tracks, track).value, l.hasVideo);
            Apply(l, OpFrame(FrameItem(track, 0, keyframe, [])), cfg) == l.(buf := Append(l.buf, e))
  {
    var e := FrameEntry(FrameItem(track, 0, keyframe, []), Find(l.tracks, track).value, l.hasVideo);
    assert Added(l, OpFrame(FrameItem(track, 0, keyframe, []))) == [e];
    assert Append(l.buf, e).bytes == l.buf.bytes;
    NothingToEvict(Append(l.buf, e), cfg);
    hide Evict;
  }

  lemma {:induction false} AfterTracks(l: Live, tracks: seq<Track>, cfg: Config)
    requires Wf(l.buf) && !l.ended && l.hasVideo == HasVideo(l.tracks)
    ensures var n := Apply(l, OpTracks(tracks), cfg);
            n == l.(tracks := tracks, hasVideo := HasVideo(tracks), version := n.version)
  {
    hide HasVideo, Wf;
  }

  lemma {:induction false} FirstEntry(e: Entry)
    requires e.sync && e.item.FrameItem? && e.item.data == []
    ensures Append(EMPTY.buf, e) == Buffer([e], 0, [0], 0, Some(e.micros))
  {
    assert EMPTY.buf.frames + [e] == [e];
  }

  lemma {:induction false} AfterKey(tracks: seq<Track>, key: nat, cfg: Config) returns (l: Live, e: Entry)
    requires Find(tracks, key).Some? && (Carries(tracks, key) || !HasVideo(tracks))
    ensures l == Apply(Apply(EMPTY, OpTracks(tracks), cfg), OpFrame(FrameItem(key, 0, true, [])), cfg)
    ensures l.buf == Buffer([e], 0, [0], 0, Some(e.micros)) && l.tracks == tracks && l.hasVideo == HasVideo(tracks)
      && !l.ended
    ensures e == FrameEntry(FrameItem(key, 0, true, []), Find(tracks, key).value, HasVideo(tracks))
  {
    hide Evict, HasVideo, MicrosOf, Apply, Find, Append;
    NoVideoYet();
    AfterTracks(EMPTY, tracks, cfg);
    var l1 := Apply(EMPTY, OpTracks(tracks), cfg);
    e := FrameEntry(FrameItem(key, 0, true, []), Find(tracks, key).value, HasVideo(tracks));
    PushEmpty(l1, key, true, cfg);
    FirstEntry(e);
    l := Apply(l1, OpFrame(FrameItem(key, 0, true, [])), cfg);
  }

  lemma {:induction false} NoVideoYet()
    ensures EMPTY.hasVideo == HasVideo(EMPTY.tracks)
  {}

  lemma {:induction false} AfterDelta(l: Live, e: Entry, tracks: seq<Track>, delta: nat, cfg: Config)
    requires !l.ended && l.buf == Buffer([e], 0, [0], 0, Some(e.micros)) && l.hasVideo == HasVideo(l.tracks)
    requires Find(tracks, delta).Some?
    ensures var buf := Apply(Apply(l, OpTracks(tracks), cfg), OpFrame(FrameItem(delta, 0, false, [])), cfg).buf;
            && buf.frames == [e, FrameEntry(FrameItem(delta, 0, false, []), Find(tracks, delta).value,
               HasVideo(tracks))]
            && buf.keys == [0]
  {
    hide Evict, HasVideo, MicrosOf, Apply, Find;
    AfterTracks(l, tracks, cfg);
    PushEmpty(Apply(l, OpTracks(tracks), cfg), delta, false, cfg);
  }

  /** The delta frame is left, the join point is left, and the join point is of no use to it. */
  lemma {:induction false} KeyThenDeltaFails(first: seq<Track>, key: nat, second: seq<Track>, delta: nat, cfg: Config)
    requires Find(first, key).Some? && (Carries(first, key) || !HasVideo(first))
    requires Carries(second, delta) && (Carries(first, key) ==> delta != key)
    ensures HasJoin(KeyThenDelta(first, key, second, delta), cfg)
    ensures !Decodes(KeyThenDelta(first, key, second, delta), cfg)
  {
    hide Apply, ApplyAll, Find, HasVideo;
    var ops := KeyThenDelta(first, key, second, delta);
    FourSteps(ops, cfg);
    var l, e := AfterKey(first, key, cfg);
    AfterDelta(l, e, second, delta, cfg);
    var b := ApplyAll(EMPTY, ops, cfg).buf;
    assert Picture(b.frames[1]) && !Started(b.frames, 1);
  }

  lemma {:induction false} FourSteps(ops: seq<Op>, cfg: Config)
    requires OpsOk(ops) && |ops| == 4
    ensures var l2 := Apply(Apply(EMPTY, ops[0], cfg), ops[1], cfg);
            ApplyAll(EMPTY, ops, cfg) == Apply(Apply(l2, ops[2], cfg), ops[3], cfg)
  {
    hide Apply;
    var l1 := Apply(EMPTY, ops[0], cfg);
    var l2 := Apply(l1, ops[1], cfg);
    var l3 := Apply(l2, ops[2], cfg);
    assert ops[1..][1..] == ops[2..] && ops[2..][1..] == ops[3..] && ops[3..][1..] == [];
    assert ApplyAll(l3, ops[3..], cfg) == Apply(l3, ops[3], cfg);
    assert ApplyAll(l2, ops[2..], cfg) == ApplyAll(l3, ops[3..], cfg);
    assert ApplyAll(l1, ops[1..], cfg) == ApplyAll(l2, ops[2..], cfg);
  }

  /**
    The condition on the track lists is exact too: they agree on the video track if and only if every run that
    sets no other lists, and still has a join point, can decode every video frame left.
   */
  lemma {:induction false} ListsMustAgree(lists: set<seq<Track>>, cfg: Config)
    ensures Agree(lists) <==> forall ops :: OpsOk(ops) && Uses(ops, lists) && HasJoin(ops, cfg) ==> Decodes(ops, cfg)
  {
    hide HasVideo, Find;
    if Agree(lists) {
      forall ops | OpsOk(ops) && Uses(ops, lists) && HasJoin(ops, cfg)
        ensures Decodes(ops, cfg)
      {
        RunKeysExactly(ops, cfg);
        DecodableExactly(ops, lists, cfg);
      }
    } else {
      var list: seq<Track>, v: nat :| list in lists && Carries(list, v);
      assert !AllOnly(lists, v);
      var other: seq<Track> :| other in lists && !OnlyVideo(other, v);
      if x: nat :| Carries(other, x) && x != v {
        VideoIsVideo(list, v);
        KeyThenDeltaFails(list, v, other, x, cfg);
        assert Uses(KeyThenDelta(list, v, other, x), lists);
      } else {
        FindFirst(other);
        KeyThenDeltaFails(other, other[0].id, list, v, cfg);
        assert Uses(KeyThenDelta(other, other[0].id, list, v), lists);
      }
    }
  }

  lemma {:induction false} VideoIsVideo(tracks: seq<Track>, id: nat)
    requires Carries(tracks, id)
    ensures HasVideo(tracks)
  {
    assert Find(tracks, id).value in tracks;
  }

  lemma {:induction false} FindFirst(tracks: seq<Track>)
    requires tracks != []
    ensures Find(tracks, tracks[0].id).Some?
    ensures !HasVideo(tracks) ==> !Carries(tracks, tracks[0].id)
  {}

  lemma {:induction false} PushIs(l: Live, f: Item, t: Track, cfg: Config)
    requires Wf(l.buf) && !l.ended && f.FrameItem? && Find(l.tracks, f.track) == Some(t)
    ensures Apply(l, OpFrame(f), cfg) == l.(buf := Evict(Append(l.buf, FrameEntry(f, t, l.hasVideo)), cfg))
  {
    hide Evict, Append, FrameEntry, Wf;
  }

  lemma {:induction false} TwoPushes(key: Entry, delta: Entry, cfg: Config)
    requires key == Entry(FrameItem(0, 0, true, [1, 1]), 0, true, true)
    requires delta == Entry(FrameItem(0, 1, false, [2, 2]), 1, false, true) && cfg == Config(1000, 3)
    ensures Wf(EMPTY.buf) && Wf(Evict(Append(EMPTY.buf, key), cfg))
    ensures var b := Evict(Append(Evict(Append(EMPTY.buf, key), cfg), delta), cfg); b.frames == [delta] && b.keys == []
  {
    hide Evict;
    var b := Append(EMPTY.buf, key);
    assert b == Buffer([key], 0, [0], 2, Some(0));
    NothingToEvict(b, cfg);
    assert Append(b, delta) == Buffer([key, delta], 0, [0], 4, Some(1));
    LargeGroupLosesItsKey();
  }

  /** One video track, and a group over the byte cap: after this run the delta frame is left without its keyframe. */
  lemma {:induction false} LargeGroupFails()
    ensures var ops := [OpTracks([Track(0, true, 1_000_000, [])]), OpFrame(FrameItem(0, 0, true, [1, 1])),
                        OpFrame(FrameItem(0, 1, false, [2, 2]))];
            OpsOk(ops) && !HasJoin(ops, Config(1000, 3)) && !Decodes(ops, Config(1000, 3))
  {
    hide HasVideo, Find, MicrosOf, Evict, Append, Apply, FrameEntry, ApplyAll, Decodable, Wf;
    var track, cfg := Track(0, true, 1_000_000, []), Config(1000, 3);
    var first, second := FrameItem(0, 0, true, [1, 1]), FrameItem(0, 1, false, [2, 2]);
    var ops := [OpTracks([track]), OpFrame(first), OpFrame(second)];
    OneVideoTrack(track);
    EntriesAre(track, first, second);
    var key, delta := FrameEntry(first, track, true), FrameEntry(second, track, true);
    NoVideoYet();
    TwoPushes(key, delta, cfg);
    AfterTracks(EMPTY, [track], cfg);
    var l1 := Apply(EMPTY, ops[0], cfg);
    PushIs(l1, first, track, cfg);
    var l2 := Apply(l1, ops[1], cfg);
    PushIs(l2, second, track, cfg);
    ThreeSteps(ops, cfg);
    AloneFails(ApplyAll(EMPTY, ops, cfg).buf, delta);
  }

  lemma {:induction false} OneVideoTrack(t: Track)
    requires t.video
    ensures HasVideo([t]) && Find([t], t.id) == Some(t)
  {
    assert t in [t];
  }

  lemma {:induction false} EntriesAre(t: Track, first: Item, second: Item)
    requires t == Track(0, true, 1_000_000, [])
    requires first == FrameItem(0, 0, true, [1, 1]) && second == FrameItem(0, 1, false, [2, 2])
    ensures FrameEntry(first, t, true) == Entry(first, 0, true, true)
    ensures FrameEntry(second, t, true) == Entry(second, 1, false, true)
  {}

  lemma {:induction false} AloneFails(b: Buffer, e: Entry)
    requires b.frames == [e] && Picture(e) && !e.item.keyframe
    ensures !Decodable(b)
  {
    assert !Started(b.frames, 0);
  }

  lemma {:induction false} ThreeSteps(ops: seq<Op>, cfg: Config)
    requires OpsOk(ops) && |ops| == 3
    ensures ApplyAll(EMPTY, ops, cfg) == Apply(Apply(Apply(EMPTY, ops[0], cfg), ops[1], cfg), ops[2], cfg)
  {
    hide Apply;
    var l1 := Apply(EMPTY, ops[0], cfg);
    var l2 := Apply(l1, ops[1], cfg);
    assert ops[1..][1..] == ops[2..] && ops[2..][1..] == [];
    assert ApplyAll(l2, ops[2..], cfg) == Apply(l2, ops[2], cfg);
    assert ApplyAll(l1, ops[1..], cfg) == ApplyAll(l2, ops[2..], cfg);
  }
}
