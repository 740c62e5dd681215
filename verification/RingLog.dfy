/** The ring is the end of an append-only log, bounded by age and bytes, and evicts nothing it could keep. */
module RingLog {
  import opened Util
  import opened Fmp4
  import opened Ring

  /** The buffer holds the log from `base` on, its exact size, and exactly its join points. */
  ghost predicate Refines(b: Buffer, log: seq<Entry>) {
    && b.End() == |log| && b.frames == log[b.base..]
    && b.bytes == Sum(log[b.base..])
    && KeysInside(b)
    && (forall k :: b.base <= k < |log| ==> (log[k].sync <==> k in b.keys))
    && (b.newest.None? ==> b.keys == [])
  }

  /** What holds after every push. */
  ghost predicate Bounded(b: Buffer, cfg: Config) {
    && KeysInside(b) && (b.newest.None? ==> b.keys == [])
    && (b.bytes <= cfg.maxBytes || |b.frames| == 1)
    && (b.keys != [] ==> b.keys[0] == b.base)
    && (|b.keys| >= 2 ==> b.frames[b.keys[1] - b.base].micros > b.newest.value - cfg.window)
  }

  /**
    The group of the `i`th join point had to go: too many bytes from there on, or the next join point is old enough.
   */
  ghost predicate MustGo(log: seq<Entry>, keys: seq<nat>, i: nat, newest: Option<int>, cfg: Config) {
    && i + 1 < |keys| && keys[i] < |log| && keys[i + 1] < |log| && newest.Some?
    && (Sum(log[keys[i]..]) > cfg.maxBytes || log[keys[i + 1]].micros <= newest.value - cfg.window)
  }

  /** The items from `k` on are more than one, and more bytes than the cap. */
  ghost predicate OverCap(log: seq<Entry>, k: nat, cfg: Config) {
    k + 1 < |log| && Sum(log[k..]) > cfg.maxBytes
  }

  // ---- One eviction ----

  lemma {:induction false} SumAdd(a: seq<Entry>, b: seq<Entry>)
    ensures Sum(a + b) == Sum(a) + Sum(b)
    decreases |a|
  {
    if a == [] {
      assert a + b == b;
    } else {
      SumAdd(a[1..], b);
      assert (a + b)[1..] == a[1..] + b;
    }
  }

  lemma {:induction false} SumSplit(s: seq<Entry>, n: nat)
    requires n <= |s|
    ensures Sum(s) == Sum(s[..n]) + Sum(s[n..])
  {
    SumAdd(s[..n], s[n..]);
    assert s == s[..n] + s[n..];
  }

  lemma {:induction false} EvictToRefines(b: Buffer, to: nat, log: seq<Entry>, n: nat)
    requires Refines(b, log) && b.base <= to <= |log| && n <= |b.keys|
    requires forall i :: 0 <= i < n ==> b.keys[i] < to
    requires forall i :: n <= i < |b.keys| ==> b.keys[i] >= to
    ensures Refines(EvictTo(b, to), log) && EvictTo(b, to).base == to && EvictTo(b, to).keys == b.keys[n..]
    ensures EvictTo(b, to).newest == b.newest && Wf(EvictTo(b, to))
  {
    hide Sum, DropBelow, EvictTo;
    EvictToIs(b, to, log, n);
    var e := EvictTo(b, to);
    SuffixInside(b, n, to);
    forall k | to <= k < |log|
      ensures log[k].sync <==> k in e.keys
    {
      SuffixHas(b.keys, n, to, k);
    }
  }

  lemma {:induction false} SuffixInside(b: Buffer, n: nat, to: nat)
    requires KeysInside(b) && n <= |b.keys|
    requires forall i :: n <= i < |b.keys| ==> b.keys[i] >= to
    ensures var k := b.keys[n..];
            && (forall i, j :: 0 <= i < j < |k| ==> k[i] < k[j])
            && (forall i :: 0 <= i < |k| ==> to <= k[i] < b.End())
  {}

  lemma {:induction false} EvictToIs(b: Buffer, to: nat, log: seq<Entry>, n: nat)
    requires b.End() == |log| && b.frames == log[b.base..] && b.bytes == Sum(log[b.base..])
    requires b.base <= to <= |log| && n <= |b.keys|
    requires forall i :: 0 <= i < n ==> b.keys[i] < to
    requires forall i :: n <= i < |b.keys| ==> b.keys[i] >= to
    ensures EvictTo(b, to) == Buffer(log[to..], to, b.keys[n..], Sum(log[to..]), b.newest)
  {
    DropBelowIs(b.keys, to, n);
    SumSplit(b.frames, to - b.base);
    assert b.frames[to - b.base..] == log[to..];
    hide Sum, DropBelow;
  }

  lemma {:induction false} SuffixHas(keys: seq<nat>, n: nat, to: nat, k: nat)
    requires n <= |keys| && k >= to
    requires forall i :: 0 <= i < n ==> keys[i] < to
    ensures k in keys <==> k in keys[n..]
  {
    if k in keys {
      var i :| 0 <= i < |keys| && keys[i] == k;
      assert k == keys[n..][i - n];
    }
  }

  lemma {:induction false} GroupStep(b: Buffer, cfg: Config, log: seq<Entry>)
    requires Refines(b, log) && |b.keys| >= 2 && b.keys[0] == b.base && Surplus(b, cfg)
    ensures var c := EvictTo(b, b.keys[1]);
            && Wf(c) && EvictGroups(b, cfg) == EvictGroups(c, cfg)
            && Refines(c, log) && c.keys == b.keys[1..] && c.base == b.keys[1] && c.newest == b.newest
    ensures MustGo(log, b.keys, 0, b.newest, cfg)
  {
    hide Sum, EvictTo;
    EvictToRefines(b, b.keys[1], log, 1);
  }

  lemma {:induction false} GroupsDone(b: Buffer, cfg: Config, log: seq<Entry>)
    requires Refines(b, log) && b.keys != [] && b.keys[0] == b.base && (|b.keys| >= 2 ==> !Surplus(b, cfg))
    ensures EvictGroups(b, cfg) == b && (|b.keys| >= 2 ==> Bounded(b, cfg)) && b.frames != []
  {
    hide Sum, EvictTo;
  }

  /** Whole groups go while they must. */
  lemma {:induction false} GroupsGone(b: Buffer, cfg: Config, log: seq<Entry>) returns (j: nat)
    requires Wf(b) && Refines(b, log) && b.keys != [] && b.keys[0] == b.base
    ensures var e := EvictGroups(b, cfg);
            && j < |b.keys| && e.keys == b.keys[j..] && e.base == b.keys[j] && e.newest == b.newest
            && Refines(e, log) && (|e.keys| >= 2 ==> Bounded(e, cfg)) && e.frames != []
    ensures forall i :: 0 <= i < j ==> MustGo(log, b.keys, i, b.newest, cfg)
    decreases |b.keys|
  {
    hide Sum, EvictTo, EvictGroups, Refines, Surplus, Bounded, MustGo;
    if |b.keys| >= 2 && Surplus(b, cfg) {
      GroupStep(b, cfg, log);
      var c := EvictTo(b, b.keys[1]);
      hide KeysInside;
      var j' := GroupsGone(c, cfg, log);
      j := j' + 1;
      forall i | 0 <= i < j
        ensures MustGo(log, b.keys, i, b.newest, cfg)
      {
        if i > 0 {
          LaterMustGo(log, b.keys, i, b.newest, cfg);
        }
      }
    } else {
      GroupsDone(b, cfg, log);
      j := 0;
    }
  }

  lemma {:induction false} LaterMustGo(log: seq<Entry>, keys: seq<nat>, i: nat, newest: Option<int>, cfg: Config)
    requires 1 <= i && i + 1 < |keys|
    ensures MustGo(log, keys[1..], i - 1, newest, cfg) <==> MustGo(log, keys, i, newest, cfg)
  {
    assert keys[1..][i - 1] == keys[i] && keys[1..][i] == keys[i + 1];
  }

  lemma {:induction false} ItemStep(b: Buffer, cfg: Config, log: seq<Entry>)
    requires Refines(b, log) && |b.keys| < 2 && (b.keys != [] ==> b.keys[0] == b.base)
    requires b.bytes > cfg.maxBytes && |b.frames| > 1
    ensures var c := EvictTo(b, b.base + 1);
            && Wf(c) && EvictItems(b, cfg) == EvictItems(c, cfg)
            && Refines(c, log) && c.keys == [] && c.base == b.base + 1 && c.newest == b.newest
            && c.frames == b.frames[1..]
    ensures OverCap(log, b.base, cfg)
  {
    hide Sum, EvictTo;
    EvictToRefines(b, b.base + 1, log, |b.keys|);
    EvictOne(b);
  }

  lemma {:induction false} ItemsDone(b: Buffer, cfg: Config, log: seq<Entry>)
    requires Refines(b, log) && |b.keys| < 2 && (b.keys != [] ==> b.keys[0] == b.base) && b.frames != []
    requires b.bytes <= cfg.maxBytes || |b.frames| == 1
    ensures EvictItems(b, cfg) == b && Bounded(b, cfg)
  {
    hide Sum, EvictTo;
  }

  /** Without a second join point, items go while the bytes are over the cap. */
  lemma {:induction false} ItemsGone(b: Buffer, cfg: Config, log: seq<Entry>)
    requires Wf(b) && Refines(b, log) && |b.keys| < 2 && (b.keys != [] ==> b.keys[0] == b.base) && b.frames != []
    ensures var e := EvictItems(b, cfg);
            && Refines(e, log) && Bounded(e, cfg) && b.base <= e.base
            && e.keys == (if e.base == b.base then b.keys else [])
            && forall k :: b.base <= k < e.base ==> OverCap(log, k, cfg)
    decreases |b.frames|
  {
    hide Sum, EvictTo, EvictItems, Refines, Bounded, OverCap;
    if b.bytes > cfg.maxBytes && |b.frames| > 1 {
      ItemStep(b, cfg, log);
      ItemsGone(EvictTo(b, b.base + 1), cfg, log);
    } else {
      ItemsDone(b, cfg, log);
    }
  }

  lemma {:induction false} FirstKept(b: Buffer, log: seq<Entry>)
    requires Wf(b) && Refines(b, log) && b.keys != []
    ensures var c := EvictTo(b, b.keys[0]);
            Wf(c) && Refines(c, log) && c.base == b.keys[0] && c.keys == b.keys && c.newest == b.newest
              && c.frames != []
  {
    assert b.keys[0] < |log|;
    EvictToRefines(b, b.keys[0], log, 0);
    assert EvictTo(b, b.keys[0]).frames == log[b.keys[0]..];
  }

  /** Eviction from the join point of the `j`th group, and if that group is the last, perhaps further. */
  lemma {:induction false} GroupsThenItems(b: Buffer, cfg: Config, log: seq<Entry>) returns (j: nat)
    requires Wf(b) && Refines(b, log) && b.keys != []
    ensures var e := Evict(b, cfg);
            && j < |b.keys| && b.base <= b.keys[j] <= e.base && Refines(e, log) && Bounded(e, cfg)
            && (if e.base == b.keys[j] then e.keys == b.keys[j..]
                 else e.keys == [] && j == |b.keys| - 1 && e.base > b.keys[j])
            && forall k :: b.keys[j] <= k < e.base ==> OverCap(log, k, cfg)
    ensures forall i :: 0 <= i < j ==> MustGo(log, b.keys, i, b.newest, cfg)
  {
    hide Sum, Evict, EvictTo, EvictItems, EvictGroups, MustGo, OverCap, Refines, Bounded, Wf, KeysInside;
    FirstKept(b, log);
    EvictUnfolds(b, cfg);
    var b1 := EvictTo(b, b.keys[0]);
    var b2 := EvictGroups(b1, cfg);
    j := GroupsGone(b1, cfg, log);
    KeyInside(b, j);
    if |b2.keys| < 2 {
      ItemsGone(b2, cfg, log);
    }
  }

  lemma {:induction false} KeyInside(b: Buffer, j: nat)
    requires Wf(b) && j < |b.keys|
    ensures b.base <= b.keys[j] < b.End()
  {}

  lemma {:induction false} KeyOrder(b: Buffer, i: nat, j: nat)
    requires Wf(b) && i < |b.keys| && j < |b.keys|
    ensures b.keys[i] <= b.keys[j] <==> i <= j
  {}

  lemma {:induction false} EvictUnfolds(b: Buffer, cfg: Config)
    requires Wf(b) && b.keys != []
    ensures Wf(EvictTo(b, b.keys[0]))
    ensures var b2 := EvictGroups(EvictTo(b, b.keys[0]), cfg);
            Evict(b, cfg) == if |b2.keys| < 2 then EvictItems(b2, cfg) else b2
  {
    hide EvictTo, EvictGroups, EvictItems, Wf;
    EvictToKey(b, 0);
  }

  /**
    Every eviction: the log is still refined, the bounds hold, and nothing went that could have stayed:
    each group gone had to go, and from the last join point on each item gone was over the cap.
   */
  lemma {:induction false} EvictKeepsTheLog(b: Buffer, cfg: Config, log: seq<Entry>)
    requires Wf(b) && Refines(b, log) && b.frames != []
    ensures var e := Evict(b, cfg);
            && Refines(e, log) && Bounded(e, cfg)
            && (forall i :: 0 <= i < |b.keys| - 1 && b.keys[i + 1] <= e.base ==> MustGo(log, b.keys, i, b.newest, cfg))
            && (forall k :: LastKey(b) <= k < e.base ==> OverCap(log, k, cfg))
            && (b.keys != [] ==> (e.keys == [] <==> e.base > LastKey(b)))
            && b.base <= e.base
  {
    var e := Evict(b, cfg);
    if b.keys == [] {
      assert e == EvictItems(b, cfg);
      hide Sum, Evict, EvictTo, EvictItems, EvictGroups, MustGo, OverCap, Refines, Bounded;
      ItemsGone(b, cfg, log);
    } else {
      hide Sum, Evict, MustGo, OverCap, Refines, Bounded, Wf, KeysInside;
      var j := GroupsThenItems(b, cfg, log);
      forall i | 0 <= i < |b.keys| - 1 && b.keys[i + 1] <= e.base
        ensures MustGo(log, b.keys, i, b.newest, cfg)
      {
        GroupGone(b, log, cfg, i, j, e.base);
      }
      KeyOrder(b, j, |b.keys| - 1);
    }
  }

  lemma {:induction false} GroupGone(b: Buffer, log: seq<Entry>, cfg: Config, i: nat, j: nat, base: nat)
    requires Wf(b) && i + 1 < |b.keys| && j < |b.keys| && b.keys[i + 1] <= base
    requires base == b.keys[j] || j == |b.keys| - 1
    requires forall i :: 0 <= i < j ==> MustGo(log, b.keys, i, b.newest, cfg)
    ensures MustGo(log, b.keys, i, b.newest, cfg)
  {
    hide MustGo;
    KeyOrder(b, i + 1, j);
  }

  /** The newest join point, or where the buffer begins if there is none. */
  function LastKey(b: Buffer): nat {
    if b.keys == [] then b.base else b.keys[|b.keys| - 1]
  }

  /**
    One eviction leaves no join point exactly when there was none, or when the newest group alone is over the byte
    cap.
   */
  lemma {:induction false} KeysLostExactly(b: Buffer, cfg: Config, log: seq<Entry>)
    requires Wf(b) && Refines(b, log) && b.frames != []
    ensures Evict(b, cfg).keys == [] <==> b.keys == [] || OverCap(log, LastKey(b), cfg)
  {
    hide Evict, MustGo, Sum;
    var e, last := Evict(b, cfg), LastKey(b);
    EvictKeepsTheLog(b, cfg, log);
    assert e.keys != [] ==> log[e.keys[0]].sync && e.keys[0] in b.keys;
    if e.base <= last {
      SumSplit(log[e.base..], last - e.base);
      assert log[e.base..][last - e.base..] == log[last..];
    }
  }

  /** Then what is left cannot be decoded: a keyframe and a frame of two bytes each, under a cap of three. */
  lemma {:induction false} LargeGroupLosesItsKey()
    ensures var key, delta := Entry(FrameItem(0, 0, true, [1, 1]), 0, true, true),
      Entry(FrameItem(0, 1, false, [2, 2]), 1, false, true);
            var b := Buffer([key, delta], 0, [0], 4, Some(1));
            && Wf(b) && Evict(b, Config(1000, 3)).keys == [] && Evict(b, Config(1000, 3)).frames == [delta]
  {
    var key, delta := Entry(FrameItem(0, 0, true, [1, 1]), 0, true, true),
      Entry(FrameItem(0, 1, false, [2, 2]), 1, false, true);
    var b, cfg := Buffer([key, delta], 0, [0], 4, Some(1)), Config(1000, 3);
    assert Sum([key]) == 2 by { assert [key][1..] == []; }
    assert b.frames[..1] == [key] && b.frames[..0] == [];
    assert EvictTo(b, 0) == b && EvictTo(b, 1) == Buffer([delta], 1, [], 2, Some(1));
    assert EvictGroups(b, cfg) == b && EvictItems(EvictTo(b, 1), cfg) == EvictTo(b, 1);
    EvictOne(b);
  }

  lemma {:induction false} AppendRefines(b: Buffer, e: Entry, log: seq<Entry>)
    requires Wf(b) && Refines(b, log) && (e.sync ==> e.item.FrameItem?)
    ensures Refines(Append(b, e), log + [e]) && Append(b, e).frames != []
  {
    var a := Append(b, e);
    assert (log + [e])[b.base..] == log[b.base..] + [e];
    SumAdd(log[b.base..], [e]);
    assert a.End() == |log + [e]| && a.frames == (log + [e])[a.base..] && a.bytes == Sum((log + [e])[a.base..]);
    assert a.keys == if e.sync then b.keys + [|log|] else b.keys;
    assert Wf(a);
    hide Append, Sum;
  }

  // ---- Runs ----

  predicate OpsOk(ops: seq<Op>) {
    forall i :: 0 <= i < |ops| ==> OpOk(ops[i])
  }

  function ApplyAll(l: Live, ops: seq<Op>, cfg: Config): (n: Live)
    requires Wf(l.buf) && OpsOk(ops)
    ensures Wf(n.buf)
    decreases |ops|
  {
    if ops == [] then l else ApplyAll(Apply(l, ops[0], cfg), ops[1..], cfg)
  }

  /** Everything the operations push, in order. */
  function LogOf(l: Live, ops: seq<Op>, cfg: Config): seq<Entry>
    requires Wf(l.buf) && OpsOk(ops)
    decreases |ops|
  {
    if ops == [] then [] else Added(l, ops[0]) + LogOf(Apply(l, ops[0], cfg), ops[1..], cfg)
  }

  /** The log so far, and the bounds once anything has been pushed. */
  ghost predicate Holds(l: Live, cfg: Config, log: seq<Entry>) {
    Wf(l.buf) && Refines(l.buf, log) && (log != [] ==> Bounded(l.buf, cfg))
  }

  lemma {:induction false} ApplyHolds(l: Live, op: Op, cfg: Config, log: seq<Entry>)
    requires Holds(l, cfg, log) && OpOk(op)
    ensures Holds(Apply(l, op, cfg), cfg, log + Added(l, op))
    ensures l.ended ==> Apply(l, op, cfg) == l && Added(l, op) == []
    ensures l.buf.base <= Apply(l, op, cfg).buf.base
  {
    ApplyIs(l, op, cfg);
    assert Added(l, op) != [] ==> Append(l.buf, Added(l, op)[0]).base == l.buf.base;
    hide Apply, Added, Append, Evict, Refines, Bounded, MustGo, OverCap, Wf, OpOk;
    if Added(l, op) == [] {
      assert log + [] == log;
    } else {
      var e := Added(l, op)[0];
      assert Added(l, op) == [e];
      AppendRefines(l.buf, e, log);
      EvictKeepsTheLog(Append(l.buf, e), cfg, log + [e]);
    }
  }

  lemma {:induction false} ApplyIs(l: Live, op: Op, cfg: Config)
    requires Wf(l.buf) && OpOk(op)
    ensures var added := Added(l, op);
            && Apply(l, op, cfg).buf == (if added == [] then l.buf else Evict(Append(l.buf, added[0]), cfg))
            && (l.ended ==> Apply(l, op, cfg) == l && added == [])
  {
    hide Evict, Append, Wf, Find, HasVideo, FrameEntry, CueEntry;
  }

  /** After any run of operations, the ring is the end of the log of what was pushed, within its bounds. */
  lemma {:induction false} RunHolds(l: Live, ops: seq<Op>, cfg: Config, log: seq<Entry>)
    requires Holds(l, cfg, log) && OpsOk(ops)
    ensures Holds(ApplyAll(l, ops, cfg), cfg, log + LogOf(l, ops, cfg))
    decreases |ops|
  {
    if ops == [] {
      assert log + [] == log;
    } else {
      RunStep(l, ops, cfg);
      hide Apply, Added, Refines, Bounded, OpOk, LogOf, ApplyAll, OpsOk;
      ApplyHolds(l, ops[0], cfg, log);
      hide Holds, Wf;
      RunHolds(Apply(l, ops[0], cfg), ops[1..], cfg, log + Added(l, ops[0]));
      AddAssoc(log, Added(l, ops[0]), LogOf(Apply(l, ops[0], cfg), ops[1..], cfg));
    }
  }

  lemma {:induction false} RunStep(l: Live, ops: seq<Op>, cfg: Config)
    requires Wf(l.buf) && OpsOk(ops) && ops != []
    ensures OpOk(ops[0]) && OpsOk(ops[1..])
    ensures LogOf(l, ops, cfg) == Added(l, ops[0]) + LogOf(Apply(l, ops[0], cfg), ops[1..], cfg)
    ensures ApplyAll(l, ops, cfg) == ApplyAll(Apply(l, ops[0], cfg), ops[1..], cfg)
  {
    hide Apply, Added, Wf, OpOk;
  }

  lemma {:induction false} StreamHolds(ops: seq<Op>, cfg: Config)
    requires OpsOk(ops)
    ensures Holds(ApplyAll(EMPTY, ops, cfg), cfg, LogOf(EMPTY, ops, cfg))
  {
    hide Holds, ApplyAll, LogOf, OpsOk, Wf;
    EmptyHolds(cfg);
    RunHolds(EMPTY, ops, cfg, []);
    assert [] + LogOf(EMPTY, ops, cfg) == LogOf(EMPTY, ops, cfg);
  }

  lemma {:induction false} EmptyHolds(cfg: Config)
    ensures Wf(EMPTY.buf) && Holds(EMPTY, cfg, [])
  {}
}
