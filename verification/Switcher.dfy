/** Which source is on air: a decision over the sources' health, tick by tick. */
module Switcher {
  import opened Util

  datatype Reason = Started | Silent | Recovered

  datatype Decision = Decision(source: nat, reason: Reason)

  /** `since[i]`: the start of the unbroken health of source `i`. */
  datatype State = State(hold: nat, since: seq<Option<int>>, active: Option<nat>, preferred: Option<nat>)

  function Rank(preferred: Option<nat>, i: nat): nat {
    if preferred == Some(i) then 0 else i + 1
  }

  /** Configuration order, with the preferred source before all others. */
  lemma {:induction false} RankIsTheOrder(preferred: Option<nat>, i: nat, j: nat)
    ensures Rank(preferred, i) < Rank(preferred, j) <==>
      i != j && preferred != Some(j) && (preferred == Some(i) || i < j)
  {}

  function Observed(since: Option<int>, now: int, ok: bool): Option<int> {
    if !ok then None else if since.None? then Some(now) else since
  }

  function Observe(s: State, now: int, healthy: seq<bool>): State {
    s.(since := seq(|s.since|, i requires 0 <= i < |s.since| =>
      if i < |healthy| then Observed(s.since[i], now, healthy[i]) else s.since[i]))
  }

  predicate HealthyFor(s: State, now: int, i: nat) {
    i < |s.since| && s.since[i].Some? && Max(now - s.since[i].value, 0) >= s.hold
  }

  // ---- The ranked list ----

  function Insert(preferred: Option<nat>, i: nat, list: seq<nat>): seq<nat>
    decreases |list|
  {
    if list == [] || Rank(preferred, i) < Rank(preferred, list[0]) then [i] + list
    else [list[0]] + Insert(preferred, i, list[1..])
  }

  /** The healthy sources, best rank first. */
  function ByRank(preferred: Option<nat>, healthy: seq<bool>): seq<nat>
    decreases |healthy|
  {
    if healthy == [] then [] else
      var n := |healthy| - 1;
      var rest := ByRank(preferred, healthy[..n]);
      if healthy[n] then Insert(preferred, n, rest) else rest
  }

  function Other(list: seq<nat>, a: nat): Option<nat>
    decreases |list|
  {
    if list == [] then None else if list[0] != a then Some(list[0]) else Other(list[1..], a)
  }

  /** Among those ranked before the active source, the first whose health has lasted the hold. */
  function Better(s: State, now: int, list: seq<nat>, a: nat): Option<nat>
    decreases |list|
  {
    if list == [] || Rank(s.preferred, list[0]) >= Rank(s.preferred, a) then None
    else if HealthyFor(s, now, list[0]) then Some(list[0])
    else Better(s, now, list[1..], a)
  }

  predicate Healthy(healthy: seq<bool>, i: nat) {
    i < |healthy| && healthy[i]
  }

  function Decide(s: State, now: int, healthy: seq<bool>): Option<Decision> {
    var list := ByRank(s.preferred, healthy);
    if s.active.None? then
      if list == [] then None else Some(Decision(list[0], Started))
    else if !Healthy(healthy, s.active.value) then
      var o := Other(list, s.active.value);
      if o.Some? then Some(Decision(o.value, Silent)) else None
    else
      var b := Better(s, now, list, s.active.value);
      if b.Some? then Some(Decision(b.value, Recovered)) else None
  }

  /** One tick, its decision applied. */
  function Tick(s: State, now: int, healthy: seq<bool>): State {
    var seen := Observe(s, now, healthy);
    var d := Decide(seen, now, healthy);
    if d.Some? then seen.(active := Some(d.value.source)) else seen
  }

  class Switcher {
    const hold: nat
    var since: seq<Option<int>>
    var active: Option<nat>
    var preferred: Option<nat>

    function Now(): State
      reads this
    {
      State(hold, since, active, preferred)
    }

    constructor (sources: nat, hold: nat)
      ensures Now() == State(hold, seq(sources, _ => None), None, None)
    {
      this.hold := hold;
      since, active, preferred := seq(sources, _ => None), None, None;
    }

    method Record(now: int, healthy: seq<bool>)
      modifies this`since
      ensures Now() == Observe(old(Now()), now, healthy)
    {
      ghost var was := since;
      for i := 0 to Min(|since|, |healthy|)
        invariant |since| == |was|
        invariant forall k :: 0 <= k < i ==> since[k] == Observed(was[k], now, healthy[k])
        invariant forall k :: i <= k < |was| ==> since[k] == was[k]
      {
        if healthy[i] && since[i].None? {
          since := since[i := Some(now)];
        } else if !healthy[i] {
          since := since[i := None];
        }
      }
    }

    method Choose(now: int, healthy: seq<bool>) returns (d: Option<Decision>)
      ensures d == Decide(Now(), now, healthy)
    {
      var list := ByRank(preferred, healthy);
      d := None;
      if active.None? {
        if list != [] {
          d := Some(Decision(list[0], Started));
        }
        return;
      }
      var a := active.value;
      if !Healthy(healthy, a) {
        for i := 0 to |list|
          invariant Other(list, a) == Other(list[i..], a)
        {
          if list[i] != a {
            return Some(Decision(list[i], Silent));
          }
          assert list[i..][1..] == list[i + 1..];
        }
        return;
      }
      for i := 0 to |list|
        invariant Better(Now(), now, list, a) == Better(Now(), now, list[i..], a)
      {
        if Rank(preferred, list[i]) >= Rank(preferred, a) {
          return;
        }
        if HealthyFor(Now(), now, list[i]) {
          return Some(Decision(list[i], Recovered));
        }
        assert list[i..][1..] == list[i + 1..];
      }
    }
  }

  // ---- The list is what it says ----

  ghost predicate Ranked(preferred: Option<nat>, list: seq<nat>) {
    forall i, j :: 0 <= i < j < |list| ==> Rank(preferred, list[i]) < Rank(preferred, list[j])
  }

  lemma {:induction false} InsertRanked(preferred: Option<nat>, i: nat, list: seq<nat>)
    requires Ranked(preferred, list) && i !in list
    ensures Ranked(preferred, Insert(preferred, i, list))
    ensures forall x :: x in Insert(preferred, i, list) <==> x == i || x in list
    decreases |list|
  {
    if list != [] {
      assert list == [list[0]] + list[1..];
      if Rank(preferred, i) >= Rank(preferred, list[0]) {
        InsertRanked(preferred, i, list[1..]);
        var rest := Insert(preferred, i, list[1..]);
        forall k | 0 <= k < |rest|
          ensures Rank(preferred, list[0]) < Rank(preferred, rest[k])
        {
          assert rest[k] in rest;
          assert rest[k] in list[1..] ==> exists m :: 0 < m < |list| && list[m] == rest[k];
        }
      }
    }
  }

  lemma {:induction false} ByRankIs(preferred: Option<nat>, healthy: seq<bool>)
    ensures Ranked(preferred, ByRank(preferred, healthy))
    ensures forall i: nat :: i in ByRank(preferred, healthy) <==> Healthy(healthy, i)
    decreases |healthy|
  {
    if healthy != [] {
      var n := |healthy| - 1;
      ByRankIs(preferred, healthy[..n]);
      if healthy[n] {
        InsertRanked(preferred, n, ByRank(preferred, healthy[..n]));
      }
      assert forall i: nat :: Healthy(healthy, i) <==> (i == n && healthy[n]) || Healthy(healthy[..n], i);
    }
  }

  lemma {:induction false} OtherIs(preferred: Option<nat>, list: seq<nat>, a: nat)
    requires Ranked(preferred, list)
    ensures var o := Other(list, a);
            if o.None? then forall x :: x in list ==> x == a
            else o.value in list && o.value != a
                 && forall x :: x in list && x != a ==> Rank(preferred, o.value) <= Rank(preferred, x)
    decreases |list|
  {
    if list != [] {
      assert list == [list[0]] + list[1..];
      OtherIs(preferred, list[1..], a);
    }
  }

  lemma {:induction false} BetterIs(s: State, now: int, list: seq<nat>, a: nat)
    requires Ranked(s.preferred, list)
    ensures var b := Better(s, now, list, a);
            if b.None? then forall x :: x in list && Rank(s.preferred, x) < Rank(s.preferred, a) ==>
              !HealthyFor(s, now, x)
            else b.value in list && Rank(s.preferred, b.value) < Rank(s.preferred, a) && HealthyFor(s, now, b.value)
                 && forall x :: x in list && HealthyFor(s, now, x) ==>
                    Rank(s.preferred, b.value) <= Rank(s.preferred, x)
    decreases |list|
  {
    hide HealthyFor;
    if list != [] {
      assert list == [list[0]] + list[1..];
      BetterIs(s, now, list[1..], a);
    }
  }

  /** No healthy source, other than `except`, ranks before `i`. */
  ghost predicate Best(preferred: Option<nat>, healthy: seq<bool>, i: nat, except: Option<nat>) {
    Healthy(healthy, i) && Some(i) != except
    && forall x: nat :: Healthy(healthy, x) && Some(x) != except ==> Rank(preferred, i) <= Rank(preferred, x)
  }

  /** What each decision means, and when there is none. */
  lemma {:induction false} DecisionIs(s: State, now: int, healthy: seq<bool>)
    ensures var d := Decide(s, now, healthy);
            if s.active.None? then
              if d.Some? then d.value.reason.Started? && Best(s.preferred, healthy, d.value.source, None)
              else forall i: nat :: !Healthy(healthy, i)
            else if !Healthy(healthy, s.active.value) then
              if d.Some? then d.value.reason.Silent? && Best(s.preferred, healthy, d.value.source, s.active)
              else forall i: nat :: Healthy(healthy, i) ==> Some(i) == s.active
            else
              var a := s.active.value;
              if d.Some? then
                d.value.reason.Recovered? && Healthy(healthy, d.value.source) && HealthyFor(s, now, d.value.source)
                && Rank(s.preferred, d.value.source) < Rank(s.preferred, a)
                && forall x: nat :: Healthy(healthy, x) && HealthyFor(s, now, x) ==>
                   Rank(s.preferred, d.value.source) <= Rank(s.preferred, x)
              else forall x: nat :: Healthy(healthy, x) && Rank(s.preferred, x) < Rank(s.preferred, a) ==>
                !HealthyFor(s, now, x)
  {
    hide Rank, HealthyFor, Healthy, ByRank, Other, Better;
    ByRankIs(s.preferred, healthy);
    var list := ByRank(s.preferred, healthy);
    if s.active.Some? {
      OtherIs(s.preferred, list, s.active.value);
      BetterIs(s, now, list, s.active.value);
    } else if list != [] {
      FirstIsBest(s.preferred, healthy, list);
    }
  }

  lemma {:induction false} FirstIsBest(preferred: Option<nat>, healthy: seq<bool>, list: seq<nat>)
    requires Ranked(preferred, list) && list != [] && forall i: nat :: i in list <==> Healthy(healthy, i)
    ensures Best(preferred, healthy, list[0], None)
  {
    assert list[0] in list;
  }

  // ---- Over runs ----

  datatype Seen = Seen(now: int, healthy: seq<bool>)

  function Run(s: State, ticks: seq<Seen>): State
    decreases |ticks|
  {
    if ticks == [] then s else
      var t := ticks[|ticks| - 1];
      Tick(Run(s, ticks[..|ticks| - 1]), t.now, t.healthy)
  }

  /** Ticks come in time order, each with the health of all `n` sources. */
  predicate Timely(ticks: seq<Seen>, n: nat) {
    && (forall i :: 0 <= i < |ticks| ==> |ticks[i].healthy| == n)
    && (forall i, j :: 0 <= i <= j < |ticks| ==> ticks[i].now <= ticks[j].now)
  }

  /** Since when a source has been healthy, read off the ticks themselves. */
  function SinceOf(ticks: seq<Seen>, i: nat): Option<int>
    decreases |ticks|
  {
    if ticks == [] then None else
      var t := ticks[|ticks| - 1];
      if !Healthy(t.healthy, i) then None
      else var before := SinceOf(ticks[..|ticks| - 1], i); if before.None? then Some(t.now) else before
  }

  lemma {:induction false} SinceIsExact(s: State, ticks: seq<Seen>, i: nat)
    requires i < |s.since| && s.since[i] == None && Timely(ticks, |s.since|)
    ensures |Run(s, ticks).since| == |s.since| && Run(s, ticks).since[i] == SinceOf(ticks, i)
    ensures Run(s, ticks).hold == s.hold && Run(s, ticks).preferred == s.preferred
    decreases |ticks|
  {
    hide Decide;
    if ticks != [] {
      SinceIsExact(s, ticks[..|ticks| - 1], i);
    }
  }

  /** The source was healthy at every tick from number `k` on, and not at the one before. */
  ghost predicate Unbroken(ticks: seq<Seen>, i: nat, k: nat) {
    && k < |ticks| && (forall j :: k <= j < |ticks| ==> Healthy(ticks[j].healthy, i))
    && (k > 0 ==> !Healthy(ticks[k - 1].healthy, i))
  }

  /** Healthy since a time means at every tick from the one at that time on, and at no earlier one without a break. */
  lemma {:induction false} SinceMeansUnbroken(ticks: seq<Seen>, i: nat) returns (k: nat)
    requires SinceOf(ticks, i).Some?
    ensures Unbroken(ticks, i, k) && ticks[k].now == SinceOf(ticks, i).value
    decreases |ticks|
  {
    var init := ticks[..|ticks| - 1];
    if SinceOf(init, i).Some? {
      k := SinceMeansUnbroken(init, i);
    } else {
      k := |init|;
      if init != [] {
        NotSince(init, i);
      }
    }
  }

  lemma {:induction false} NotSince(ticks: seq<Seen>, i: nat)
    requires SinceOf(ticks, i).None? && ticks != []
    ensures !Healthy(ticks[|ticks| - 1].healthy, i)
  {}

  /**
    A switch back comes only after the hold: a source that was unhealthy at some tick is not recovered to
    until at least the hold after it.
   */
  lemma {:induction false} RecoveryWaits(s: State, ticks: seq<Seen>, k: nat, i: nat)
    requires ticks != [] && i < |s.since| && s.since[i] == None && Timely(ticks, |s.since|)
    requires k < |ticks| && !Healthy(ticks[k].healthy, i)
    requires var t := ticks[|ticks| - 1];
             var d := Decide(Observe(Run(s, ticks[..|ticks| - 1]), t.now, t.healthy), t.now, t.healthy);
             d.Some? && d.value == Decision(i, Recovered)
    ensures ticks[|ticks| - 1].now - ticks[k].now >= s.hold
  {
    hide Decide;
    var t := ticks[|ticks| - 1];
    var seen := Observe(Run(s, ticks[..|ticks| - 1]), t.now, t.healthy);
    SinceIsExact(s, ticks[..|ticks| - 1], i);
    SinceIsExact(s, ticks, i);
    DecisionIs(seen, t.now, t.healthy);
    assert seen.since[i] == SinceOf(ticks, i);
    var from := SinceMeansUnbroken(ticks, i);
  }

  /** With the same health at every tick, once that has lasted for the hold, the best healthy source is on air. */
  lemma {:induction false} SettlesOnTheBest(s: State, ticks: seq<Seen>, healthy: seq<bool>, best: nat)
    requires Timely(ticks, |s.since|) && ticks != [] && |healthy| == |s.since|
    requires forall k :: 0 <= k < |ticks| ==> ticks[k].healthy == healthy
    requires Best(s.preferred, healthy, best, None) && (s.active.Some? ==> s.active.value < |s.since|)
    requires s.since[best].None? || s.since[best].value <= ticks[0].now
    requires ticks[|ticks| - 1].now - ticks[0].now >= s.hold
    ensures Run(s, ticks).active == Some(best)
  {
    hide Decide;
    var init, t := ticks[..|ticks| - 1], ticks[|ticks| - 1];
    SinceStays(s, init, healthy, best, ticks[0].now);
    var seen := Observe(Run(s, init), t.now, t.healthy);
    DecisionIs(seen, t.now, healthy);
    if seen.active.Some? {
      RankOnce(s.preferred, healthy, best, seen.active.value);
    }
  }

  /** Ranks differ, so there is only one best. */
  lemma {:induction false} RankOnce(preferred: Option<nat>, healthy: seq<bool>, best: nat, a: nat)
    requires Best(preferred, healthy, best, None)
    ensures Healthy(healthy, a) && a != best ==> Rank(preferred, best) < Rank(preferred, a)
  {}

  lemma {:induction false} SinceStays(s: State, ticks: seq<Seen>, healthy: seq<bool>, best: nat, start: int)
    requires |healthy| == |s.since| && Healthy(healthy, best)
    requires forall k :: 0 <= k < |ticks| ==> ticks[k].healthy == healthy
    requires s.since[best].None? || s.since[best].value <= start
    requires ticks != [] ==> ticks[0].now == start
    ensures var r := Run(s, ticks);
            && |r.since| == |s.since| && r.hold == s.hold && r.preferred == s.preferred
            && (r.since[best].None? || r.since[best].value <= start) && (ticks != [] ==> r.since[best].Some?)
    decreases |ticks|
  {
    hide Decide;
    if ticks != [] {
      SinceStays(s, ticks[..|ticks| - 1], healthy, best, start);
    }
  }

  /** And it never moves again. */
  lemma {:induction false} BestStays(s: State, now: int, healthy: seq<bool>)
    requires s.active.Some? && Best(s.preferred, healthy, s.active.value, None)
    ensures Decide(Observe(s, now, healthy), now, healthy) == None && Tick(s, now, healthy).active == s.active
  {
    hide Decide;
    DecisionIs(Observe(s, now, healthy), now, healthy);
  }
}
