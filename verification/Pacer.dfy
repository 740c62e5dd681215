/** When each datagram of a multicast goes out: the media clock pinned to the wall clock, and a rate limit. */
module Pacer {
  import opened Util

  /** Times in microseconds; `real` where the source has fractions of a second. */
  const RATE_WINDOW := 1_000_000
  const MIN_WINDOW := 200_000
  const REANCHOR_LATE := 500_000
  const REANCHOR_EARLY := 2_000_000
  const MAX_LAG := 1_000_000.0
  const HEADROOM := 1.5

  datatype Anchor = Anchor(wall: int, media: int)

  datatype Muxed = Muxed(media: int, bytes: nat)

  /** `last` is `None` before the first frame. */
  datatype State = State(enabled: bool, anchor: Option<Anchor>, last: Option<int>, window: seq<Muxed>, windowBytes: int,
      nextFree: Option<real>)

  // ---- Deadlines ----

  function Media(s: State, media: int): int {
    if s.last.Some? then Max(media, s.last.value) else media
  }

  /** The deadline on the timeline as it is pinned. */
  function Pinned(a: Anchor, media: int): int {
    a.wall + (media - a.media)
  }

  predicate Absorbed(now: int, deadline: int) {
    deadline + REANCHOR_LATE >= now && deadline <= now + REANCHOR_EARLY
  }

  function Deadline(s: State, now: int, media: int): (State, int) {
    if !s.enabled then (s, now) else
      var m := Media(s, media);
      var seen := s.(last := Some(m));
      if s.anchor.Some? && Absorbed(now, Pinned(s.anchor.value, m)) then (seen, Pinned(s.anchor.value, m))
      else (seen.(anchor := Some(Anchor(now, m)), window := [], windowBytes := 0), now)
  }

  // ---- The rate window ----

  function Bytes(window: seq<Muxed>): nat
    decreases |window|
  {
    if window == [] then 0 else window[0].bytes + Bytes(window[1..])
  }

  function Recent(window: seq<Muxed>, media: int): seq<Muxed>
    decreases |window|
  {
    if window != [] && media - window[0].media > RATE_WINDOW then Recent(window[1..], media) else window
  }

  function Record(s: State, media: int, bytes: nat): State {
    if bytes == 0 then s else
      var window := s.window + [Muxed(media, bytes)];
      s.(window := Recent(window, media),
        windowBytes := s.windowBytes + bytes - (Bytes(window) - Bytes(Recent(window, media))))
  }

  /** Bytes a microsecond over the window, once it is long enough. */
  function AverageRate(s: State): Option<real> {
    if s.window == [] then None else
      var first, span := s.window[0], s.window[|s.window| - 1].media - s.window[0].media;
      if span < MIN_WINDOW then None else Some((s.windowBytes - first.bytes) as real / span as real)
  }

  predicate WindowOk(s: State) {
    s.windowBytes == Bytes(s.window) && forall i :: 0 <= i < |s.window| ==> s.window[i].bytes > 0
  }

  /** An average is never zero: dividing by it is safe. */
  lemma {:induction false} RatePositive(s: State)
    requires WindowOk(s)
    ensures AverageRate(s).Some? ==> AverageRate(s).value > 0.0
  {
    if AverageRate(s).Some? {
      assert |s.window| >= 2;
      var rest := s.window[1..];
      assert Bytes(s.window) == s.window[0].bytes + Bytes(rest);
      assert Bytes(rest) >= rest[0].bytes > 0;
      QuotientPositive((s.windowBytes - s.window[0].bytes) as real,
        (s.window[|s.window| - 1].media - s.window[0].media) as real);
    }
  }

  lemma {:induction false} QuotientPositive(a: real, b: real)
    requires a > 0.0 && b > 0.0
    ensures a / b > 0.0
  {}

  function Gap(s: State, bytes: nat): (gap: real)
    requires WindowOk(s)
    ensures gap >= 0.0
  {
    RatePositive(s);
    var rate := AverageRate(s);
    if rate.None? then 0.0 else
      var per := rate.value * HEADROOM;
      if bytes > 0 then (QuotientPositive(bytes as real, per); bytes as real / per) else 0.0
  }

  // ---- Send times ----

  function MaxR(a: real, b: real): real {
    if a > b then a else b
  }

  function MinR(a: real, b: real): real {
    if a < b then a else b
  }

  function SendAt(s: State, deadline: real): real {
    MinR(if s.nextFree.Some? then MaxR(s.nextFree.value, deadline) else deadline, deadline + MAX_LAG)
  }

  function Schedule(s: State, deadline: real, bytes: nat): (State, real)
    requires WindowOk(s)
  {
    if !s.enabled then (s, deadline)
    else (s.(nextFree := Some(SendAt(s, deadline) + Gap(s, bytes))), SendAt(s, deadline))
  }

  class Pacer {
    const enabled: bool
    var anchor: Option<Anchor>
    var last: Option<int>
    var window: seq<Muxed>
    var windowBytes: int
    var nextFree: Option<real>

    function Now(): State
      reads this
    {
      State(enabled, anchor, last, window, windowBytes, nextFree)
    }

    constructor (enabled: bool)
      ensures Now() == State(enabled, None, None, [], 0, None)
    {
      this.enabled := enabled;
      anchor, last, window, windowBytes, nextFree := None, None, [], 0, None;
    }

    method DeadlineOf(now: int, media: int) returns (deadline: int)
      modifies this`anchor, this`last, this`window, this`windowBytes
      ensures (Now(), deadline) == Deadline(old(Now()), now, media)
    {
      if !enabled {
        return now;
      }
      var m := if last.Some? then Max(media, last.value) else media;
      last := Some(m);
      if anchor.Some? {
        deadline := anchor.value.wall + (m - anchor.value.media);
        if deadline + REANCHOR_LATE >= now && deadline <= now + REANCHOR_EARLY {
          return;
        }
      }
      anchor, window, windowBytes := Some(Anchor(now, m)), [], 0;
      deadline := now;
    }

    method RecordOutput(media: int, bytes: nat)
      modifies this`window, this`windowBytes
      ensures Now() == Record(old(Now()), media, bytes)
    {
      if bytes == 0 {
        return;
      }
      window := window + [Muxed(media, bytes)];
      windowBytes := windowBytes + bytes;
      ghost var all := window;
      while window != [] && media - window[0].media > RATE_WINDOW
        invariant Recent(window, media) == Recent(all, media)
        invariant windowBytes == old(windowBytes) + bytes - (Bytes(all) - Bytes(window))
        decreases |window|
      {
        windowBytes := windowBytes - window[0].bytes;
        window := window[1..];
      }
    }

    method SendTime(deadline: real, bytes: nat) returns (at: real)
      requires WindowOk(Now())
      modifies this`nextFree
      ensures (Now(), at) == Schedule(old(Now()), deadline, bytes)
    {
      if !enabled {
        return deadline;
      }
      at := MinR(if nextFree.Some? then MaxR(nextFree.value, deadline) else deadline, deadline + MAX_LAG);
      nextFree := Some(at + Gap(Now(), bytes));
    }
  }

  // ---- Deadlines stay near the wall clock ----

  /** The anchor was seen, and what was seen since is not before it. */
  ghost predicate Pinnable(s: State) {
    s.anchor.Some? ==> s.last.Some? && s.last.value >= s.anchor.value.media
  }

  /** A deadline is never more than half a second behind the clock nor two seconds ahead of it. */
  lemma {:induction false} DeadlineIsNear(s: State, now: int, media: int)
    requires Pinnable(s)
    ensures var (t, d) := Deadline(s, now, media);
            now - REANCHOR_LATE <= d <= now + REANCHOR_EARLY && Pinnable(t)
            && (s.enabled ==> t.anchor.Some? && t.last.Some? && d == Pinned(t.anchor.value, t.last.value))
  {}

  /**
    Deadlines go backwards exactly when a jump ahead of the pinned timeline pins it anew while the last deadline
    is still to come.
   */
  lemma {:induction false} BackwardsExactly(s: State, now: int, media: int)
    requires s.enabled && s.anchor.Some? && s.last.Some? && Pinnable(s)
    ensures var last := Pinned(s.anchor.value, s.last.value);
            Deadline(s, now, media).1 < last <==>
              now < last && Pinned(s.anchor.value, Media(s, media)) > now + REANCHOR_EARLY
  {}

  /** Such a jump: five seconds of media in no time, with a deadline 1.9 seconds ahead. */
  lemma {:induction false} BackwardsHappens()
    ensures var s0 := State(true, None, None, [], 0, None);
            var (s1, d1) := Deadline(s0, 0, 0);
            var (s2, d2) := Deadline(s1, 0, 1_900_000);
            var (s3, d3) := Deadline(s2, 0, 6_900_000);
            d1 <= d2 && d3 < d2
  {}

  // ---- The window is exact ----

  lemma {:induction false} BytesSnoc(window: seq<Muxed>, m: Muxed)
    ensures Bytes(window + [m]) == Bytes(window) + m.bytes
    decreases |window|
  {
    if window != [] {
      BytesSnoc(window[1..], m);
      assert (window + [m])[1..] == window[1..] + [m];
    }
  }

  lemma {:induction false} RecentIs(window: seq<Muxed>, media: int)
    requires window != [] && window[|window| - 1].media == media
    ensures Recent(window, media) != [] && media - Recent(window, media)[0].media <= RATE_WINDOW
    ensures exists k :: 0 <= k < |window| && Recent(window, media) == window[k..]
    decreases |window|
  {
    if media - window[0].media > RATE_WINDOW {
      RecentIs(window[1..], media);
      var k :| 0 <= k < |window[1..]| && Recent(window[1..], media) == window[1..][k..];
      assert window[1..][k..] == window[k + 1..];
    } else {
      assert window[0..] == window;
    }
  }

  /** Recording keeps the byte count exact, and the window no longer than a second. */
  lemma {:induction false} RecordOk(s: State, media: int, bytes: nat)
    requires WindowOk(s)
    ensures WindowOk(Record(s, media, bytes))
    ensures bytes > 0 ==> var w := Record(s, media, bytes).window;
              w != [] && w[|w| - 1] == Muxed(media, bytes) && media - w[0].media <= RATE_WINDOW
  {
    if bytes > 0 {
      BytesSnoc(s.window, Muxed(media, bytes));
      RecentIs(s.window + [Muxed(media, bytes)], media);
      hide Recent, Bytes;
    }
  }

  // ---- Send times ----

  /** A datagram goes out no earlier than its deadline and at most `MAX_LAG` after it. */
  lemma {:induction false} SentInBounds(s: State, deadline: real, bytes: nat)
    requires WindowOk(s)
    ensures deadline <= Schedule(s, deadline, bytes).1 <= deadline + MAX_LAG
  {}

  datatype Datagram = Datagram(deadline: real, bytes: nat, window: seq<Muxed>, windowBytes: int)

  /** The window may be anything sound when each datagram goes out. */
  ghost predicate Sendable(ds: seq<Datagram>) {
    forall i :: 0 <= i < |ds| ==> WindowOk(State(true, None, None, ds[i].window, ds[i].windowBytes, None))
  }

  function Before(s: State, d: Datagram): State {
    s.(window := d.window, windowBytes := d.windowBytes)
  }

  function SendAll(s: State, ds: seq<Datagram>): (at: seq<real>)
    requires Sendable(ds)
    ensures |at| == |ds|
    decreases |ds|
  {
    if ds == [] then [] else
      assert WindowOk(State(true, None, None, ds[0].window, ds[0].windowBytes, None));
      var sent := Schedule(Before(s, ds[0]), ds[0].deadline, ds[0].bytes);
      [sent.1] + SendAll(sent.0, ds[1..])
  }

  /** The gap the smoothing rate asks for after a datagram. */
  function GapOf(d: Datagram): real
    requires WindowOk(State(true, None, None, d.window, d.windowBytes, None))
  {
    Gap(State(true, None, None, d.window, d.windowBytes, None), d.bytes)
  }

  lemma {:induction false} FirstSend(s: State, ds: seq<Datagram>)
    requires Sendable(ds) && ds != [] && s.enabled
    ensures SendAll(s, ds)[0] == SendAt(s, ds[0].deadline)
  {}

  /**
    Deadlines that do not go backwards give send times that do not, each at least the rate's gap after the one
    before unless it was clamped to the longest lag.
   */
  lemma {:induction false} SendsKeepTheRate(s: State, ds: seq<Datagram>, i: nat)
    requires Sendable(ds) && s.enabled && i + 1 < |ds|
    requires ds[i].deadline <= ds[i + 1].deadline
    ensures SendAll(s, ds)[i] <= SendAll(s, ds)[i + 1]
    ensures SendAll(s, ds)[i] + GapOf(ds[i]) <= SendAll(s, ds)[i + 1]
      || SendAll(s, ds)[i + 1] == ds[i + 1].deadline + MAX_LAG
    decreases |ds|
  {
    hide WindowOk, AverageRate;
    SameGap(s, ds[0]);
    var sent := Schedule(Before(s, ds[0]), ds[0].deadline, ds[0].bytes);
    assert SendAll(s, ds)[1..] == SendAll(sent.0, ds[1..]);
    if i > 0 {
      SendsKeepTheRate(sent.0, ds[1..], i - 1);
    } else {
      FirstSend(sent.0, ds[1..]);
    }
  }

  lemma {:induction false} SameGap(s: State, d: Datagram)
    requires WindowOk(State(true, None, None, d.window, d.windowBytes, None))
    ensures WindowOk(Before(s, d)) && Gap(Before(s, d), d.bytes) == GapOf(d)
  {}
}
