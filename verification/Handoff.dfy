/**
  One LL-HLS packager a stream name, across republishes: the registry of publishers, the channel that announces
  them, the listener, and the runners that hand an entry from one publish to the next.
 */
module Handoff {
  import opened Util

  /** How many announcements the channel keeps for a slow listener. */
  const CAPACITY := 64

  // ---- The registry: one publisher a name ----

  /** Publishes are numbered; `sent` is every announcement so far, `unsent` those published but not announced yet. */
  datatype Registry = Registry(streams: map<nat, nat>, nameOf: seq<nat>, ended: set<nat>, unsent: set<nat>,
      sent: seq<nat>)

  function Publish(r: Registry, name: nat): Registry {
    if name in r.streams then r
    else Registry(r.streams[name := |r.nameOf|], r.nameOf + [name], r.ended, r.unsent + {|r.nameOf|}, r.sent)
  }

  function Announce(r: Registry, id: nat): Registry {
    if id in r.unsent then r.(unsent := r.unsent - {id}, sent := r.sent + [id]) else r
  }

  /** A publisher exists once it is announced; dropping it first ends its stream. */
  function End(r: Registry, id: nat): Registry {
    if id < |r.nameOf| && id !in r.unsent then r.(ended := r.ended + {id}) else r
  }

  /** Then it gives up the name, if it still holds it. */
  function Unregister(r: Registry, id: nat): Registry {
    if id in r.ended && id < |r.nameOf| && r.nameOf[id] in r.streams && r.streams[r.nameOf[id]] == id
    then r.(streams := r.streams - {r.nameOf[id]}) else r
  }

  class Publishers {
    var streams: map<nat, nat>
    var nameOf: seq<nat>
    var ended: set<nat>
    var unsent: set<nat>
    var sent: seq<nat>

    function Now(): Registry
      reads this
    {
      Registry(streams, nameOf, ended, unsent, sent)
    }

    constructor ()
      ensures Now() == Registry(map[], [], {}, {}, [])
    {
      streams, nameOf, ended, unsent, sent := map[], [], {}, {}, [];
    }

    /** Claims a name; `None` when it is busy. */
    method Claim(name: nat) returns (id: Option<nat>)
      modifies this
      ensures Now() == Publish(old(Now()), name)
      ensures id == if name in old(streams) then None else Some(old(|nameOf|))
    {
      if name in streams {
        return None;
      }
      id := Some(|nameOf|);
      streams := streams[name := |nameOf|];
      unsent := unsent + {|nameOf|};
      nameOf := nameOf + [name];
    }

    method Send(id: nat)
      requires id in unsent
      modifies this
      ensures Now() == Announce(old(Now()), id)
    {
      unsent := unsent - {id};
      sent := sent + [id];
    }

    /** Dropping the publisher: the stream ends first, then the name is free. */
    method Drop(id: nat)
      requires id < |nameOf| && id !in unsent
      modifies this
      ensures Now() == Unregister(End(old(Now()), id), id)
    {
      ended := ended + {id};
      if nameOf[id] in streams && streams[nameOf[id]] == id {
        streams := streams - {nameOf[id]};
      }
    }
  }

  // ---- Entries and their runners ----

  /**
    `Pumping` feeds the entry's stream to the packager; `Waiting` is within the reconnect grace;
    `Took` has taken a successor but not switched to it yet; `Finished` has ended the playlist.
   */
  datatype Phase = Pumping | Waiting | Took(id: nat) | Finished

  datatype Entry = Entry(name: nat, cur: nat, next: Option<nat>, closed: bool, phase: Phase)

  /** `grace`: the reconnect grace is not zero. Runners may outlive their place in `names`. */
  datatype Hls = Hls(grace: bool, names: map<nat, nat>, entries: seq<Entry>)

  function Fresh(h: Hls, id: nat, name: nat): Hls {
    Hls(h.grace, h.names[name := |h.entries|], h.entries + [Entry(name, id, None, false, Pumping)])
  }

  function Start(h: Hls, id: nat, name: nat): Hls {
    if name in h.names && h.names[name] < |h.entries| then
      var e := h.entries[h.names[name]];
      if e.cur == id then h
      else if h.grace && !e.closed then
        if e.next == Some(id) then h else h.(entries := h.entries[h.names[name] := e.(next := Some(id))])
      else Fresh(h, id, name)
    else Fresh(h, id, name)
  }

  datatype Turn = Drained | Successor | Deadline | Switch | Linger

  /** One step of a runner, whose stream has `ended` or not. */
  function Turned(e: Entry, turn: Turn, ended: bool, grace: bool): Entry {
    match turn
    case Drained => if e.phase.Pumping? && ended then e.(phase := if grace then Waiting else Finished) else e
    case Successor => if e.phase.Waiting? && e.next.Some? then e.(next := None, phase := Took(e.next.value)) else e
    case Deadline => if e.phase.Waiting? && e.next.None? then e.(closed := true, phase := Finished) else e
    case Switch => if e.phase.Took? then e.(cur := e.phase.id, phase := Pumping) else e
    case Linger => e
  }

  function Run(h: Hls, i: nat, turn: Turn, ended: set<nat>): Hls {
    if i >= |h.entries| then h else
      var e := h.entries[i];
      if turn.Linger? then
        if e.phase.Finished? && e.name in h.names && h.names[e.name] == i then h.(names := h.names - {e.name}) else h
      else h.(entries := h.entries[i := Turned(e, turn, e.cur in ended, h.grace)])
  }

  class Packagers {
    const grace: bool
    var names: map<nat, nat>
    var entries: seq<Entry>

    function Now(): Hls
      reads this
    {
      Hls(grace, names, entries)
    }

    constructor (grace: bool)
      ensures Now() == Hls(grace, map[], [])
    {
      this.grace := grace;
      names, entries := map[], [];
    }

    method StartStream(id: nat, name: nat)
      modifies this
      ensures Now() == Start(old(Now()), id, name)
    {
      if name in names && names[name] < |entries| {
        var i := names[name];
        if entries[i].cur == id {
          return;
        }
        if grace && !entries[i].closed {
          if entries[i].next == Some(id) {
            return;
          }
          entries := entries[i := entries[i].(next := Some(id))];
          return;
        }
      }
      names := names[name := |entries|];
      entries := entries + [Entry(name, id, None, false, Pumping)];
    }

    /** The runner of entry `i` asks for a successor, before the deadline or past it. */
    method TakeSuccessor(i: nat, late: bool) returns (next: Option<nat>)
      requires i < |entries| && entries[i].phase.Waiting?
      modifies this`entries
      ensures next == old(entries[i].next)
      ensures forall ended: set<nat> :: Now() == if next.Some? then Run(old(Now()), i, Successor, ended)
                                                 else if late then Run(old(Now()), i, Deadline, ended) else old(Now())
    {
      var e := entries[i];
      next := e.next;
      if next.Some? {
        entries := entries[i := e.(next := None, phase := Took(next.value))];
      } else if late {
        entries := entries[i := e.(closed := true, phase := Finished)];
      }
    }

    /** The runner switches to the successor it took. */
    method SwitchOver(i: nat)
      requires i < |entries| && entries[i].phase.Took?
      modifies this`entries
      ensures forall ended: set<nat> :: Now() == Run(old(Now()), i, Switch, ended)
    {
      entries := entries[i := entries[i].(cur := entries[i].phase.id, phase := Pumping)];
    }

    /** After lingering, the entry leaves the map, unless a newer one has its name. */
    method Remove(i: nat)
      requires i < |entries| && entries[i].phase.Finished?
      modifies this`names
      ensures forall ended: set<nat> :: Now() == Run(old(Now()), i, Linger, ended)
    {
      if entries[i].name in names && names[entries[i].name] == i {
        names := names - {entries[i].name};
      }
    }
  }

  // ---- The listener ----

  /** `todo`: live streams listed after a lag (or at the start) and not handled yet. */
  datatype System = System(reg: Registry, hls: Hls, cursor: nat, todo: seq<nat>)

  datatype Op = OpPublish(name: nat) | OpAnnounce(id: nat) | OpEnd(id: nat) | OpUnregister(id: nat)
              | OpRun(entry: nat, turn: Turn) | OpHear(listing: seq<nat>)

  predicate Lagging(sys: System) {
    sys.cursor + CAPACITY < |sys.reg.sent|
  }

  ghost predicate Lists(r: Registry, listing: seq<nat>) {
    forall id :: id in listing <==> exists n :: n in r.streams && r.streams[n] == id
  }

  function Hear(sys: System, listing: seq<nat>): System {
    if sys.todo != [] then
      if sys.todo[0] < |sys.reg.nameOf| then
        sys.(hls := Start(sys.hls, sys.todo[0], sys.reg.nameOf[sys.todo[0]]), todo := sys.todo[1..])
      else sys
    else if Lagging(sys) then sys.(cursor := |sys.reg.sent| - CAPACITY, todo := listing)
    else if sys.cursor < |sys.reg.sent| && sys.reg.sent[sys.cursor] < |sys.reg.nameOf| then
      sys.(hls := Start(sys.hls, sys.reg.sent[sys.cursor], sys.reg.nameOf[sys.reg.sent[sys.cursor]]),
        cursor := sys.cursor + 1)
    else sys
  }

  function Apply(sys: System, op: Op): System {
    match op
    case OpPublish(name) => sys.(reg := Publish(sys.reg, name))
    case OpAnnounce(id) => sys.(reg := Announce(sys.reg, id))
    case OpEnd(id) => sys.(reg := End(sys.reg, id))
    case OpUnregister(id) => sys.(reg := Unregister(sys.reg, id))
    case OpRun(i, turn) => sys.(hls := Run(sys.hls, i, turn, sys.reg.ended))
    case OpHear(listing) => Hear(sys, listing)
  }

  /** A listing is what the registry holds when it is taken. */
  ghost predicate OpOk(sys: System, op: Op) {
    op.OpHear? ==> Lists(sys.reg, op.listing)
  }

  // ---- What every step keeps ----

  predicate Live(r: Registry, id: nat) {
    id < |r.nameOf| && id !in r.ended
  }

  predicate SameName(r: Registry, a: nat, b: nat) {
    a < |r.nameOf| && b < |r.nameOf| && r.nameOf[a] == r.nameOf[b]
  }

  predicate Registered(r: Registry, id: nat) {
    id < |r.nameOf| && r.nameOf[id] in r.streams && r.streams[r.nameOf[id]] == id
  }

  /**
    Names are claimed one publisher at a time: the registered publish of a name is its newest, and only it may be
    live.
   */
  ghost predicate Claims(r: Registry) {
    && (forall n :: n in r.streams ==> r.streams[n] < |r.nameOf| && r.nameOf[r.streams[n]] == n)
    && (forall id: nat :: Live(r, id) ==> Registered(r, id))
    && (forall a: nat, b: nat :: Registered(r, a) && SameName(r, a, b) ==> b <= a)
    && (forall id :: id in r.ended ==> id < |r.nameOf|)
  }

  /** Every publish is announced once, in the order of its name. */
  ghost predicate Announced(r: Registry) {
    && (forall id :: id in r.unsent ==> id < |r.nameOf| && id !in r.ended)
    && (forall i :: 0 <= i < |r.sent| ==> r.sent[i] < |r.nameOf| && r.sent[i] !in r.unsent)
    && (forall i, j :: 0 <= i < j < |r.sent| && SameName(r, r.sent[i], r.sent[j]) ==> r.sent[i] < r.sent[j])
    && (forall id: nat :: id < |r.nameOf| && id !in r.unsent ==> id in r.sent)
  }

  ghost predicate RegOk(r: Registry) {
    Claims(r) && Announced(r)
  }

  /** Its announcement is still to come, or still to be heard. */
  ghost predicate Coming(r: Registry, cursor: nat, id: nat) {
    id in r.unsent || exists k :: cursor <= k < |r.sent| && r.sent[k] == id
  }

  ghost predicate Pending(sys: System, id: nat) {
    Coming(sys.reg, sys.cursor, id) || id in sys.todo || Lagging(sys)
  }

  /** The entry of its name is fed by it, has it queued and will take it, or has just taken it. */
  predicate Located(h: Hls, id: nat, name: nat) {
    name in h.names && h.names[name] < |h.entries| && Holds(h.entries[h.names[name]], id)
  }

  predicate Holds(e: Entry, id: nat) {
    (e.cur == id && e.phase.Pumping?) || (e.next == Some(id) && !e.closed && !e.phase.Finished?) || e.phase == Took(id)
  }

  ghost predicate EarOk(sys: System) {
    && sys.cursor <= |sys.reg.sent|
    && (forall t :: t in sys.todo ==> t < |sys.reg.nameOf|)
    && (forall t, id: nat :: t in sys.todo && Live(sys.reg, id) && SameName(sys.reg, t, id) && id != t ==>
         Coming(sys.reg, sys.cursor, id))
  }

  predicate Named(r: Registry, id: nat, name: nat) {
    id < |r.nameOf| && r.nameOf[id] == name
  }

  ghost predicate EntryOk(r: Registry, e: Entry, grace: bool) {
    && Named(r, e.cur, e.name)
    && (e.next.Some? ==> Named(r, e.next.value, e.name))
    && (e.phase.Took? ==> Named(r, e.phase.id, e.name))
    && (!e.phase.Pumping? ==> e.cur in r.ended)
    && (if grace then e.closed <==> e.phase.Finished?
        else !e.closed && e.next.None? && (e.phase.Pumping? || e.phase.Finished?))
  }

  ghost predicate HlsOk(r: Registry, h: Hls) {
    && (forall n :: n in h.names ==> h.names[n] < |h.entries| && h.entries[h.names[n]].name == n)
    && (forall i :: 0 <= i < |h.entries| ==> EntryOk(r, h.entries[i], h.grace))
  }

  /** No live publish is ever lost. */
  ghost predicate Kept(sys: System) {
    forall id: nat :: Live(sys.reg, id) ==> Pending(sys, id) || Located(sys.hls, id, sys.reg.nameOf[id])
  }

  ghost predicate Sound(sys: System) {
    RegOk(sys.reg) && EarOk(sys) && HlsOk(sys.reg, sys.hls) && Kept(sys)
  }

  // ---- Registry steps ----

  /** Ending or announcing claims nothing. */
  lemma {:induction false} ClaimsStay(r: Registry, n: Registry)
    requires Claims(r) && n.streams == r.streams && n.nameOf == r.nameOf && r.ended <= n.ended
    requires forall id :: id in n.ended ==> id < |n.nameOf|
    ensures Claims(n)
  {
    forall x: nat | Live(n, x)
      ensures Registered(n, x)
    {
      assert Live(r, x) && Registered(r, x);
    }
    forall a: nat, b: nat | Registered(n, a) && SameName(n, a, b)
      ensures b <= a
    {
      assert Registered(r, a) && SameName(r, a, b);
    }
  }

  lemma {:induction false} PublishClaims(r: Registry, name: nat)
    requires Claims(r)
    ensures Claims(Publish(r, name))
  {
    if name !in r.streams {
      var n, latest := Publish(r, name), |r.nameOf|;
      forall x: nat | Live(n, x)
        ensures Registered(n, x)
      {
        assert x != latest ==> Live(r, x);
        assert Live(r, x) ==> Registered(r, x);
      }
      forall a: nat, b: nat | Registered(n, a) && SameName(n, a, b)
        ensures b <= a
      {
        assert a != latest ==> Registered(r, a);
        assert a != latest && b != latest ==> SameName(r, a, b);
      }
    }
  }

  lemma {:induction false} UnregisterClaims(r: Registry, id: nat)
    requires Claims(r)
    ensures Claims(Unregister(r, id))
  {
    var n := Unregister(r, id);
    forall x: nat | Live(n, x)
      ensures Registered(n, x)
    {
      assert Live(r, x) && Registered(r, x);
    }
    forall a: nat, b: nat | Registered(n, a) && SameName(n, a, b)
      ensures b <= a
    {
      assert Registered(r, a) && SameName(r, a, b);
    }
  }

  /** Announcements so far keep their order when a new name is claimed or a stream ends. */
  lemma {:induction false} AnnouncedStays(r: Registry, n: Registry)
    requires Announced(r) && r.nameOf <= n.nameOf && n.sent == r.sent && r.unsent <= n.unsent
    requires forall id :: id in n.unsent ==> id < |n.nameOf| && id !in n.ended && (id in r.unsent || id >= |r.nameOf|)
    requires forall id: nat :: |r.nameOf| <= id < |n.nameOf| ==> id in n.unsent
    ensures Announced(n)
  {
    forall i, j | 0 <= i < j < |n.sent| && SameName(n, n.sent[i], n.sent[j])
      ensures n.sent[i] < n.sent[j]
    {
      assert SameName(r, r.sent[i], r.sent[j]);
    }
  }

  lemma {:induction false} AnnounceAnnounced(r: Registry, id: nat)
    requires Claims(r) && Announced(r) && id in r.unsent
    ensures Announced(Announce(r, id))
  {
    var n := Announce(r, id);
    assert Live(r, id) && Registered(r, id);
    forall i, j | 0 <= i < j < |n.sent| && SameName(n, n.sent[i], n.sent[j])
      ensures n.sent[i] < n.sent[j]
    {
      assert j < |r.sent| ==> SameName(r, r.sent[i], r.sent[j]);
      assert j == |r.sent| ==> SameName(r, id, r.sent[i]);
    }
    forall x: nat | x < |n.nameOf| && x !in n.unsent
      ensures x in n.sent
    {
      assert n.sent[|r.sent|] == id;
      assert x != id ==> x in r.sent;
    }
  }

  lemma {:induction false} PublishOk(r: Registry, name: nat)
    requires RegOk(r)
    ensures RegOk(Publish(r, name))
  {
    hide Claims;
    PublishClaims(r, name);
    EndedKnown(r);
    AnnouncedStays(r, Publish(r, name));
  }

  lemma {:induction false} EndedKnown(r: Registry)
    requires Claims(r)
    ensures forall id :: id in r.ended ==> id < |r.nameOf|
  {}

  lemma {:induction false} AnnounceOk(r: Registry, id: nat)
    requires RegOk(r)
    ensures RegOk(Announce(r, id))
  {
    hide Claims, Announced;
    EndedKnown(r);
    if id in r.unsent {
      ClaimsStay(r, Announce(r, id));
      AnnounceAnnounced(r, id);
    }
  }

  lemma {:induction false} EndOk(r: Registry, id: nat)
    requires RegOk(r)
    ensures RegOk(End(r, id))
  {
    hide Claims;
    EndedKnown(r);
    ClaimsStay(r, End(r, id));
    AnnouncedStays(r, End(r, id));
  }

  lemma {:induction false} UnregisterOk(r: Registry, id: nat)
    requires RegOk(r)
    ensures RegOk(Unregister(r, id))
  {
    hide Claims;
    UnregisterClaims(r, id);
    AnnouncedStays(r, Unregister(r, id));
  }

  // ---- Start ----

  /** What starting a stream does: it is located, and entries of other names are left alone. */
  lemma {:induction false} StartLocates(r: Registry, h: Hls, id: nat)
    requires HlsOk(r, h) && id < |r.nameOf|
    ensures var n := Start(h, id, r.nameOf[id]);
            && HlsOk(r, n)
            && (Live(r, id) ==> Located(n, id, r.nameOf[id]))
            && forall x: nat, m: nat :: m != r.nameOf[id] && Located(h, x, m) ==> Located(n, x, m)
  {
    hide EntryOk, Holds;
    var name := r.nameOf[id];
    if name in h.names {
      StartHolds(r, h.entries[h.names[name]], id, h.grace);
    }
    FreshHolds(r, id, h.grace);
  }

  lemma {:induction false} StartHolds(r: Registry, e: Entry, id: nat, grace: bool)
    requires EntryOk(r, e, grace) && Named(r, id, e.name)
    ensures Live(r, id) && (e.cur == id || (grace && !e.closed && e.next == Some(id))) ==> Holds(e, id)
    ensures grace && !e.closed ==> EntryOk(r, e.(next := Some(id)), grace) && Holds(e.(next := Some(id)), id)
  {}

  lemma {:induction false} FreshHolds(r: Registry, id: nat, grace: bool)
    requires id < |r.nameOf|
    ensures var e := Entry(r.nameOf[id], id, None, false, Pumping); EntryOk(r, e, grace) && Holds(e, id)
  {}

  // ---- The listener's step ----

  /** A live stream of the name being started, other than the one started, has its own announcement ahead. */
  lemma {:induction false} OthersAreAhead(sys: System, id: nat)
    requires RegOk(sys.reg) && Live(sys.reg, id) && sys.cursor < |sys.reg.sent|
    requires SameName(sys.reg, id, sys.reg.sent[sys.cursor]) && id != sys.reg.sent[sys.cursor]
    ensures Coming(sys.reg, sys.cursor + 1, id)
  {
    var r, s := sys.reg, sys.reg.sent[sys.cursor];
    assert Registered(r, id);
    if id !in r.unsent {
      var j :| 0 <= j < |r.sent| && r.sent[j] == id;
      assert SameName(r, r.sent[j], r.sent[sys.cursor]);
    }
  }

  lemma {:induction false} HearTodo(sys: System, listing: seq<nat>)
    requires Sound(sys) && sys.todo != []
    ensures Sound(Hear(sys, listing))
  {
    hide RegOk, Start;
    var t, n := sys.todo[0], Hear(sys, listing);
    assert t in sys.todo;
    StartLocates(sys.reg, sys.hls, t);
    assert sys.todo == [t] + sys.todo[1..];
    assert forall x :: x in sys.todo <==> x == t || x in n.todo;
    hide HlsOk, Located, Coming;
    forall id: nat | Live(n.reg, id)
      ensures Pending(n, id) || Located(n.hls, id, n.reg.nameOf[id])
    {
      assert Pending(sys, id) || Located(sys.hls, id, sys.reg.nameOf[id]);
      if id != t && SameName(sys.reg, t, id) {
        assert Coming(sys.reg, sys.cursor, id);
      }
    }
  }

  lemma {:induction false} HearLag(sys: System, listing: seq<nat>)
    requires Sound(sys) && sys.todo == [] && Lagging(sys) && Lists(sys.reg, listing)
    ensures Sound(Hear(sys, listing))
  {
    hide HlsOk, Located;
    var n := Hear(sys, listing);
    forall id: nat | Live(n.reg, id)
      ensures id in n.todo
    {
      assert Registered(sys.reg, id);
    }
    forall t | t in n.todo
      ensures Registered(sys.reg, t)
    {
      var m :| m in sys.reg.streams && sys.reg.streams[m] == t;
    }
  }

  lemma {:induction false} HearNext(sys: System, listing: seq<nat>)
    requires Sound(sys) && sys.todo == [] && !Lagging(sys) && sys.cursor < |sys.reg.sent|
    ensures Sound(Hear(sys, listing))
  {
    hide Start, RegOk, HlsOk, Located, Coming;
    var s, n := sys.reg.sent[sys.cursor], Hear(sys, listing);
    SentKnown(sys.reg, sys.cursor);
    StartLocates(sys.reg, sys.hls, s);
    forall id: nat | Live(n.reg, id)
      ensures Pending(n, id) || Located(n.hls, id, n.reg.nameOf[id])
    {
      assert Pending(sys, id) || Located(sys.hls, id, sys.reg.nameOf[id]);
      if id != s && SameName(sys.reg, id, s) {
        OthersAreAhead(sys, id);
      } else if id != s && Coming(sys.reg, sys.cursor, id) {
        StillComing(sys.reg, sys.cursor, id);
      }
    }
  }

  lemma {:induction false} SentKnown(r: Registry, i: nat)
    requires RegOk(r) && i < |r.sent|
    ensures r.sent[i] < |r.nameOf|
  {}

  /** Hearing one announcement leaves the others to come. */
  lemma {:induction false} StillComing(r: Registry, cursor: nat, id: nat)
    requires cursor < |r.sent| && Coming(r, cursor, id) && id != r.sent[cursor]
    ensures Coming(r, cursor + 1, id)
  {}

  // ---- Runner steps ----

  lemma {:induction false} TurnedOk(r: Registry, e: Entry, turn: Turn, grace: bool)
    requires EntryOk(r, e, grace)
    ensures var n := Turned(e, turn, e.cur in r.ended, grace);
            EntryOk(r, n, grace) && n.name == e.name && forall id: nat :: Live(r, id) && Holds(e, id) ==> Holds(n, id)
  {}

  lemma {:induction false} RunKeeps(sys: System, i: nat, turn: Turn)
    requires Sound(sys)
    ensures Sound(sys.(hls := Run(sys.hls, i, turn, sys.reg.ended)))
  {
    hide RegOk, Coming, Turned;
    var n := sys.(hls := Run(sys.hls, i, turn, sys.reg.ended));
    if i < |sys.hls.entries| {
      TurnedOk(sys.reg, sys.hls.entries[i], turn, sys.hls.grace);
    }
    forall id: nat | Live(n.reg, id)
      ensures Pending(n, id) || Located(n.hls, id, n.reg.nameOf[id])
    {
      assert Pending(sys, id) || Located(sys.hls, id, sys.reg.nameOf[id]);
    }
  }

  // ---- Registry steps, for the whole system ----

  lemma {:induction false} HlsStays(r: Registry, n: Registry, h: Hls)
    requires HlsOk(r, h) && r.nameOf <= n.nameOf && r.ended <= n.ended
    ensures HlsOk(n, h)
  {
    forall i | 0 <= i < |h.entries|
      ensures EntryOk(n, h.entries[i], h.grace)
    {
      assert EntryOk(r, h.entries[i], h.grace);
    }
  }

  /** Nothing that was coming is passed over, and what is new is still to come. */
  ghost predicate Steps(r: Registry, n: Registry, cursor: nat) {
    && r.nameOf <= n.nameOf && r.ended <= n.ended && |r.sent| <= |n.sent|
    && forall id: nat :: Live(n, id) ==> Coming(n, cursor, id) || (Live(r, id) && !Coming(r, cursor, id))
  }

  lemma {:induction false} RegistryStep(sys: System, n: Registry)
    requires Sound(sys) && RegOk(n) && Steps(sys.reg, n, sys.cursor)
    ensures Sound(sys.(reg := n))
  {
    hide RegOk, Coming, HlsOk, Located;
    HlsStays(sys.reg, n, sys.hls);
    var next := sys.(reg := n);
    forall t, id: nat | t in next.todo && Live(n, id) && SameName(n, t, id) && id != t
      ensures Coming(n, sys.cursor, id)
    {
      assert Live(sys.reg, id) ==> SameName(sys.reg, t, id);
    }
    forall id: nat | Live(n, id)
      ensures Pending(next, id) || Located(next.hls, id, n.nameOf[id])
    {
      if !Coming(n, sys.cursor, id) {
        assert Pending(sys, id) || Located(sys.hls, id, sys.reg.nameOf[id]);
      }
    }
  }

  lemma {:induction false} AnnounceSteps(r: Registry, id: nat, cursor: nat)
    requires cursor <= |r.sent|
    ensures Steps(r, Announce(r, id), cursor)
  {
    var n := Announce(r, id);
    forall x: nat | Live(n, x)
      ensures Coming(n, cursor, x) || (Live(r, x) && !Coming(r, cursor, x))
    {
      if x == id && id in r.unsent {
        assert n.sent[|r.sent|] == id;
      } else if x !in r.unsent && Coming(r, cursor, x) {
        var k :| cursor <= k < |r.sent| && r.sent[k] == x;
        assert n.sent[k] == x;
      }
    }
  }

  lemma {:induction false} RegistryKeeps(sys: System, op: Op)
    requires Sound(sys) && (op.OpPublish? || op.OpAnnounce? || op.OpEnd? || op.OpUnregister?)
    ensures Sound(Apply(sys, op))
  {
    hide RegOk, HlsOk, Located, Kept;
    match op
    case OpPublish(name) =>
      PublishOk(sys.reg, name);
      assert Steps(sys.reg, Publish(sys.reg, name), sys.cursor);
      RegistryStep(sys, Publish(sys.reg, name));
    case OpAnnounce(id) =>
      AnnounceOk(sys.reg, id);
      AnnounceSteps(sys.reg, id, sys.cursor);
      RegistryStep(sys, Announce(sys.reg, id));
    case OpEnd(id) =>
      EndOk(sys.reg, id);
      assert Steps(sys.reg, End(sys.reg, id), sys.cursor);
      RegistryStep(sys, End(sys.reg, id));
    case OpUnregister(id) =>
      UnregisterOk(sys.reg, id);
      assert Steps(sys.reg, Unregister(sys.reg, id), sys.cursor);
      RegistryStep(sys, Unregister(sys.reg, id));
  }

  /** Every step of every part keeps every live publish pending or located. */
  lemma {:induction false} StepSound(sys: System, op: Op)
    requires Sound(sys) && OpOk(sys, op)
    ensures Sound(Apply(sys, op))
  {
    hide Sound, Lists, Start, Run;
    match op
    case OpRun(i, turn) => RunKeeps(sys, i, turn);
    case OpHear(listing) =>
      if sys.todo != [] {
        HearTodo(sys, listing);
      } else if Lagging(sys) {
        HearLag(sys, listing);
      } else if sys.cursor < |sys.reg.sent| {
        HearNext(sys, listing);
      }
    case _ => RegistryKeeps(sys, op);
  }

  /** The router starts: it subscribes first, and then lists. */
  function Boot(r: Registry, grace: bool, listing: seq<nat>): System {
    System(r, Hls(grace, map[], []), |r.sent|, listing)
  }

  lemma {:induction false} BootSound(r: Registry, grace: bool, listing: seq<nat>)
    requires RegOk(r) && Lists(r, listing)
    ensures Sound(Boot(r, grace, listing))
  {
    var sys := Boot(r, grace, listing);
    forall id: nat | Live(r, id)
      ensures id in listing
    {
      assert Registered(r, id);
    }
    forall t | t in listing
      ensures Registered(r, t)
    {
      var m :| m in r.streams && r.streams[m] == t;
    }
  }

  ghost predicate OpsOk(sys: System, ops: seq<Op>)
    decreases |ops|
  {
    ops != [] ==> OpOk(sys, ops[0]) && OpsOk(Apply(sys, ops[0]), ops[1..])
  }

  function ApplyAll(sys: System, ops: seq<Op>): System
    decreases |ops|
  {
    if ops == [] then sys else ApplyAll(Apply(sys, ops[0]), ops[1..])
  }

  /** Over any interleaving of publishers, listener, runners and deadlines. */
  lemma {:induction false} RunSound(sys: System, ops: seq<Op>)
    requires Sound(sys) && OpsOk(sys, ops)
    ensures Sound(ApplyAll(sys, ops))
    decreases |ops|
  {
    hide Sound, Apply, OpOk;
    if ops != [] {
      StepSound(sys, ops[0]);
      RunSound(Apply(sys, ops[0]), ops[1..]);
    }
  }

  /** Once everything published is announced and heard, every live stream has its entry. */
  lemma {:induction false} AllHeardMeansLocated(sys: System, id: nat)
    requires Sound(sys) && Live(sys.reg, id)
    requires sys.reg.unsent == {} && sys.cursor == |sys.reg.sent| && sys.todo == []
    ensures Located(sys.hls, id, sys.reg.nameOf[id])
  {
    hide RegOk, HlsOk, Located;
    assert !Pending(sys, id);
  }

  // ---- From the very start ----

  const NOBODY := Registry(map[], [], {}, {}, [])

  function RegStep(r: Registry, op: Op): Registry {
    match op
    case OpPublish(name) => Publish(r, name)
    case OpAnnounce(id) => Announce(r, id)
    case OpEnd(id) => End(r, id)
    case OpUnregister(id) => Unregister(r, id)
    case _ => r
  }

  /** What publishers do before the router starts. */
  function RegRun(r: Registry, ops: seq<Op>): Registry
    decreases |ops|
  {
    if ops == [] then r else RegRun(RegStep(r, ops[0]), ops[1..])
  }

  lemma {:induction false} NobodyOk()
    ensures RegOk(NOBODY)
  {}

  lemma {:induction false} RegRunOk(r: Registry, ops: seq<Op>)
    requires RegOk(r)
    ensures RegOk(RegRun(r, ops))
    decreases |ops|
  {
    hide RegOk, Publish, Announce, End, Unregister;
    if ops != [] {
      match ops[0] {
        case OpPublish(name) => PublishOk(r, name);
        case OpAnnounce(id) => AnnounceOk(r, id);
        case OpEnd(id) => EndOk(r, id);
        case OpUnregister(id) => UnregisterOk(r, id);
        case _ =>
      }
      RegRunOk(RegStep(r, ops[0]), ops[1..]);
    }
  }

  /**
    From an empty registry: whatever publishers did before the router started, and whatever happened since, no live
    publish is lost; and with nothing left to announce or to hear, each has its entry.
   */
  lemma {:induction false} NoPublishIsLost(before: seq<Op>, grace: bool, listing: seq<nat>, ops: seq<Op>)
    requires Lists(RegRun(NOBODY, before), listing)
    requires OpsOk(Boot(RegRun(NOBODY, before), grace, listing), ops)
    ensures var sys := ApplyAll(Boot(RegRun(NOBODY, before), grace, listing), ops);
            && Sound(sys)
            && (sys.reg.unsent == {} && sys.cursor == |sys.reg.sent| && sys.todo == [] ==>
                forall id: nat :: Live(sys.reg, id) ==> Located(sys.hls, id, sys.reg.nameOf[id]))
  {
    hide RegOk, RegRun, Boot, Lists, OpsOk, Sound, ApplyAll, Located;
    NobodyOk();
    RegRunOk(NOBODY, before);
    BootSound(RegRun(NOBODY, before), grace, listing);
    RunSound(Boot(RegRun(NOBODY, before), grace, listing), ops);
    var sys := ApplyAll(Boot(RegRun(NOBODY, before), grace, listing), ops);
    if sys.reg.unsent == {} && sys.cursor == |sys.reg.sent| && sys.todo == [] {
      forall id: nat | Live(sys.reg, id)
        ensures Located(sys.hls, id, sys.reg.nameOf[id])
      {
        AllHeardMeansLocated(sys, id);
      }
    }
  }
}
