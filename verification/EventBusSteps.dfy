/** Publishers hold only the bus's read lock, so several publications may be under way at
    once, each offering its event to one channel after another. Seen from any one channel
    such a run is still a run of EventBus, and every publication reaches every subscriber of
    its room once. Models internal/infrastructure/memory/room_event_bus.go. */
module EventBusSteps {
  import opened EventBus

  /** A publication under way, and the channels it has yet to try. */
  datatype Publication = Publication(event: Event, left: set<nat>)

  datatype State = State(bus: Bus, publications: seq<Publication>)

  /** Taking the read lock, one send, or an operation other than publishing. */
  datatype Act = Begin(event: Event) | Send(pub: nat, id: nat) | Do(op: Op)

  predicate Idle(s: State) {
    forall p :: 0 <= p < |s.publications| ==> s.publications[p].left == {}
  }

  /** Subscribing and cancelling take the write lock; reading a channel takes none. */
  predicate Enabled(s: State, act: Act) {
    match act
    case Begin(_) => true
    case Send(pub, id) => pub < |s.publications| && id in s.publications[pub].left
    case Do(op) => !op.Publish? && Possible(s.bus, op) && (op.Receive? || Idle(s))
  }

  function OfferOne(chans: seq<Chan>, id: nat, e: Event): seq<Chan> {
    if 1 <= id <= |chans| then chans[id - 1 := Offer(chans[id - 1], e)] else chans
  }

  function Next(s: State, act: Act): State
    requires Enabled(s, act)
  {
    match act
    case Begin(e) =>
      s.(publications := s.publications + [Publication(e, Registered(s.bus, e.roomId))])
    case Send(pub, id) =>
      var p := s.publications[pub];
      State(s.bus.(chans := OfferOne(s.bus.chans, id, p.event)), s.publications[pub := p.(left := p.left - {id})])
    case Do(op) =>
      s.(bus := BusStep(s.bus, op))
  }

  // ---------- Interleavings ----------

  ghost predicate Interleaving(acts: seq<Act>)
    decreases |acts|, 0
  {
    acts == [] || (Interleaving(acts[..|acts| - 1]) && Enabled(Reached(acts[..|acts| - 1]), acts[|acts| - 1]))
  }

  ghost function Reached(acts: seq<Act>): State
    requires Interleaving(acts)
    decreases |acts|, 1
  {
    if acts == [] then State(Bus([], map[]), []) else Next(Reached(acts[..|acts| - 1]), acts[|acts| - 1])
  }

  /** The run as channel id sees it: a publication happens when it tries that channel. */
  ghost function Seen(acts: seq<Act>, id: nat): seq<Op>
    requires Interleaving(acts)
  {
    if acts == [] then []
    else
      var front := acts[..|acts| - 1];
      match acts[|acts| - 1]
      case Begin(_) => Seen(front, id)
      case Send(pub, to) =>
        if to == id then Seen(front, id) + [Publish(Reached(front).publications[pub].event)] else Seen(front, id)
      case Do(op) => Seen(front, id) + [op]
  }

  /** The events channel id was tried with, in order. */
  ghost function SentTo(acts: seq<Act>, id: nat): seq<Event>
    requires Interleaving(acts)
  {
    if acts == [] then []
    else
      var front := acts[..|acts| - 1];
      match acts[|acts| - 1]
      case Send(pub, to) =>
        if to == id then SentTo(front, id) + [Reached(front).publications[pub].event] else SentTo(front, id)
      case _ => SentTo(front, id)
  }

  /** The events whose publication began while id was registered for their room. */
  ghost function BegunFor(acts: seq<Act>, id: nat): seq<Event>
    requires Interleaving(acts)
  {
    if acts == [] then []
    else
      var front := acts[..|acts| - 1];
      match acts[|acts| - 1]
      case Begin(e) =>
        if id in Registered(Reached(front).bus, e.roomId) then BegunFor(front, id) + [e] else BegunFor(front, id)
      case _ => BegunFor(front, id)
  }

  // ---------- One channel's view ----------

  ghost predicate SameShape(c: Chan, d: Chan) {
    c.room == d.room && c.open == d.open
  }

  ghost predicate SameFor(bus: Bus, seen: Bus, id: nat) {
    && bus.registry == seen.registry && |bus.chans| == |seen.chans|
    && (forall i :: 0 <= i < |bus.chans| ==> SameShape(bus.chans[i], seen.chans[i]))
    && (1 <= id <= |bus.chans| ==> bus.chans[id - 1] == seen.chans[id - 1])
  }

  /** A channel is tried only while it is registered for the room of the event. */
  ghost predicate LeftRegistered(s: State) {
    forall p, id :: 0 <= p < |s.publications| && id in s.publications[p].left ==>
      id in Registered(s.bus, s.publications[p].event.roomId)
  }

  lemma NextLeftRegistered(s: State, act: Act)
    requires LeftRegistered(s) && Enabled(s, act)
    ensures LeftRegistered(Next(s, act))
  {}

  lemma SameStep(bus: Bus, seen: Bus, id: nat, op: Op)
    requires SameFor(bus, seen, id) && !op.Publish? && Possible(bus, op)
    ensures Possible(seen, op) && SameFor(BusStep(bus, op), BusStep(seen, op), id)
  {}

  lemma SameElsewhere(bus: Bus, seen: Bus, id: nat, to: nat, e: Event)
    requires SameFor(bus, seen, id) && to != id
    ensures SameFor(bus.(chans := OfferOne(bus.chans, to, e)), seen, id)
  {}

  lemma SameHere(bus: Bus, seen: Bus, id: nat, e: Event)
    requires SameFor(bus, seen, id) && RegistryKept(seen) && id in Registered(bus, e.roomId)
    ensures SameFor(bus.(chans := OfferOne(bus.chans, id, e)), BusStep(seen, Publish(e)), id)
  {}

  lemma RunSnoc(ops: seq<Op>, op: Op)
    requires Run(ops) && Possible(BusAfter(ops), op)
    ensures Run(ops + [op]) && BusAfter(ops + [op]) == BusStep(BusAfter(ops), op)
  {
    assert (ops + [op])[..|ops|] == ops;
  }

  /** An interleaving is, for each channel, a run of whole publications. */
  lemma {:induction false} SeenRefines(acts: seq<Act>, id: nat)
    requires Interleaving(acts)
    ensures LeftRegistered(Reached(acts))
    ensures Run(Seen(acts, id)) && SameFor(Reached(acts).bus, BusAfter(Seen(acts, id)), id)
  {
    hide BusStep, SameFor, LeftRegistered, Possible, OfferOne;
    if acts == [] {
      NothingSeen(id);
    } else {
      var front, last := acts[..|acts| - 1], acts[|acts| - 1];
      SeenRefines(front, id);
      NextLeftRegistered(Reached(front), last);
      SeenStep(Reached(front), last, Seen(front, id), id);
    }
  }

  lemma NothingSeen(id: nat)
    ensures SameFor(Bus([], map[]), BusAfter([]), id) && LeftRegistered(State(Bus([], map[]), []))
  {}

  lemma SeenStep(s: State, act: Act, seen: seq<Op>, id: nat)
    requires LeftRegistered(s) && Enabled(s, act) && Run(seen) && SameFor(s.bus, BusAfter(seen), id)
    ensures var ops := match act
                       case Begin(_) => seen
                       case Send(pub, to) => if to == id then seen + [Publish(s.publications[pub].event)] else seen
                       case Do(op) => seen + [op];
            Run(ops) && SameFor(Next(s, act).bus, BusAfter(ops), id)
  {
    hide Run, BusAfter, BusStep, SameFor, OfferOne, Registered;
    match act
    case Begin(_) =>
    case Send(pub, to) =>
      var e := s.publications[pub].event;
      if to == id {
        BusRunKept(seen);
        SameHere(s.bus, BusAfter(seen), id, e);
        RunSnoc(seen, Publish(e));
      } else {
        SameElsewhere(s.bus, BusAfter(seen), id, to, e);
      }
    case Do(op) =>
      SameStep(s.bus, BusAfter(seen), id, op);
      RunSnoc(seen, op);
  }

  // ---------- What a subscriber gets ----------

  lemma ChannelsGrow(s: State, act: Act)
    requires Enabled(s, act)
    ensures |Next(s, act).bus.chans| == |s.bus.chans| + (if act.Do? && act.op.Subscribe? then 1 else 0)
  {}

  lemma RegisteredExist(acts: seq<Act>, room: string, id: nat)
    requires Interleaving(acts) && id in Registered(Reached(acts).bus, room)
    ensures 1 <= id <= |Reached(acts).bus.chans| == Subscriptions(Seen(acts, id))
    ensures Active(Seen(acts, id), id) && SubscribedRoom(Seen(acts, id), id) == room
  {
    hide Run, BusAfter, Active, Offered, Subsequence, Subscriptions, SubscribedRoom, Reached, Seen, Interleaving;
    SeenRefines(acts, id);
    BusRunKept(Seen(acts, id));
    assert ChannelKept(Seen(acts, id), BusAfter(Seen(acts, id)), id);
  }

  lemma SendReaches(acts: seq<Act>, pub: nat, id: nat)
    requires Interleaving(acts) && Enabled(Reached(acts), Send(pub, id))
    ensures id in Registered(Reached(acts).bus, Reached(acts).publications[pub].event.roomId)
  {
    hide Run, BusAfter, SameFor, Reached, Seen, Interleaving;
    SeenRefines(acts, id);
  }

  lemma {:induction false} NotYetSent(acts: seq<Act>, id: nat)
    requires Interleaving(acts) && id > |Reached(acts).bus.chans|
    ensures SentTo(acts, id) == [] && BegunFor(acts, id) == []
  {
    hide Next, Registered;
    if acts != [] {
      var front, last := acts[..|acts| - 1], acts[|acts| - 1];
      ChannelsGrow(Reached(front), last);
      NotYetSent(front, id);
      if last.Send? && last.id == id {
        SendReaches(front, last.pub, id);
        RegisteredExist(front, Reached(front).publications[last.pub].event.roomId, id);
      } else if last.Begin? && id in Registered(Reached(front).bus, last.event.roomId) {
        RegisteredExist(front, last.event.roomId, id);
      }
    }
  }

  lemma SubscriptionsSeen(acts: seq<Act>, id: nat)
    requires Interleaving(acts)
    ensures Subscriptions(Seen(acts, id)) == |Reached(acts).bus.chans|
  {
    hide Run, BusAfter, Active, Offered, Subsequence, Subscriptions, SubscribedRoom, Reached, Seen, Interleaving;
    SeenRefines(acts, id);
    BusRunKept(Seen(acts, id));
  }

  lemma OfferedNew(ops: seq<Op>, room: string, id: nat)
    requires id == Subscriptions(ops) + 1
    ensures Subscriptions(ops + [Subscribe(room)]) == id && Offered(ops + [Subscribe(room)], id) == []
  {
    assert (ops + [Subscribe(room)])[..|ops|] == ops;
  }

  /** What is tried on a subscribed channel is what its own view says was offered to it. */
  lemma {:induction false} OfferedIsSent(acts: seq<Act>, id: nat)
    requires Interleaving(acts) && 1 <= id <= |Reached(acts).bus.chans|
    ensures Subscriptions(Seen(acts, id)) == |Reached(acts).bus.chans|
    ensures Offered(Seen(acts, id), id) == SentTo(acts, id)
  {
    hide Next, Registered, Active, Offered, Subscriptions, SubscribedRoom;
    var front, last := acts[..|acts| - 1], acts[|acts| - 1];
    SubscriptionsSeen(acts, id);
    SubscriptionsSeen(front, id);
    ChannelsGrow(Reached(front), last);
    if id > |Reached(front).bus.chans| {
      NotYetSent(front, id);
      OfferedNew(Seen(front, id), last.op.room, id);
    } else {
      OfferedIsSent(front, id);
      if last.Send? && last.id == id {
        var e := Reached(front).publications[last.pub].event;
        SendReaches(front, last.pub, id);
        RegisteredExist(front, e.roomId, id);
        RunGrows(Seen(front, id), Publish(e), id);
      } else if last.Do? {
        RunGrows(Seen(front, id), last.op, id);
      }
    }
  }

  /** Whatever publishers, readers, subscriptions and cancellations interleave: what a
      subscriber has received and still has buffered is an in-order part of the events tried
      on it, its buffer stays within the capacity, and it is open exactly while registered. */
  lemma InterleavingKept(acts: seq<Act>, id: nat)
    requires Interleaving(acts) && 1 <= id <= |Reached(acts).bus.chans|
    ensures var c := Reached(acts).bus.chans[id - 1];
            && |c.buffer| <= CAPACITY
            && Subsequence(c.received + c.buffer, SentTo(acts, id))
            && (c.open <==> id in Registered(Reached(acts).bus, c.room))
  {
    hide Run, BusAfter, Active, Offered, Subsequence, Subscriptions, SubscribedRoom, Reached, Seen, SentTo,
      Interleaving;
    SeenRefines(acts, id);
    BusRunKept(Seen(acts, id));
    OfferedIsSent(acts, id);
    assert ChannelKept(Seen(acts, id), BusAfter(Seen(acts, id)), id);
  }

  // ---------- Every publication reaches every subscriber once ----------

  ghost function Due(p: Publication, id: nat): multiset<Event> {
    if id in p.left then multiset{p.event} else multiset{}
  }

  /** The events of publications that have yet to try channel id. */
  ghost function Owed(publications: seq<Publication>, id: nat): multiset<Event> {
    if publications == [] then multiset{}
    else Owed(publications[..|publications| - 1], id) + Due(publications[|publications| - 1], id)
  }

  lemma OwedSnoc(publications: seq<Publication>, p: Publication, id: nat)
    ensures Owed(publications + [p], id) == Owed(publications, id) + Due(p, id)
  {
    hide Due;
    assert (publications + [p])[..|publications|] == publications;
  }

  lemma Swapped(a: multiset<Event>, b: multiset<Event>, c: multiset<Event>, d: multiset<Event>, x: multiset<Event>)
    requires a + b == c + d
    ensures (a + x) + b == (c + x) + d
  {
    assert (a + x) + b == (a + b) + x;
  }

  lemma {:induction false} OwedChanged(publications: seq<Publication>, k: nat, p: Publication, id: nat)
    requires k < |publications|
    ensures Owed(publications[k := p], id) + Due(publications[k], id) == Owed(publications, id) + Due(p, id)
    decreases |publications|
  {
    hide Due;
    var n := |publications| - 1;
    var front, changed := publications[..n], publications[k := p];
    if k == n {
      assert changed[..n] == front;
    } else {
      OwedChanged(front, k, p, id);
      assert changed[..n] == front[k := p] && front[k] == publications[k];
      Swapped(Owed(changed[..n], id), Due(publications[k], id), Owed(front, id), Due(p, id), Due(publications[n], id));
    }
  }

  lemma {:induction false} NothingOwed(publications: seq<Publication>, id: nat)
    requires forall p :: 0 <= p < |publications| ==> publications[p].left == {}
    ensures Owed(publications, id) == multiset{}
  {
    if publications != [] {
      NothingOwed(publications[..|publications| - 1], id);
    }
  }

  lemma DueLess(p: Publication, to: nat, id: nat)
    requires to in p.left
    ensures Due(p.(left := p.left - {to}), id) == if to == id then multiset{} else Due(p, id)
    ensures Due(p, to) == multiset{p.event}
  {}

  lemma MovedOver(sent: multiset<Event>, owed: multiset<Event>, left: multiset<Event>, e: Event)
    requires left + multiset{e} == owed + multiset{}
    ensures (sent + multiset{e}) + left == sent + owed
  {
    assert owed == owed + multiset{};
  }

  lemma Cancelled(a: multiset<Event>, b: multiset<Event>, x: multiset<Event>)
    requires a + x == b + x
    ensures a == b
  {
    assert a == (a + x) - x && b == (b + x) - x;
  }

  ghost predicate TriedOrOwed(acts: seq<Act>, id: nat)
    requires Interleaving(acts)
  {
    multiset(SentTo(acts, id)) + Owed(Reached(acts).publications, id) == multiset(BegunFor(acts, id))
  }

  lemma BegunCounted(acts: seq<Act>, id: nat)
    requires Interleaving(acts) && acts != [] && acts[|acts| - 1].Begin? && TriedOrOwed(acts[..|acts| - 1], id)
    ensures TriedOrOwed(acts, id)
  {
    hide Registered, Owed;
    var front, e := acts[..|acts| - 1], acts[|acts| - 1].event;
    var s := Reached(front);
    OwedSnoc(s.publications, Publication(e, Registered(s.bus, e.roomId)), id);
  }

  /** What one send does to the reading of a run. */
  lemma SendUnfolds(acts: seq<Act>, id: nat)
    requires Interleaving(acts) && acts != [] && acts[|acts| - 1].Send?
    ensures var front, Send(pub, to) := acts[..|acts| - 1], acts[|acts| - 1];
            && pub < |Reached(front).publications|
            && var p := Reached(front).publications[pub];
               && to in p.left
               && Reached(acts).publications == Reached(front).publications[pub := p.(left := p.left - {to})]
               && BegunFor(acts, id) == BegunFor(front, id)
               && SentTo(acts, id) == if to == id then SentTo(front, id) + [p.event] else SentTo(front, id)
  {
    hide OfferOne;
  }

  lemma SendCounted(acts: seq<Act>, id: nat)
    requires Interleaving(acts) && acts != [] && acts[|acts| - 1].Send? && TriedOrOwed(acts[..|acts| - 1], id)
    ensures TriedOrOwed(acts, id)
  {
    hide Owed, Due, Reached, SentTo, BegunFor, Enabled;
    var front, last := acts[..|acts| - 1], acts[|acts| - 1];
    SendUnfolds(acts, id);
    var publications := Reached(front).publications;
    var p := publications[last.pub];
    var q := p.(left := p.left - {last.id});
    OwedChanged(publications, last.pub, q, id);
    DueLess(p, last.id, id);
    if last.id == id {
      MovedOver(multiset(SentTo(front, id)), Owed(publications, id), Owed(publications[last.pub := q], id), p.event);
    } else {
      Cancelled(Owed(publications[last.pub := q], id), Owed(publications, id), Due(p, id));
    }
  }

  /** Each event published while a subscriber is registered is tried on its channel exactly
      once: it has been, or its publication is still under way. */
  lemma {:induction false} TriedOnce(acts: seq<Act>, id: nat)
    requires Interleaving(acts)
    ensures TriedOrOwed(acts, id)
    ensures Idle(Reached(acts)) ==> multiset(SentTo(acts, id)) == multiset(BegunFor(acts, id))
  {
    hide Registered, BusStep;
    if acts != [] {
      var last := acts[|acts| - 1];
      TriedOnce(acts[..|acts| - 1], id);
      if last.Begin? {
        BegunCounted(acts, id);
      } else if last.Send? {
        SendCounted(acts, id);
      }
    }
    if Idle(Reached(acts)) {
      NothingOwed(Reached(acts).publications, id);
    }
  }
}
