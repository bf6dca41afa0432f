/** The in-memory event bus: bounded channels per subscriber, lossy publication, and
    cancellation by handle, each operation in one step. EventBusSteps lets publications
    overlap. Models internal/infrastructure/memory/room_event_bus.go. */
module EventBus {
  datatype Event = Event(roomId: string, kind: string, stamp: int)

  const CAPACITY: nat := 16

  // ---------- The bus as a value ----------

  /** A subscriber's channel; received is what its reader has taken so far. */
  datatype Chan = Chan(room: string, buffer: seq<Event>, open: bool, received: seq<Event>)

  /** Channel i was handed out with id i + 1; the registry lists the ids of each room. */
  datatype Bus = Bus(chans: seq<Chan>, registry: map<string, set<nat>>)

  datatype Op = Publish(event: Event) | Subscribe(room: string) | Cancel(room: string, id: nat) | Receive(id: nat)

  function Registered(bus: Bus, room: string): set<nat> {
    if room in bus.registry then bus.registry[room] else {}
  }

  /** A full channel loses the event. */
  function Offer(c: Chan, e: Event): Chan {
    if |c.buffer| < CAPACITY then c.(buffer := c.buffer + [e]) else c
  }

  function OfferTo(chans: seq<Chan>, ids: set<nat>, e: Event): seq<Chan> {
    seq(|chans|, i requires 0 <= i < |chans| => if i + 1 in ids then Offer(chans[i], e) else chans[i])
  }

  function Taken(c: Chan): Chan {
    if c.buffer == [] then c else c.(buffer := c.buffer[1..], received := c.received + [c.buffer[0]])
  }

  function Unregistered(registry: map<string, set<nat>>, room: string, id: nat): map<string, set<nat>>
    requires room in registry
  {
    if registry[room] - {id} == {} then registry - {room} else registry[room := registry[room] - {id}]
  }

  /** Handles of channels the bus has handed out. */
  predicate Possible(bus: Bus, op: Op) {
    match op
    case Cancel(room, id) => 1 <= id <= |bus.chans| && bus.chans[id - 1].room == room
    case Receive(id) => 1 <= id <= |bus.chans|
    case _ => true
  }

  function BusStep(bus: Bus, op: Op): Bus
    requires Possible(bus, op)
  {
    match op
    case Publish(e) =>
      bus.(chans := OfferTo(bus.chans, Registered(bus, e.roomId), e))
    case Subscribe(room) =>
      Bus(bus.chans + [Chan(room, [], true, [])],
          bus.registry[room := Registered(bus, room) + {|bus.chans| + 1}])
    case Cancel(room, id) =>
      if room !in bus.registry then bus
      else if id in bus.registry[room] then
        Bus(bus.chans[id - 1 := bus.chans[id - 1].(open := false)], Unregistered(bus.registry, room, id))
      else bus.(registry := Unregistered(bus.registry, room, id))
    case Receive(id) =>
      bus.(chans := bus.chans[id - 1 := Taken(bus.chans[id - 1])])
  }

  // ---------- Runs, and what their operations alone say about a subscriber ----------

  ghost predicate Run(ops: seq<Op>)
    decreases |ops|, 0
  {
    ops == [] || (Run(ops[..|ops| - 1]) && Possible(BusAfter(ops[..|ops| - 1]), ops[|ops| - 1]))
  }

  ghost function BusAfter(ops: seq<Op>): Bus
    requires Run(ops)
    decreases |ops|, 1
  {
    if ops == [] then Bus([], map[]) else BusStep(BusAfter(ops[..|ops| - 1]), ops[|ops| - 1])
  }

  ghost function Subscriptions(ops: seq<Op>): nat {
    if ops == [] then 0
    else Subscriptions(ops[..|ops| - 1]) + (if ops[|ops| - 1].Subscribe? then 1 else 0)
  }

  /** The room of the id-th subscription. */
  ghost function SubscribedRoom(ops: seq<Op>, id: nat): string
    requires 1 <= id <= Subscriptions(ops)
  {
    var front, last := ops[..|ops| - 1], ops[|ops| - 1];
    if id <= Subscriptions(front) then SubscribedRoom(front, id) else last.room
  }

  /** Subscribed and not cancelled since. */
  ghost predicate Active(ops: seq<Op>, id: nat) {
    if ops == [] then false
    else
      var front, last := ops[..|ops| - 1], ops[|ops| - 1];
      if last.Subscribe? && id == Subscriptions(ops) then true
      else Active(front, id) && !(last.Cancel? && last.id == id)
  }

  /** The events published in the subscriber's room while it was active. */
  ghost function Offered(ops: seq<Op>, id: nat): seq<Event>
    requires 1 <= id <= Subscriptions(ops)
  {
    var front, last := ops[..|ops| - 1], ops[|ops| - 1];
    if id > Subscriptions(front) then []
    else if last.Publish? && Active(front, id) && last.event.roomId == SubscribedRoom(front, id) then
      Offered(front, id) + [last.event]
    else Offered(front, id)
  }

  ghost predicate Subsequence(a: seq<Event>, b: seq<Event>)
    decreases |b|
  {
    if b == [] then a == []
    else
      || Subsequence(a, b[..|b| - 1])
      || (a != [] && a[|a| - 1] == b[|b| - 1] && Subsequence(a[..|a| - 1], b[..|b| - 1]))
  }

  // ---------- The invariant of every run ----------

  ghost predicate ChannelKept(ops: seq<Op>, bus: Bus, id: nat)
    requires 1 <= id <= Subscriptions(ops) && |bus.chans| == Subscriptions(ops)
  {
    var c := bus.chans[id - 1];
    && c.room == SubscribedRoom(ops, id)
    && c.open == Active(ops, id)
    && (c.open <==> id in Registered(bus, c.room))
    && |c.buffer| <= CAPACITY
    && Subsequence(c.received + c.buffer, Offered(ops, id))
  }

  /** The registry lists only channels of its rooms, and no empty rooms. */
  ghost predicate RegistryKept(bus: Bus) {
    forall room :: room in bus.registry ==>
      && bus.registry[room] != {}
      && forall id :: id in bus.registry[room] ==> 1 <= id <= |bus.chans| && bus.chans[id - 1].room == room
  }

  ghost predicate BusKept(ops: seq<Op>, bus: Bus) {
    && |bus.chans| == Subscriptions(ops)
    && RegistryKept(bus)
    && forall id :: 1 <= id <= Subscriptions(ops) ==> ChannelKept(ops, bus, id)
  }

  lemma SubsequenceSnoc(a: seq<Event>, b: seq<Event>, e: Event)
    requires Subsequence(a, b)
    ensures Subsequence(a, b + [e]) && Subsequence(a + [e], b + [e])
  {
    assert (b + [e])[..|b|] == b && (a + [e])[..|a|] == a;
  }

  lemma RegistryStep(bus: Bus, op: Op)
    requires RegistryKept(bus) && Possible(bus, op)
    ensures RegistryKept(BusStep(bus, op))
  {}

  /** What one more operation adds to the reading of a run. */
  lemma RunGrows(front: seq<Op>, op: Op, id: nat)
    requires 1 <= id <= Subscriptions(front)
    ensures var ops := front + [op];
            && Subscriptions(ops) == Subscriptions(front) + (if op.Subscribe? then 1 else 0)
            && SubscribedRoom(ops, id) == SubscribedRoom(front, id)
            && Active(ops, id) == (Active(front, id) && !(op.Cancel? && op.id == id))
            && Offered(ops, id) ==
               (if op.Publish? && Active(front, id) && op.event.roomId == SubscribedRoom(front, id)
                then Offered(front, id) + [op.event] else Offered(front, id))
  {
    assert (front + [op])[..|front|] == front;
  }

  lemma ContentsStep(c: Chan, d: Chan, op: Op, offered: seq<Event>)
    requires |c.buffer| <= CAPACITY && Subsequence(c.received + c.buffer, offered)
    ensures d == Taken(c) ==> |d.buffer| <= CAPACITY && Subsequence(d.received + d.buffer, offered)
    ensures op.Publish? && d == Offer(c, op.event) ==>
              |d.buffer| <= CAPACITY && Subsequence(d.received + d.buffer, offered + [op.event])
  {
    if op.Publish? {
      SubsequenceSnoc(c.received + c.buffer, offered, op.event);
      assert c.received + (c.buffer + [op.event]) == (c.received + c.buffer) + [op.event];
    }
    if c.buffer != [] {
      assert (c.received + [c.buffer[0]]) + c.buffer[1..] == c.received + c.buffer;
    }
  }

  lemma ChannelStep(front: seq<Op>, bus: Bus, op: Op, id: nat)
    requires BusKept(front, bus) && Possible(bus, op) && 1 <= id <= Subscriptions(front)
    ensures Subscriptions(front + [op]) == |BusStep(bus, op).chans|
    ensures ChannelKept(front + [op], BusStep(bus, op), id)
  {
    hide Subscriptions, SubscribedRoom, Active, Offered, Subsequence, Offer, Taken;
    RunGrows(front, op, id);
    assert ChannelKept(front, bus, id);
    var c, d := bus.chans[id - 1], BusStep(bus, op).chans[id - 1];
    ContentsStep(c, d, op, Offered(front, id));
    Unchanged(c, op);
  }

  lemma Unchanged(c: Chan, op: Op)
    ensures op.Publish? ==> Offer(c, op.event).room == c.room && Offer(c, op.event).open == c.open
    ensures Taken(c).room == c.room && Taken(c).open == c.open
  {}

  lemma NewChannelStep(front: seq<Op>, bus: Bus, room: string)
    requires BusKept(front, bus)
    ensures var ops := front + [Subscribe(room)];
            && Subscriptions(ops) == |BusStep(bus, Subscribe(room)).chans| == |bus.chans| + 1
            && ChannelKept(ops, BusStep(bus, Subscribe(room)), |bus.chans| + 1)
  {
    var ops := front + [Subscribe(room)];
    assert ops[..|ops| - 1] == front;
  }

  lemma BusStepKept(front: seq<Op>, bus: Bus, op: Op)
    requires BusKept(front, bus) && Possible(bus, op)
    ensures BusKept(front + [op], BusStep(bus, op))
  {
    hide ChannelKept, RegistryKept;
    var ops := front + [op];
    assert ops[..|ops| - 1] == front;
    RegistryStep(bus, op);
    forall id | 1 <= id <= Subscriptions(ops)
      ensures |BusStep(bus, op).chans| == Subscriptions(ops) && ChannelKept(ops, BusStep(bus, op), id)
    {
      if id <= Subscriptions(front) {
        ChannelStep(front, bus, op, id);
      } else {
        NewChannelStep(front, bus, op.room);
      }
    }
  }

  /** Over every interleaving of publishers, readers, subscriptions and cancellations: what a
      subscriber has received and still has buffered is an in-order part of its room's events
      published while it was subscribed, no buffer outgrows its channel, and the open
      channels are exactly the registered ones. */
  lemma {:induction false} BusRunKept(ops: seq<Op>)
    requires Run(ops)
    ensures BusKept(ops, BusAfter(ops))
  {
    hide BusKept, Possible, BusStep;
    if ops == [] {
      EmptyKept();
    } else {
      BusRunKept(ops[..|ops| - 1]);
      BusStepKept(ops[..|ops| - 1], BusAfter(ops[..|ops| - 1]), ops[|ops| - 1]);
      assert ops[..|ops| - 1] + [ops[|ops| - 1]] == ops;
    }
  }

  lemma EmptyKept()
    ensures BusKept([], Bus([], map[]))
  {}

  /** An event is lost by a subscriber only when its channel is full. */
  lemma LostOnlyWhenFull(ops: seq<Op>, e: Event, id: nat)
    requires Run(ops) && Active(ops, id) && 1 <= id <= Subscriptions(ops) && e.roomId == SubscribedRoom(ops, id)
    ensures |BusAfter(ops).chans| == Subscriptions(ops) == |BusStep(BusAfter(ops), Publish(e)).chans|
    ensures var before, after := BusAfter(ops).chans[id - 1], BusStep(BusAfter(ops), Publish(e)).chans[id - 1];
            after.buffer == if |before.buffer| < CAPACITY then before.buffer + [e] else before.buffer
  {
    hide Run, BusAfter, Active, Offered, Subsequence, SubscribedRoom, Subscriptions;
    BusRunKept(ops);
    assert ChannelKept(ops, BusAfter(ops), id);
  }

  /** A cancel closes its own channel, at most once: used again it changes nothing, and it
      never touches any other subscriber. */
  lemma CancelIsPrivate(ops: seq<Op>, room: string, id: nat, other: nat)
    requires Run(ops) && Possible(BusAfter(ops), Cancel(room, id)) && 1 <= other <= |BusAfter(ops).chans| && other != id
    ensures var once := BusStep(BusAfter(ops), Cancel(room, id));
            && Possible(once, Cancel(room, id))
            && !once.chans[id - 1].open
            && once.chans[other - 1] == BusAfter(ops).chans[other - 1]
            && (once.chans[other - 1].open <==> other in Registered(once, once.chans[other - 1].room))
            && BusStep(once, Cancel(room, id)) == once
  {
    hide Run, BusAfter, Active, Offered, Subsequence, SubscribedRoom, Subscriptions;
    BusRunKept(ops);
    assert ChannelKept(ops, BusAfter(ops), id);
    assert ChannelKept(ops, BusAfter(ops), other);
    CancelTwice(BusAfter(ops), room, id);
  }

  lemma CancelTwice(bus: Bus, room: string, id: nat)
    requires RegistryKept(bus) && Possible(bus, Cancel(room, id))
    ensures BusStep(BusStep(bus, Cancel(room, id)), Cancel(room, id)) == BusStep(bus, Cancel(room, id))
  {
    var once := BusStep(bus, Cancel(room, id));
    if room in once.registry {
      assert once.registry[room] - {id} == once.registry[room];
      assert once.registry[room := once.registry[room]] == once.registry;
    }
  }

  // ---------- The exact contents of a channel ----------

  /** A subscriber's log, kept from the operations alone: the events its channel has accepted,
      oldest first, and how many of them its reader has taken. */
  datatype Log = Log(accepted: seq<Event>, taken: nat)

  ghost function LogOf(ops: seq<Op>, id: nat): (r: Log)
    requires 1 <= id <= Subscriptions(ops)
    ensures r.taken <= |r.accepted|
  {
    var front, last := ops[..|ops| - 1], ops[|ops| - 1];
    if id > Subscriptions(front) then Log([], 0)
    else
      var log := LogOf(front, id);
      if last.Publish? && Active(front, id) && last.event.roomId == SubscribedRoom(front, id)
         && |log.accepted| - log.taken < 16 then log.(accepted := log.accepted + [last.event])
      else if last == Receive(id) && log.taken < |log.accepted| then log.(taken := log.taken + 1)
      else log
  }

  ghost predicate Logged(ops: seq<Op>, bus: Bus, id: nat)
    requires 1 <= id <= Subscriptions(ops) && |bus.chans| == Subscriptions(ops)
  {
    var c, log := bus.chans[id - 1], LogOf(ops, id);
    c.received == log.accepted[..log.taken] && c.buffer == log.accepted[log.taken..]
  }

  lemma LogGrows(front: seq<Op>, op: Op, id: nat)
    requires 1 <= id <= Subscriptions(front)
    ensures 1 <= id <= Subscriptions(front + [op])
    ensures var log := LogOf(front, id);
            LogOf(front + [op], id) ==
            if op.Publish? && Active(front, id) && op.event.roomId == SubscribedRoom(front, id)
               && |log.accepted| - log.taken < 16 then log.(accepted := log.accepted + [op.event])
            else if op == Receive(id) && log.taken < |log.accepted| then log.(taken := log.taken + 1)
            else log
  {
    assert (front + [op])[..|front|] == front;
  }

  /** What one operation does to one channel. */
  lemma ContentsChange(front: seq<Op>, bus: Bus, op: Op, id: nat)
    requires BusKept(front, bus) && Possible(bus, op) && 1 <= id <= Subscriptions(front)
    ensures id <= |BusStep(bus, op).chans|
    ensures var c, d := bus.chans[id - 1], BusStep(bus, op).chans[id - 1];
            if op.Publish? && Active(front, id) && op.event.roomId == SubscribedRoom(front, id) then
              d == Offer(c, op.event)
            else if op == Receive(id) then d == Taken(c)
            else d.buffer == c.buffer && d.received == c.received
  {
    hide Subscriptions, SubscribedRoom, Active, Offered, Subsequence, Offer, Taken;
    assert ChannelKept(front, bus, id);
  }

  lemma LoggedStep(front: seq<Op>, bus: Bus, op: Op, id: nat)
    requires BusKept(front, bus) && Possible(bus, op) && 1 <= id <= Subscriptions(front) && Logged(front, bus, id)
    ensures Subscriptions(front + [op]) == |BusStep(bus, op).chans|
    ensures Logged(front + [op], BusStep(bus, op), id)
  {
    hide Subscriptions, SubscribedRoom, Active, Offered, Subsequence, BusStep, LogOf, BusKept, Possible;
    BusStepKept(front, bus, op);
    assert |BusStep(bus, op).chans| == Subscriptions(front + [op]) by { ChannelCount(front + [op], BusStep(bus, op)); }
    assert |bus.chans| == Subscriptions(front) by { ChannelCount(front, bus); }
    ContentsChange(front, bus, op, id);
    LogGrows(front, op, id);
  }

  lemma ChannelCount(ops: seq<Op>, bus: Bus)
    requires BusKept(ops, bus)
    ensures |bus.chans| == Subscriptions(ops)
  {}

  /** Nothing but a full buffer ever loses an event, and nothing is ever delivered twice: the
      reader has received exactly the events taken from its log, and the rest of the log is
      waiting, also after the channel was closed. */
  lemma {:induction false} ChannelIsLog(ops: seq<Op>, id: nat)
    requires Run(ops) && 1 <= id <= Subscriptions(ops)
    ensures |BusAfter(ops).chans| == Subscriptions(ops) && Logged(ops, BusAfter(ops), id)
  {
    hide Possible, BusStep, BusKept, Logged, LogOf;
    BusRunKept(ops);
    ChannelCount(ops, BusAfter(ops));
    var front, op := ops[..|ops| - 1], ops[|ops| - 1];
    assert front + [op] == ops;
    BusRunKept(front);
    if id <= Subscriptions(front) {
      ChannelIsLog(front, id);
      LoggedStep(front, BusAfter(front), op, id);
    } else {
      NewChannelEmpty(front, BusAfter(front), op, id);
    }
  }

  lemma NewChannelEmpty(front: seq<Op>, bus: Bus, op: Op, id: nat)
    requires BusKept(front, bus) && Possible(bus, op) && Subscriptions(front) < id <= Subscriptions(front + [op])
    ensures |BusStep(bus, op).chans| == Subscriptions(front + [op]) && Logged(front + [op], BusStep(bus, op), id)
  {
    hide Active, Offered, Subsequence;
    assert (front + [op])[..|front|] == front;
  }
}
