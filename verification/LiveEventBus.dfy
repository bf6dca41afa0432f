/** The event bus as the program keeps it: a nested map of channels, updated in place. Each
    operation is proved to be the step of EventBus on the value read out of it. */
module LiveEventBus {
  import opened Common
  import opened EventBus

  class Channel {
    const id: nat
    const room: string
    var buffer: seq<Event>
    var open: bool
    ghost var received: seq<Event>

    constructor (id: nat, room: string)
      ensures this.id == id && this.room == room && Value() == Chan(room, [], true, [])
    {
      this.id, this.room, this.buffer, this.open, this.received := id, room, [], true, [];
    }

    ghost function Value(): Chan
      reads this
    {
      Chan(room, buffer, open, received)
    }

    /** A send that gives up when the channel is full; sending on a closed channel panics. */
    method TrySend(e: Event)
      requires open
      modifies this
      ensures Value() == Offer(old(Value()), e) && open
    {
      if |buffer| < CAPACITY {
        buffer := buffer + [e];
      }
    }

    /** Closing a closed channel panics. */
    method Close()
      requires open
      modifies this
      ensures Value() == old(Value()).(open := false)
    {
      open := false;
    }

    /** The reader's side; nothing is taken from an empty channel. */
    method Take() returns (e: Option<Event>)
      modifies this
      ensures e == if old(buffer) == [] then None else Some(old(buffer)[0])
      ensures Value() == Taken(old(Value()))
    {
      if |buffer| == 0 {
        return None;
      }
      e := Some(buffer[0]);
      received := received + [buffer[0]];
      buffer := buffer[1..];
    }
  }

  type Table = map<string, map<nat, Channel>>

  ghost function RegistryOf(table: Table): map<string, set<nat>> {
    map room | room in table :: table[room].Keys
  }

  ghost function ChansOf(all: seq<Channel>): seq<Chan>
    reads all
  {
    seq(|all|, i requires 0 <= i < |all| reads all => all[i].Value())
  }

  /** Channel k has id k + 1. */
  ghost predicate Dense(all: seq<Channel>) {
    forall i :: 0 <= i < |all| ==> all[i].id == i + 1
  }

  /** Under a room are filed open channels of that room, each under its id. */
  ghost predicate FiledUnder(room: string, channels: map<nat, Channel>, all: seq<Channel>)
    reads all
  {
    forall id :: id in channels ==>
      1 <= id <= |all| && channels[id] == all[id - 1] && all[id - 1].open && all[id - 1].room == room
  }

  ghost predicate Filed(table: Table, all: seq<Channel>)
    reads all
  {
    forall room :: room in table ==> table[room] != map[] && FiledUnder(room, table[room], all)
  }

  lemma RegistryWith(table: Table, room: string, channels: map<nat, Channel>)
    ensures RegistryOf(table[room := channels]) == RegistryOf(table)[room := channels.Keys]
    ensures RegistryOf(table - {room}) == RegistryOf(table) - {room}
  {}

  lemma EmptyMap(m: map<nat, Channel>)
    ensures |m| == 0 <==> m.Keys == {}
    ensures m == map[] <==> m.Keys == {}
  {
    assert |m| == |m.Keys|;
  }

  lemma RegistryAt(table: Table, room: string)
    ensures room in RegistryOf(table) <==> room in table
    ensures room in table ==> RegistryOf(table)[room] == table[room].Keys
  {}

  lemma FiledWith(table: Table, room: string, channels: map<nat, Channel>, all: seq<Channel>)
    requires Filed(table - {room}, all) && FiledUnder(room, channels, all) && channels != map[]
    ensures Filed(table[room := channels], all)
  {
    hide FiledUnder;
    var next := table[room := channels];
    forall r | r in next ensures next[r] != map[] && FiledUnder(r, next[r], all) {
      assert r == room || (r in table - {room} && (table - {room})[r] == next[r]);
    }
  }

  lemma FiledWithout(table: Table, room: string, all: seq<Channel>)
    requires Filed(table, all)
    ensures Filed(table - {room}, all)
  {
    hide FiledUnder;
  }

  /** A new channel leaves what is filed alone. */
  lemma FiledSnoc(table: Table, all: seq<Channel>, channel: Channel)
    requires Filed(table, all)
    ensures Filed(table, all + [channel])
  {
    forall room | room in table ensures FiledUnder(room, table[room], all + [channel]) {
      assert FiledUnder(room, table[room], all);
    }
  }

  lemma ChansLength(all: seq<Channel>)
    ensures |ChansOf(all)| == |all|
  {}

  lemma ChansSnoc(all: seq<Channel>, channel: Channel)
    ensures ChansOf(all + [channel]) == ChansOf(all) + [channel.Value()]
  {}

  class RoomEventBus {
    var subscribers: map<string, map<nat, Channel>>
    var nextId: nat
    ghost var all: seq<Channel>  // every channel handed out, oldest first

    ghost predicate Valid()
      reads this, all
    {
      && |all| == nextId
      && Dense(all)
      && Filed(subscribers, all)
    }

    ghost function Abs(): Bus
      reads this, all
    {
      Bus(ChansOf(all), RegistryOf(subscribers))
    }

    constructor ()
      ensures Valid() && Abs() == Bus([], map[]) && all == []
    {
      subscribers, nextId, all := map[], 0, [];
    }

    /** Channels are told apart by their ids, so a change of one is a change at one index. */
    twostate lemma ChannelTouched(k: nat)
      requires k < |all| && all == old(all) && Dense(all)
      requires forall i :: 0 <= i < |all| && i != k ==> unchanged(all[i])
      ensures ChansOf(all) == old(ChansOf(all))[k := all[k].Value()]
    {
      forall i | 0 <= i < |all| ensures ChansOf(all)[i] == old(ChansOf(all))[k := all[k].Value()][i] {
        assert i != k ==> all[i].Value() == old(all[i].Value());
      }
    }

    /** What is filed stays filed while the channels filed stay open. */
    twostate lemma StillFiled(table: Table)
      requires old(Filed(table, all)) && all == old(all)
      requires forall c :: c in all && old(c.open) ==> c.open
      ensures Filed(table, all)
    {
      forall room | room in table ensures FiledUnder(room, table[room], all) {
        assert old(FiledUnder(room, table[room], all));
      }
    }

    lemma OneMore(chans: seq<Chan>, done: set<nat>, id: nat, e: Event)
      requires 1 <= id <= |chans| && id !in done
      ensures OfferTo(chans, done, e)[id - 1 := Offer(OfferTo(chans, done, e)[id - 1], e)] ==
              OfferTo(chans, done + {id}, e)
    {
      hide Offer;
    }

    /** Sends to one channel without blocking. */
    method SendTo(channel: Channel, ghost id: nat, e: Event)
      requires Valid() && 1 <= id <= |all| && all[id - 1] == channel && channel.open
      modifies channel
      ensures Valid() && forall c :: c in all && old(c.open) ==> c.open
      ensures ChansOf(all) == old(ChansOf(all))[id - 1 := Offer(old(ChansOf(all))[id - 1], e)]
    {
      hide Offer, Filed;
      channel.TrySend(e);
      ChannelTouched(id - 1);
      StillFiled(subscribers);
    }

    method PublishRoomEvent(e: Event)
      requires Valid()
      modifies all
      ensures Valid()
      ensures Abs() == BusStep(old(Abs()), Publish(e))
    {
      hide Offer, ChansOf, Dense, Filed, OfferTo, FiledUnder;
      var channels: map<nat, Channel> := if e.roomId in subscribers then subscribers[e.roomId] else map[];
      ghost var chans := ChansOf(all);
      var rest := channels.Keys;
      ghost var done: set<nat> := {};
      NoneYet(chans, e);
      assert |chans| == |all| by { ChansLength(all); }
      FiledHere(e.roomId, channels);
      while rest != {}
        invariant done + rest == channels.Keys && done !! rest
        invariant Valid() && FiledUnder(e.roomId, channels, all)
        invariant ChansOf(all) == OfferTo(chans, done, e) && |chans| == |all|
        decreases |rest|
      {
        var id :| id in rest;
        SendNext(channels, id, e, chans, done);
        rest, done := rest - {id}, done + {id};
      }
      assert done == channels.Keys;
    }

    /** One turn of the publishing loop. */
    method SendNext(channels: map<nat, Channel>, id: nat, e: Event, ghost chans: seq<Chan>, ghost done: set<nat>)
      requires Valid() && FiledUnder(e.roomId, channels, all) && id in channels && id !in done
      requires ChansOf(all) == OfferTo(chans, done, e) && |chans| == |all|
      modifies all
      ensures Valid() && FiledUnder(e.roomId, channels, all)
      ensures ChansOf(all) == OfferTo(chans, done + {id}, e)
    {
      hide Offer, ChansOf, Dense, Filed, OfferTo, FiledUnder;
      FiledEntry(e.roomId, channels, id);
      SendTo(channels[id], id, e);
      OneMore(chans, done, id, e);
      StillFiledUnder((e.roomId, channels));
    }

    lemma FiledHere(room: string, channels: map<nat, Channel>)
      requires Valid() && channels == (if room in subscribers then subscribers[room] else map[])
      ensures FiledUnder(room, channels, all)
    {}

    lemma FiledEntry(room: string, channels: map<nat, Channel>, id: nat)
      requires FiledUnder(room, channels, all) && id in channels
      ensures 1 <= id <= |all| && all[id - 1] == channels[id] && channels[id].open && channels[id] in all
    {}

    twostate lemma StillFiledUnder(shelf: (string, map<nat, Channel>))
      requires old(FiledUnder(shelf.0, shelf.1, all)) && all == old(all)
      requires forall c :: c in all && old(c.open) ==> c.open
      ensures FiledUnder(shelf.0, shelf.1, all)
    {}

    lemma NoneYet(chans: seq<Chan>, e: Event)
      ensures OfferTo(chans, {}, e) == chans
    {}

    /** A new channel under a new id; the id is the handle for Cancel. */
    method Subscribe(room: string) returns (channel: Channel)
      requires Valid()
      modifies this
      ensures Valid() && fresh(channel) && channel.id == nextId == old(nextId) + 1
      ensures all == old(all) + [channel]
      ensures Abs() == BusStep(old(Abs()), EventBus.Subscribe(room))
    {
      hide Filed, FiledUnder, RegistryOf, ChansOf;
      channel := new Channel(nextId + 1, room);
      var roomSubscribers: map<nat, Channel> := map[];
      if room in subscribers {
        roomSubscribers := subscribers[room];
      }
      Placed(room, channel, roomSubscribers);
      ChansLength(all);
      RegistryAt(subscribers, room);
      assert roomSubscribers.Keys == Registered(old(Abs()), room);
      nextId := nextId + 1;
      roomSubscribers := roomSubscribers[nextId := channel];
      subscribers := subscribers[room := roomSubscribers];
      all := all + [channel];
    }

    /** Filing a new channel keeps the table in order. */
    lemma Placed(room: string, channel: Channel, channels: map<nat, Channel>)
      requires Valid() && channels == (if room in subscribers then subscribers[room] else map[])
      requires channel.id == nextId + 1 && channel.room == room && channel.open
      ensures Filed(subscribers[room := channels[nextId + 1 := channel]], all + [channel])
      ensures ChansOf(all + [channel]) == ChansOf(all) + [channel.Value()]
      ensures RegistryOf(subscribers[room := channels[nextId + 1 := channel]]) ==
              RegistryOf(subscribers)[room := channels.Keys + {nextId + 1}]
    {
      hide RegistryOf, ChansOf;
      var next: map<nat, Channel> := channels[nextId + 1 := channel];
      ChansSnoc(all, channel);
      FiledSnoc(subscribers, all, channel);
      FiledWithout(subscribers, room, all + [channel]);
      RegistryWith(subscribers, room, next);
      assert next.Keys == channels.Keys + {nextId + 1};
      FiledWith(subscribers, room, next, all + [channel]);
    }

    /** The cancel closure of a subscription. */
    method Cancel(room: string, id: nat)
      requires Valid() && Possible(Abs(), EventBus.Cancel(room, id))
      modifies this`subscribers, all
      ensures Valid()
      ensures Abs() == BusStep(old(Abs()), EventBus.Cancel(room, id))
    {
      hide Filed, FiledUnder, ChansOf, RegistryOf;
      RegistryAt(subscribers, room);
      ChansLength(all);
      if room !in subscribers {
        return;
      }
      var roomSubscribers: map<nat, Channel> := subscribers[room];
      FiledAt(subscribers, room, all);
      FiledWithout(subscribers, room, all);
      if id in roomSubscribers {
        ChanAt(id - 1);
        roomSubscribers := CloseOne(room, id);
      }
      assert roomSubscribers.Keys == old(RegistryOf(subscribers))[room] - {id};
      Refile(room, roomSubscribers);
    }

    /** Closes a registered channel; what stays under its room is returned. */
    method CloseOne(room: string, id: nat) returns (roomSubscribers: map<nat, Channel>)
      requires Valid() && room in subscribers && id in subscribers[room]
      requires 1 <= id <= |all| && subscribers[room][id] == all[id - 1] && all[id - 1].open && all[id - 1].room == room
      requires Filed(subscribers - {room}, all) && FiledUnder(room, subscribers[room], all)
      modifies all
      ensures roomSubscribers.Keys == subscribers[room].Keys - {id}
      ensures Filed(subscribers - {room}, all) && FiledUnder(room, roomSubscribers, all)
      ensures ChansOf(all) == old(ChansOf(all))[id - 1 := old(ChansOf(all))[id - 1].(open := false)]
    {
      hide Filed, FiledUnder, RegistryOf;
      roomSubscribers := subscribers[room] - {id};
      FiledFewer(room, subscribers[room], id, all);
      subscribers[room][id].Close();
      ChannelTouched(id - 1);
      OthersFiled(Closing(subscribers - {room}, room, roomSubscribers, id));
    }

    lemma ChanAt(k: nat)
      requires k < |all|
      ensures k < |ChansOf(all)| && ChansOf(all)[k] == all[k].Value()
    {}

    /** Stores what is left under a room, or drops the room. */
    method Refile(room: string, roomSubscribers: map<nat, Channel>)
      requires |all| == nextId && Dense(all) && room in subscribers
      requires Filed(subscribers - {room}, all) && FiledUnder(room, roomSubscribers, all)
      modifies this`subscribers
      ensures Valid()
      ensures RegistryOf(subscribers) == if roomSubscribers.Keys == {} then old(RegistryOf(subscribers)) - {room}
                                         else old(RegistryOf(subscribers))[room := roomSubscribers.Keys]
    {
      hide Filed, FiledUnder, RegistryOf;
      RegistryWith(subscribers, room, roomSubscribers);
      EmptyMap(roomSubscribers);
      if |roomSubscribers| == 0 {
        subscribers := subscribers - {room};
      } else {
        FiledWith(subscribers, room, roomSubscribers, all);
        subscribers := subscribers[room := roomSubscribers];
      }
    }

    lemma FiledAt(table: Table, room: string, all: seq<Channel>)
      requires Filed(table, all) && room in table
      ensures FiledUnder(room, table[room], all) && table[room] != map[]
      ensures forall id :: id in table[room] ==>
                1 <= id <= |all| && table[room][id] == all[id - 1] && all[id - 1].open && all[id - 1].room == room
    {}

    lemma FiledFewer(room: string, channels: map<nat, Channel>, id: nat, all: seq<Channel>)
      requires FiledUnder(room, channels, all)
      ensures FiledUnder(room, channels - {id}, all)
    {}

    /** Closing a channel of one room touches nothing filed elsewhere. */
    twostate lemma OthersFiled(closed: Closing)
      requires var Closing(table, room, channels, id) := closed;
               && all == old(all) && Dense(all) && 1 <= id <= |all| && all[id - 1].room == room
               && old(Filed(table, all)) && room !in table && old(FiledUnder(room, channels, all)) && id !in channels
               && forall i :: 0 <= i < |all| && i != id - 1 ==> unchanged(all[i])
      ensures Filed(closed.table, all) && FiledUnder(closed.room, closed.channels, all)
    {
      forall r | r in closed.table ensures FiledUnder(r, closed.table[r], all) {
        assert old(FiledUnder(r, closed.table[r], all));
      }
    }
  }

  /** A closed channel of a room, what else the room files, and the other rooms. */
  datatype Closing = Closing(table: Table, room: string, channels: map<nat, Channel>, id: nat)
}
