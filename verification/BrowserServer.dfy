/**
 * The server-list half of `ServerState`, and the loops of `ServerBrowserServer`, as they run.
 */
module BrowserServers {
  import opened Wrappers
  import opened Bytes
  import opened ServerKeys
  import opened ServerEntries
  import opened Browser
  import opened BrowserTracking
  import opened BrowserTasks

  /** `ServerState`, without the NatNeg sessions. */
  class ServerState {
    const settings: Settings
    var servers: Servers
    var events: map<nat, bool>

    ghost function Value(): Registry
      reads this
    {
      Registry(servers, events)
    }

    constructor (settings: Settings)
      ensures this.settings == settings && Value() == Registry(map[], map[])
    {
      this.settings := settings;
      servers, events := map[], map[];
    }

    /** `_notify_server_change`. */
    method NotifyServerChange()
      modifies `events
      ensures events == Notify(old(events))
    {
      var todo := events.Keys;
      while todo != {}
        invariant todo <= events.Keys == old(events).Keys
        invariant forall id :: id in events ==> events[id] == (if id in todo then old(events)[id] else true)
      {
        var id :| id in todo;
        events := events[id := true];
        todo := todo - {id};
      }
    }

    method Subscribe(id: nat)
      requires id !in events
      modifies `events
      ensures Value() == old(Value()).(events := old(events)[id := false])
    {
      events := events[id := false];
    }

    /** `expire`. */
    method Expire(now: real)
      modifies this
      ensures Value() == Browser.Expire(settings, old(Value()), now)
    {
      var todo := servers.Keys;
      var retained: Servers := map[];
      var changed := false;
      while todo != {}
        invariant todo <= servers.Keys && servers == old(servers) && events == old(events)
        invariant retained == map a | a in servers && a !in todo && Retained(settings, servers[a], now) :: servers[a]
        invariant changed <==> exists a :: a in servers && a !in todo && servers[a].registered && !Retained(settings, servers[a], now)
      {
        var a :| a in todo;
        if Retained(settings, servers[a], now) {
          retained := retained[a := servers[a]];
        } else if servers[a].registered {
          changed := true;
        }
        todo := todo - {a};
      }
      servers := retained;
      if changed {
        NotifyServerChange();
      }
    }

    /** `remove_server`. */
    method Remove(source: Address)
      modifies this
      ensures Value() == Browser.Remove(old(Value()), source)
    {
      if source in servers {
        var registered := servers[source].registered;
        servers := servers - {source};
        if registered {
          NotifyServerChange();
        }
      }
    }

    /** `register_server`. */
    method Register(source: Address, now: real)
      modifies this
      ensures Value() == Browser.Register(old(Value()), source, now)
    {
      if source in servers {
        var first := !servers[source].registered;
        servers := servers[source := servers[source].(registered := true, lastSeen := now)];
        if first {
          servers := servers[source := servers[source].(registeredAt := now)];
          NotifyServerChange();
        }
      }
    }

    /** `report_server`; false where it raises for want of room. */
    method Report(source: Address, instanceKey: seq<u8>, keys: Keys, now: real) returns (ok: bool)
      modifies this
      ensures Value() == Browser.Report(settings, old(Value()), source, instanceKey, keys, now)
      ensures !ok ==> source !in old(servers) && |servers| >= settings.capacity
    {
      hide AsMap, Browser.Expire, Browser.Remove, Notify;
      if source !in servers {
        ExpireKeepsOut(settings, Value(), source, now);
        Expire(now);
        if |servers| >= settings.capacity {
          return false;
        }
        servers := servers[source := Server(instanceKey, [], false, now, 0.0)];
      }
      var server := servers[source];
      var changed := server.instanceKey != instanceKey || AsMap(server.keys) != AsMap(keys);
      servers := servers[source := server.(instanceKey := instanceKey, keys := keys, lastSeen := now)];
      if server.registered && changed {
        NotifyServerChange();
      }
      if Lookup(AsMap(keys), "statechanged", "") == "2" {
        Remove(source);
      }
      return true;
    }
  }

  /** `_heartbeat`, up to its reply; false where it raises. */
  method HandleHeartbeat(state: ServerState, source: Address, data: seq<u8>, now: real) returns (ok: bool)
    modifies state
    ensures state.Value() == Heartbeat(state.settings, old(state.Value()), source, data, now)
  {
    hide ParseFrom, Browser.Report, Browser.Remove;
    if |data| > state.settings.packetBytes || |data| < 7 {
      return false;
    }
    var keys := ParseQrServerKeys(state.settings.entry.codec, data, KEYS_OFFSET);
    if keys.None? {
      return false;
    }
    if Get(keys.value, "statechanged", "") == "2" {
      state.Remove(source);
      return true;
    }
    if Fresh(keys.value, "gamename") || !state.settings.Accepts(Get(keys.value, "gamename", "")) {
      return true;
    }
    ok := state.Report(source, data[1..5], keys.value, now);
  }

  /** The first loop of `_listed_servers`: the servers that match. */
  method FilterServers(c: Settings, query: string, text: string, servers: Servers) returns (matching: set<Address>)
    ensures matching == set a | a in servers && Matching(c, query, text, servers[a])
  {
    hide Matching;
    var todo := servers.Keys;
    matching := {};
    while todo != {}
      invariant todo <= servers.Keys
      invariant matching == set a | a in servers && a !in todo && Matching(c, query, text, servers[a])
    {
      var a :| a in todo;
      if Matching(c, query, text, servers[a]) {
        matching := matching + {a};
      }
      todo := todo - {a};
    }
  }

  /** The second, for an automatch: the hosts with room; None where a count makes int() raise. */
  method CompatibleServers(c: Settings, matching: set<Address>, servers: Servers) returns (r: Option<set<Address>>)
    requires forall a :: a in matching ==> a in servers
    ensures r.None? <==> exists a :: a in matching && CountTooLong(c, servers[a])
    ensures r.Some? ==> r.value == set a | a in matching && HasRoom(c, servers[a])
  {
    hide AsMap, ReadInt;
    var todo := matching;
    var compatible: set<Address> := {};
    while todo != {}
      invariant todo <= matching && forall a :: a in matching && a !in todo ==> !CountTooLong(c, servers[a])
      invariant compatible == set a | a in matching && a !in todo && HasRoom(c, servers[a])
    {
      var a :| a in todo;
      var max, players := MaxPlayers(c, servers[a]), Players(c, servers[a]);
      if !max.NotDecimal? && !players.NotDecimal? {
        if max.TooLong? || players.TooLong? {
          return None;
        }
        if max.value == c.maxPlayers && players.value < max.value {
          compatible := compatible + {a};
        }
      }
      todo := todo - {a};
    }
    return Some(compatible);
  }

  /** `_listed_servers`, with its pick of the oldest open host; None where it raises. */
  method ListServers(c: Settings, query: string, text: string, servers: Servers) returns (r: Option<set<Address>>)
    requires c.Valid()
    ensures r.None? <==> ListingRaises(c, query, text, servers)
    ensures r.Some? ==> r.value == Listed(c, query, text, servers)
  {
    hide Matching, HasRoom, CountTooLong, Before;
    var matching := FilterServers(c, query, text, servers);
    if !IsAutomatch(c, query) {
      assert matching == Candidates(c, query, text, servers);
      return Some(matching);
    }
    var compatible := CompatibleServers(c, matching, servers);
    if compatible.None? {
      return None;
    }
    assert compatible.value == Candidates(c, query, text, servers);
    if compatible.value == {} {
      return compatible;
    }
    var first := OldestServer(c, servers, compatible.value);
    return Some({first});
  }

  /** The first in the order of `active_servers`. */
  method OldestServer(c: Settings, servers: Servers, all: set<Address>) returns (first: Address)
    requires c.Valid() && all != {} && forall a :: a in all ==> a in servers
    ensures first in all
    ensures (set a | a in all && forall b :: b in all && b != a ==> Before(c, servers, a, b)) == {first}
  {
    hide Before;
    first :| first in all;
    var rest := all - {first};
    while rest != {}
      invariant first in all && rest <= all
      invariant forall b :: b in all && b !in rest && b != first ==> Before(c, servers, first, b)
    {
      var b :| b in rest;
      BeforeIsOrder(c, servers, b, first, first);
      if b != first && Before(c, servers, b, first) {
        Precedes(c, servers, all, first, b);
        first := b;
      }
      rest := rest - {b};
    }
    OnlyFirst(c, servers, all, first);
  }

  lemma Precedes(c: Settings, servers: Servers, all: set<Address>, first: Address, b: Address)
    requires c.Valid() && first in servers && b in servers && Before(c, servers, b, first)
    requires forall x :: x in all ==> x in servers
    ensures forall x :: x in all && Before(c, servers, first, x) ==> Before(c, servers, b, x)
  {
    hide Before;
    forall x | x in all && Before(c, servers, first, x)
      ensures Before(c, servers, b, x)
    {
      BeforeIsOrder(c, servers, b, first, x);
    }
  }

  lemma OnlyFirst(c: Settings, servers: Servers, all: set<Address>, first: Address)
    requires c.Valid() && first in all && forall b :: b in all ==> b in servers
    requires forall b :: b in all && b != first ==> Before(c, servers, first, b)
    ensures (set a | a in all && forall b :: b in all && b != a ==> Before(c, servers, a, b)) == {first}
  {
    hide Before;
    forall a | a in all && a != first
      ensures !Before(c, servers, a, first)
    {
      BeforeIsOrder(c, servers, first, a, a);
    }
  }

  lemma DeleteFramesGrow(deletes: seq<Address>, a: Address)
    ensures DeleteFrames(deletes + [a]) == DeleteFrames(deletes) + [DeleteFrame(a)]
  {
    if deletes != [] {
      assert (deletes + [a])[1..] == deletes[1..] + [a];
      DeleteFramesGrow(deletes[1..], a);
    } else {
      assert ([] + [a])[1..] == [];
    }
  }

  lemma {:induction false} PushFramesGrow(pushes: seq<Address>, a: Address, entries: map<Address, seq<u8>>)
    requires a in entries && (forall i :: 0 <= i < |pushes| ==> pushes[i] in entries)
    requires PushFrames(pushes, entries).Some? && |entries[a]| <= MAX_ENTRY
    ensures PushFrames(pushes + [a], entries) == Some(PushFrames(pushes, entries).value + [PushFrame(entries[a])])
  {
    hide PushFrame;
    if pushes != [] {
      assert (pushes + [a])[1..] == pushes[1..] + [a];
      PushFramesGrow(pushes[1..], a, entries);
      var head, rest := [PushFrame(entries[pushes[0]])], PushFrames(pushes[1..], entries).value;
      assert head + (rest + [PushFrame(entries[a])]) == head + rest + [PushFrame(entries[a])];
    } else {
      assert pushes + [a] == [a] && [a][1..] == [];
      var frame := [PushFrame(entries[a])];
      assert frame + [] == frame == [] + frame;
    }
  }

  /** The first loop of `_subscription_frames`: what is no longer listed. */
  method FramesForGone(gone: set<Address>) returns (frames: seq<seq<u8>>, ghost deletes: seq<Address>)
    ensures Enumerates(deletes, gone) && frames == DeleteFrames(deletes)
  {
    hide DeleteFrame;
    frames, deletes := [], [];
    var todo := gone;
    while todo != {}
      invariant todo <= gone && Enumerates(deletes, gone - todo)
      invariant frames == DeleteFrames(deletes)
    {
      var a :| a in todo;
      DeleteFramesGrow(deletes, a);
      frames, deletes := frames + [DeleteFrame(a)], deletes + [a];
      todo := todo - {a};
    }
  }

  /** The second: what is new or has changed; None at the first entry too long for a frame. */
  method FramesForChanged(known: map<Address, seq<u8>>, current: map<Address, seq<u8>>)
    returns (frames: Option<seq<seq<u8>>>, ghost pushes: seq<Address>)
    ensures frames.None? <==> exists a :: a in Changed(known, current) && |current[a]| > MAX_ENTRY
    ensures frames.Some? ==> Enumerates(pushes, Changed(known, current)) && forall i :: 0 <= i < |pushes| ==> pushes[i] in current
    ensures frames.Some? ==> frames == PushFrames(pushes, current)
  {
    hide PushFrame;
    var sofar: seq<seq<u8>> := [];
    pushes := [];
    var todo := current.Keys;
    while todo != {}
      invariant todo <= current.Keys && Enumerates(pushes, Changed(known, current) - todo)
      invariant forall i :: 0 <= i < |pushes| ==> pushes[i] in current
      invariant forall a :: a in Changed(known, current) - todo ==> |current[a]| <= MAX_ENTRY
      invariant PushFrames(pushes, current) == Some(sofar)
    {
      var a :| a in todo;
      if !(a in known && known[a] == current[a]) {
        if |current[a]| > MAX_ENTRY {
          assert a in Changed(known, current);
          return None, pushes;
        }
        PushFramesGrow(pushes, a, current);
        sofar, pushes := sofar + [PushFrame(current[a])], pushes + [a];
      }
      todo := todo - {a};
    }
    return Some(sofar), pushes;
  }

  /**
   * `_subscription_frames`, on the listing's current entries: applied in order the frames turn what was
   * known into the listing, and nothing is sent twice; None where an entry to push is too long.
   */
  method SubscriptionFrames(c: Settings, known: map<Address, seq<u8>>, current: map<Address, seq<u8>>)
    returns (frames: Option<seq<seq<u8>>>, ghost deletes: seq<Address>, ghost pushes: seq<Address>)
    requires c.Valid() && forall a :: a in current ==> Encodes(c, a, current[a])
    ensures frames.None? <==> exists a :: a in Changed(known, current) && |current[a]| > MAX_ENTRY
    ensures Orders(known, current, deletes, pushes) && frames == RoundFrames(known, current, deletes, pushes)
    ensures frames.Some? ==> ApplyFrames(c, known, frames.value) == current
  {
    hide Encodes, ApplyFrames, DeleteFrames, PushFrames;
    var gone, more;
    gone, deletes := FramesForGone(known.Keys - current.Keys);
    more, pushes := FramesForChanged(known, current);
    if more.None? {
      pushes := SomeOrder(Changed(known, current));
      RoundSendsIff(known, current, deletes, pushes);
      return None, deletes, pushes;
    }
    RoundSendsIff(known, current, deletes, pushes);
    FramesReachListing(c, known, current, deletes, pushes);
    return Some(gone + more.value), deletes, pushes;
  }

  /** Any set of sources can be gone through in some order. */
  lemma {:induction false} SomeOrder(all: set<Address>) returns (order: seq<Address>)
    ensures Enumerates(order, all)
    decreases |all|
  {
    order := [];
    if all != {} {
      var a :| a in all;
      var rest := SomeOrder(all - {a});
      order := [a] + rest;
      forall i | 0 <= i < |rest|
        ensures rest[i] in all - {a}
      {
        assert rest[i] in rest;
      }
    }
  }

  // ------------------------------------------------------------ subscriptions

  /** The subscriptions and push tasks of `ServerBrowserServer`; `replicas` is what the clients hold. */
  class ServerBrowserServer {
    const state: ServerState
    var subscriptions: map<nat, Subscription>
    var pushing: set<nat>
    ghost var replicas: map<nat, map<Address, seq<u8>>>

    ghost function Value(): State
      reads this, state
    {
      State(state.Value(), subscriptions, pushing, replicas)
    }

    constructor (state: ServerState)
      ensures this.state == state && subscriptions == map[] && pushing == {} && replicas == map[]
    {
      this.state := state;
      subscriptions, pushing, replicas := map[], {}, map[];
    }

    /** The start of `handle`: the change event and the push task. */
    method Connect(id: nat)
      requires id !in state.events
      modifies this, state
      ensures Value() == Browser.Connect(old(Value()), id)
    {
      state.Subscribe(id);
      pushing := pushing + {id};
    }

    /** Its end. */
    method Disconnect(id: nat)
      modifies this, state
      ensures Value() == Browser.Disconnect(old(Value()), id)
    {
      state.events := state.events - {id};
      subscriptions, pushing := subscriptions - {id}, pushing - {id};
      replicas := replicas - {id};
    }

    /** The entries of the listing as it stands; None where a text makes int() raise. */
    method ListEntries(query: string, text: string) returns (r: Option<map<Address, seq<u8>>>)
      requires state.settings.Valid()
      ensures r == TryEntries(state.settings, query, text, state.servers)
    {
      hide Listed, Entry, ListingRaises, PortTooLong;
      var listing := ListServers(state.settings, query, text, state.servers);
      if listing.None? {
        return None;
      }
      var listed := listing.value;
      ListedIn(state.settings, query, text, state.servers);
      var entries: map<Address, seq<u8>> := map[];
      var todo := listed;
      while todo != {}
        invariant todo <= listed
        invariant forall a :: a in listed && a !in todo ==> !PortTooLong(state.settings.entry, state.servers[a].keys)
        invariant entries == map a | a in listed && a !in todo && a in state.servers
                                   :: Entry(state.settings.entry, a, state.servers[a].keys)
      {
        var a :| a in todo;
        var entry := ServerEntry(state.settings.entry, a, state.servers[a].keys);
        if entry.None? {
          return None;
        }
        entries := entries[a := entry.value];
        todo := todo - {a};
      }
      assert !EntriesRaise(state.settings, query, text, state.servers);
      assert entries == Entries(state.settings, query, text, state.servers);
      return Some(entries);
    }

    /**
     * A list request that asks for pushes; another list request drops the subscription, and one whose
     * entries raise ends the connection.
     */
    method Subscribe(id: nat, query: string, text: string, now: real)
      requires state.settings.Valid() && id in state.events
      modifies this, state
      ensures Value() == Browser.Subscribe(state.settings, old(Value()), id, query, text, now)
    {
      hide Entries, EntriesRaise, Browser.Expire, Browser.Disconnect;
      if !state.settings.Accepts(query) {
        subscriptions := subscriptions - {id};
        return;
      }
      state.Expire(now);
      var known := ListEntries(query, text);
      if known.None? {
        Disconnect(id);
        return;
      }
      subscriptions := subscriptions[id := Subscription(query, text, known.value)];
      replicas := replicas[id := known.value];
    }

    /**
     * One round of `push_registered_servers`, its event set: clear, list, send, remember; without a
     * subscription only the first.  None where it raises, which ends the push task.
     */
    method Push(id: nat, now: real)
      returns (frames: Option<seq<seq<u8>>>, ghost deletes: seq<Address>, ghost pushes: seq<Address>)
      requires state.settings.Valid() && Inv(state.settings, Value())
      requires FlushDue(Value(), id)
      modifies this, state
      ensures Value() == Flush(state.settings, old(Value()), id, now, deletes, pushes)
      ensures id in old(subscriptions) ==> Ordered(state.settings, old(Value()), id, now, deletes, pushes)
      ensures frames.None? <==> id !in pushing
      ensures frames.None? <==> id in old(subscriptions) && BreaksAt(state.settings, old(Value()), id, now)
      ensures id !in old(subscriptions) ==> frames == Some([])
      ensures id in old(subscriptions) && frames.Some? ==> id in subscriptions
      ensures id in old(subscriptions) && frames.Some? ==>
                ApplyFrames(state.settings, old(subscriptions[id].known), frames.value) == subscriptions[id].known
      ensures Inv(state.settings, Value())
    {
      hide Entries, EntriesRaise, Browser.Expire, AllBrought, Tracks, Encodes, Changed, ApplyFrames, RoundFrames, Orders, Breaks;
      ghost var s := Value();
      deletes, pushes := [], [];
      state.events := state.events[id := false];
      if id !in subscriptions {
        FlushKeeps(state.settings, s, id, now, deletes, pushes);
        frames := Some([]);
        return;
      }
      SweptInFlush(state.settings, s, id, now);
      state.Expire(now);
      var sub := subscriptions[id];
      var current := ListEntries(sub.query, sub.text);
      if current.None? {
        frames := None;
        pushing := pushing - {id};
      } else {
        EntriesTrack(state.settings, sub.query, sub.text, state.servers);
        frames, deletes, pushes := SubscriptionFrames(state.settings, sub.known, current.value);
        if frames.None? {
          pushing := pushing - {id};
        } else {
          subscriptions := subscriptions[id := sub.(known := current.value)];
          replicas := replicas[id := ApplyFrames(state.settings, replicas[id], frames.value)];
        }
      }
      FlushRaisesIff(state.settings, s, id, now, deletes, pushes);
      FlushKeeps(state.settings, s, id, now, deletes, pushes);
    }
  }
}
