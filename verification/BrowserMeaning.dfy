/**
 * What the listing, the registry and the bytes on the wire mean: who is listed and why, which servers
 * come, stay and go, and where each field of a frame stands.
 */
module BrowserMeaning {
  import opened Wrappers
  import opened Bytes
  import opened ServerKeys
  import opened ServerEntries
  import opened Browser
  import opened BrowserTracking

  // ----------------------------------------------------------------- listing

  function Text(s: Server, k: string, default: string): string {
    if k in AsMap(s.keys) then AsMap(s.keys)[k] else default
  }

  /** A decimal text that int() reads. */
  predicate Readable(c: Settings, text: string) {
    c.entry.isDecimal(text) && |text| <= 4300
  }

  /** A registered server of that very game that passes the filter. */
  predicate Offers(c: Settings, game: string, text: string, s: Server) {
    s.registered && "gamename" in AsMap(s.keys) && AsMap(s.keys)["gamename"] == game && c.matches(AsMap(s.keys), text)
  }

  /** A host for the configured number of players that is not full. */
  predicate IsOpen(c: Settings, s: Server) {
    var max, players := Text(s, "maxplayers", ""), Text(s, "numplayers", "0");
    && Readable(c, max) && Readable(c, players)
    && c.entry.value(max) == c.maxPlayers && c.entry.value(players) < c.maxPlayers
  }

  /** A search lists exactly the servers that offer the game; any other query lists none. */
  lemma SearchListsIff(c: Settings, query: string, text: string, servers: Servers, a: Address)
    requires query != c.game + "am"
    ensures a in Listed(c, query, text, servers) <==> query == c.game && a in servers && Offers(c, c.game, text, servers[a])
  {
    hide AsMap;
  }

  /** An open host that offers the automatch game. */
  predicate Hosts(c: Settings, text: string, servers: Servers, a: Address) {
    a in servers && Offers(c, c.game + "am", text, servers[a]) && IsOpen(c, servers[a])
  }

  /**
   * An automatch lists one open host: the one that has been registered longest, and among those
   * registered at the same time the first by address.  Without an open host it lists none.
   */
  lemma AutomatchListsTheOldest(c: Settings, text: string, servers: Servers)
    requires c.Valid()
    ensures (forall a :: a in servers ==> !Hosts(c, text, servers, a)) ==> Listed(c, c.game + "am", text, servers) == {}
    ensures (exists a :: Hosts(c, text, servers, a)) ==>
              exists a :: && Hosts(c, text, servers, a) && Listed(c, c.game + "am", text, servers) == {a}
                          && forall b :: Hosts(c, text, servers, b) && b != a ==>
                               || servers[a].registeredAt < servers[b].registeredAt
                               || (servers[a].registeredAt == servers[b].registeredAt && c.precedes(a, b))
  {
    hide Candidates, AsMap, Hosts;
    HostsAre(c, text, servers);
    if a :| Hosts(c, text, servers, a) {
      assert a in Candidates(c, c.game + "am", text, servers);
      OneHostIsListed(c, text, servers);
      var first :| Listed(c, c.game + "am", text, servers) == {first};
      assert first in Listed(c, c.game + "am", text, servers);
      assert Hosts(c, text, servers, first);
    } else {
      assert forall a :: a in Candidates(c, c.game + "am", text, servers) ==> Hosts(c, text, servers, a);
    }
  }

  lemma HostsAre(c: Settings, text: string, servers: Servers)
    ensures forall a :: Hosts(c, text, servers, a) <==> a in Candidates(c, c.game + "am", text, servers)
    ensures forall a :: Hosts(c, text, servers, a) ==> a in servers
  {
    hide AsMap;
  }

  /** An automatch raises exactly at a host on offer whose counts are decimal and one of them too long. */
  lemma AutomatchRaisesIff(c: Settings, query: string, text: string, servers: Servers)
    ensures ListingRaises(c, query, text, servers)
            <==> && query == c.game + "am"
                 && exists a :: && a in servers && Offers(c, query, text, servers[a])
                                && c.entry.isDecimal(Text(servers[a], "maxplayers", ""))
                                && c.entry.isDecimal(Text(servers[a], "numplayers", "0"))
                                && (4300 < |Text(servers[a], "maxplayers", "")| || 4300 < |Text(servers[a], "numplayers", "0")|)
  {
    hide AsMap;
    forall a | a in servers
      ensures Matching(c, c.game + "am", text, servers[a]) <==> Offers(c, c.game + "am", text, servers[a])
      ensures CountTooLong(c, servers[a])
              <==> && c.entry.isDecimal(Text(servers[a], "maxplayers", ""))
                   && c.entry.isDecimal(Text(servers[a], "numplayers", "0"))
                   && (4300 < |Text(servers[a], "maxplayers", "")| || 4300 < |Text(servers[a], "numplayers", "0")|)
    {
    }
  }

  // ---------------------------------------------------------------- registry

  /** Nothing has been heard of the server for longer than its time to live. */
  predicate Silent(c: Settings, s: Server, now: real) {
    c.ttl < now - s.lastSeen
  }

  /** A sweep drops exactly the silent servers, and wakes the subscribers exactly if one was registered. */
  lemma SweepDropsIff(c: Settings, r: Registry, now: real)
    ensures var t := Expire(c, r, now);
            && (forall a :: a in t.servers <==> a in r.servers && !Silent(c, r.servers[a], now))
            && (forall a :: a in t.servers ==> t.servers[a] == r.servers[a])
            && t.events.Keys == r.events.Keys
            && forall id :: id in r.events ==>
                 (t.events[id] <==>
                    r.events[id] || exists a :: a in r.servers && r.servers[a].registered && Silent(c, r.servers[a], now))
  {
  }

  /**
   * A report from a source already known touches no other server; one from a new source sweeps first
   * and finds room or not.  What is accepted has the report's key, keys and time, and keeps its
   * registration; a report of `statechanged` 2 removes its server.
   */
  lemma ReportSets(c: Settings, r: Registry, source: Address, instanceKey: seq<u8>, keys: Keys, now: real)
    ensures var t := Report(c, r, source, instanceKey, keys, now).servers;
            var known := source in r.servers;
            var staying := set a | a in r.servers && !Silent(c, r.servers[a], now);
            && (forall a :: a != source ==> (a in t <==> a in r.servers && (known || !Silent(c, r.servers[a], now))))
            && (forall a :: a != source && a in t ==> t[a] == r.servers[a])
            && (source in t <==> Get(keys, "statechanged", "") != "2" && (known || |staying| < c.capacity))
            && (source in t ==>
                  t[source] == Server(instanceKey, keys, known && r.servers[source].registered, now,
                                      if known then r.servers[source].registeredAt else 0.0))
  {
    hide AsMap, Get, Expire;
    GetIsLookup(keys, "statechanged", "");
    SweepDropsIff(c, r, now);
    var swept := Expire(c, r, now);
    assert swept.servers.Keys == set a | a in r.servers && !Silent(c, r.servers[a], now);
  }

  /** A removal takes just its server, and wakes the subscribers exactly if that was registered. */
  lemma RemoveSets(r: Registry, source: Address)
    ensures var t := Remove(r, source);
            && t.servers == r.servers - {source} && t.events.Keys == r.events.Keys
            && forall id :: id in r.events ==>
                 (t.events[id] <==> r.events[id] || (source in r.servers && r.servers[source].registered))
  {
  }

  /** The first registration is the one whose time counts, and the one that wakes the subscribers. */
  lemma RegisterSets(r: Registry, source: Address, now: real)
    ensures var t := Register(r, source, now);
            && t.servers.Keys == r.servers.Keys
            && (forall a :: a in r.servers && a != source ==> t.servers[a] == r.servers[a])
            && (source in r.servers ==>
                  && t.servers[source].registered && t.servers[source].lastSeen == now
                  && t.servers[source].keys == r.servers[source].keys
                  && t.servers[source].registeredAt == if r.servers[source].registered then r.servers[source].registeredAt else now)
            && t.events.Keys == r.events.Keys
            && forall id :: id in r.events ==>
                 (t.events[id] <==> r.events[id] || (source in r.servers && !r.servers[source].registered))
  {
  }

  /** The clock of an event that has one. */
  function Clock(e: Event): Option<real> {
    match e
    case HeartbeatReceived(_, _, now) => Some(now)
    case Registered(_, now) => Some(now)
    case Swept(now) => Some(now)
    case Subscribed(_, _, _, now) => Some(now)
    case Flushed(_, now, _, _) => Some(now)
    case _ => None
  }

  /**
   * Whatever happens: a server is registered only by its own registration, which sets the time that
   * ranks it; while it stays, it stays registered since that time.
   */
  lemma RegistrationLasts(c: Settings, s: State, e: Event, a: Address)
    requires a in Step(c, s, e).registry.servers
    ensures var r, t := s.registry.servers, Step(c, s, e).registry.servers;
            && (a in r && r[a].registered ==> t[a].registered && t[a].registeredAt == r[a].registeredAt)
            && ((a !in r || !r[a].registered) && t[a].registered ==>
                  a in r && e.Registered? && e.source == a && t[a].registeredAt == e.now)
  {
    hide Report, Expire, AsMap, ReadHeartbeat, TryEntries, Orders, RoundFrames;
    RegistryStep(c, s, e, a);
  }

  /** A server goes only by its own word or by a sweep that finds it silent. */
  lemma ServersGoOnlyIf(c: Settings, s: State, e: Event, a: Address)
    requires a in s.registry.servers && a !in Step(c, s, e).registry.servers
    ensures || (e.HeartbeatReceived? && e.source == a)
            || (Clock(e).Some? && Silent(c, s.registry.servers[a], Clock(e).value))
  {
    hide Report, Expire, AsMap, ReadHeartbeat, TryEntries, Orders, RoundFrames;
    RegistryStep(c, s, e, a);
  }

  lemma RegistryStep(c: Settings, s: State, e: Event, a: Address)
    ensures var r, t := s.registry.servers, Step(c, s, e).registry.servers;
            || (a !in r && a !in t) || (a in r && a in t && t[a] == r[a])
            || (a in r && a !in t && Clock(e).Some? && Silent(c, r[a], Clock(e).value))
            || (a in r && a in t && e.Registered? && e.source == a && t[a].registered
                && t[a].registeredAt == if r[a].registered then r[a].registeredAt else e.now)
            || (e.HeartbeatReceived? && e.source == a
                && (a in t ==> if a in r then t[a].registered == r[a].registered && t[a].registeredAt == r[a].registeredAt
                               else !t[a].registered))
  {
    hide Report, Expire, AsMap, ReadHeartbeat, TryEntries, Orders, RoundFrames, Disconnect;
    match e {
      case HeartbeatReceived(source, data, now) =>
        match ReadHeartbeat(c, data) {
          case Status(keys) => ReportSets(c, s.registry, source, data[1..5], keys, now);
          case _ =>
        }
      case Registered(source, now) => RegisterSets(s.registry, source, now);
      case Swept(now) => SweepDropsIff(c, s.registry, now);
      case Subscribed(id, query, text, now) =>
        SweepDropsIff(c, s.registry, now);
        DisconnectServers(s.(registry := Expire(c, s.registry, now)), id);
      case Flushed(id, now, deletes, pushes) =>
        if id in s.registry.events {
          SweepDropsIff(c, Cleared(s.registry, id), now);
        }
      case Disconnected(id) => DisconnectServers(s, id);
      case _ =>
    }
  }

  lemma DisconnectServers(s: State, id: nat)
    ensures Disconnect(s, id).registry.servers == s.registry.servers
  {
  }

  // -------------------------------------------------------------- heartbeats

  /** Assignments in order: the last one to a key counts. */
  function Assigned(m: map<string, string>, pairs: Keys): map<string, string>
    decreases |pairs|
  {
    if pairs == [] then m else Assigned(m[pairs[0].0 := pairs[0].1], pairs[1..])
  }

  lemma {:induction false} PutAssigns(keys: Keys, k: string, v: string)
    ensures AsMap(Put(keys, k, v)) == AsMap(keys)[k := v]
  {
    if keys != [] {
      PutAssigns(keys[1..], k, v);
      assert AsMap(keys) == AsMap(keys[1..])[keys[0].0 := keys[0].1];
    }
  }

  /** Pairs written one behind the other are read as assignments, repeated keys included. */
  lemma {:induction false} PairsAreAssignments(c: Codec, pairs: Keys, before: Keys, rest: seq<u8>)
    requires c.Valid() && forall i :: 0 <= i < |pairs| ==> pairs[i].0 != "" && Plain(pairs[i].0) && Plain(pairs[i].1)
    ensures var r := ParseFrom(c, Rules(c, pairs) + [0] + rest, before);
            r.Some? && AsMap(r.value) == Assigned(AsMap(before), pairs)
    decreases |pairs|
  {
    hide ParseRound, Put, AsMap;
    var data := Rules(c, pairs) + [0] + rest;
    if pairs == [] {
      assert data == [0] + rest;
      RoundOnEnd(c, rest);
    } else {
      var k, v := pairs[0].0, pairs[0].1;
      var tail := Rules(c, pairs[1..]) + [0] + rest;
      assert data == c.encode(k) + [0] + (c.encode(v) + [0] + tail);
      RoundOnPair(c, k, v, tail);
      PutAssigns(before, k, v);
      PairsAreAssignments(c, pairs[1..], Put(before, k, v), rest);
    }
  }

  /**
   * A heartbeat is a type byte, four bytes of instance key, and key-value strings up to an empty key.
   * It removes its server, reports it, or does nothing, as its keys say.
   */
  lemma HeartbeatSays(c: Settings, r: Registry, source: Address, kind: u8, instance: seq<u8>, keys: Keys,
                      rest: seq<u8>, now: real)
    requires c.Valid() && WellFormed(keys) && |instance| == 4
    ensures var data := [kind] + instance + Rules(c.entry.codec, keys) + [0] + rest;
            Heartbeat(c, r, source, data, now)
            == if |data| < 7 || c.packetBytes < |data| then r
               else if ("statechanged", "2") in keys then Remove(r, source)
               else if ("gamename", c.game) in keys || ("gamename", c.game + "am") in keys then
                 Report(c, r, source, instance, keys, now)
               else r
  {
    hide ParseFrom, Rules, Get, WellFormed, Report, Remove;
    var data := [kind] + instance + Rules(c.entry.codec, keys) + [0] + rest;
    assert data[5..] == Rules(c.entry.codec, keys) + [0] + rest && data[1..5] == instance;
    assert [] + keys == keys;
    RulesParseBack(c.entry.codec, keys, [], rest);
    GetIffPresent(keys, "statechanged", "2", "");
    GetIffPresent(keys, "gamename", c.game, "");
    GetIffPresent(keys, "gamename", c.game + "am", "");
    GetIsFresh(keys, "statechanged", "");
  }

  lemma {:induction false} GetIsFresh(keys: Keys, k: string, default: string)
    ensures Get(keys, k, default) == default || !Fresh(keys, k)
  {
    if keys != [] && keys[0].0 != k {
      GetIsFresh(keys[1..], k, default);
    }
  }

  lemma {:induction false} GetIffPresent(keys: Keys, k: string, v: string, default: string)
    requires WellFormed(keys)
    ensures Get(keys, k, default) == v && !Fresh(keys, k) <==> (k, v) in keys
  {
    if keys != [] {
      assert WellFormed(keys[1..]);
      GetIffPresent(keys[1..], k, v, default);
      assert keys == [keys[0]] + keys[1..];
    }
  }

  // ------------------------------------------------------------------- bytes

  /** The private port: the text's number if it is a port, else the public one. */
  function PrivatePort(c: Settings, a: Address, keys: Keys): u16 {
    var text := Get(keys, "localport", "");
    if Readable(c, text) && 1 <= c.entry.value(text) <= 65535 then c.entry.value(text) else a.port
  }

  /** The private host: none without a text, or with one that is no address. */
  function PrivateAddress(c: Settings, keys: Keys): Option<Host> {
    if Get(keys, "localip0", "") == "" then None else c.entry.aton(Get(keys, "localip0", ""))
  }

  lemma Pieces(flags: u8, host: seq<u8>, port: seq<u8>, private: seq<u8>, local: seq<u8>, rules: seq<u8>)
    requires |host| == 4
    ensures var e := [flags] + host + port + private + local + rules + [0];
            var p, h := 5 + |port|, 5 + |port| + |private|;
            && e[0] == flags && e[1..5] == host && e[5..p] == port && e[p..h] == private && e[h..h + |local|] == local
            && e[h + |local|..] == rules + [0]
  {
  }

  /**
   * The bytes of an entry: the flags, the host, the port if it is not the default one, the private host
   * if there is one, the private port if it is not the default one, and the key-value strings.
   */
  lemma EntryBytes(c: Settings, a: Address, keys: Keys)
    ensures var e, host, q := Entry(c.entry, a, keys), PrivateAddress(c, keys), c.entry.queryPort;
            var port := PrivatePort(c, a, keys);
            var p := if a.port != q then 7 else 5;
            var h := if host.Some? then p + 4 else p;
            var l := if port != q then h + 2 else h;
            && l < |e|
            && e[0] == 128 + (if Get(keys, "natneg", "0") != "0" then 4 else 0) + (if a.port != q then 16 else 0)
                           + (if host.Some? then 2 else 0) + (if port != q then 32 else 0)
            && e[1..5] == a.host && (a.port != q ==> e[5..7] == [a.port / 256, a.port % 256])
            && (host.Some? ==> e[p..h] == host.value)
            && (port != q ==> e[h..l] == [port / 256, port % 256])
            && e[l..] == Rules(c.entry.codec, keys) + [0]
  {
    hide Get, Rules, LocalPort, PrivateHost, PrivatePort, PrivateAddress;
    PortIs(c, a, keys);
    AddressIs(c, keys);
    var host, q, port := PrivateAddress(c, keys), c.entry.queryPort, PrivatePort(c, a, keys);
    Pieces(Flags(Negotiates(keys), a.port != q, host.Some?, port != q), a.host, Optional(a.port != q, Big16(a.port)),
           if host.Some? then host.value else [], Optional(port != q, Big16(port)), Rules(c.entry.codec, keys));
  }

  lemma AddressIs(c: Settings, keys: Keys)
    ensures PrivateHost(c.entry, keys) == PrivateAddress(c, keys)
  {
    hide Get;
  }

  lemma PortIs(c: Settings, a: Address, keys: Keys)
    ensures LocalPort(c.entry, a, keys) == PrivatePort(c, a, keys)
  {
    hide Get;
  }

  /** Key-value strings: each key and each value is followed by a zero byte. */
  lemma {:induction false} RulesBytes(c: Codec, keys: Keys, k: string, v: string)
    ensures Rules(c, keys + [(k, v)]) == Rules(c, keys) + c.encode(k) + [0] + c.encode(v) + [0]
  {
    if keys != [] {
      assert (keys + [(k, v)])[1..] == keys[1..] + [(k, v)];
      RulesBytes(c, keys[1..], k, v);
    } else {
      assert [(k, v)][1..] == [] && [] + [(k, v)] == [(k, v)];
    }
  }

  /** A frame begins with its own length in two bytes; a delete is type 4 and an address, a push type 2 and an entry. */
  lemma FrameBytes(a: Address, entry: seq<u8>)
    ensures DeleteFrame(a) == [0, 9, 4] + a.host + [a.port / 256, a.port % 256]
    ensures |entry| <= 65532 ==> PushFrame(entry) == [(|entry| + 3) / 256, (|entry| + 3) % 256, 2] + entry
    ensures |entry| <= MAX_ENTRY <==> |entry| + 3 <= 65535
  {
  }

  /** Frame `i` of a round, told by what the round goes through. */
  ghost predicate FrameIs(current: map<Address, seq<u8>>, deletes: seq<Address>, pushes: seq<Address>, i: nat, frame: seq<u8>) {
    if i < |deletes| then frame == [0, 9, 4] + deletes[i].host + [deletes[i].port / 256, deletes[i].port % 256]
    else
      && i - |deletes| < |pushes| && pushes[i - |deletes|] in current
      && var entry := current[pushes[i - |deletes|]];
         |entry| <= 65532 && frame == [(|entry| + 3) / 256, (|entry| + 3) % 256, 2] + entry
  }

  lemma {:induction false} DeleteFrameAt(deletes: seq<Address>, i: nat)
    requires i < |deletes|
    ensures |DeleteFrames(deletes)| == |deletes| && DeleteFrames(deletes)[i] == DeleteFrame(deletes[i])
    decreases |deletes|
  {
    hide DeleteFrame;
    if i != 0 {
      DeleteFrameAt(deletes[1..], i - 1);
    } else if |deletes| > 1 {
      DeleteFrameAt(deletes[1..], 0);
    }
  }

  lemma {:induction false} PushFrameAt(pushes: seq<Address>, entries: map<Address, seq<u8>>, i: nat)
    requires (forall k :: 0 <= k < |pushes| ==> pushes[k] in entries) && i < |pushes| && PushFrames(pushes, entries).Some?
    ensures var frames := PushFrames(pushes, entries).value;
            && |frames| == |pushes| && |entries[pushes[i]]| <= MAX_ENTRY
            && frames[i] == PushFrame(entries[pushes[i]])
    decreases |pushes|
  {
    hide PushFrame;
    if i != 0 {
      PushFrameAt(pushes[1..], entries, i - 1);
    } else if |pushes| > 1 {
      PushFrameAt(pushes[1..], entries, 0);
    }
  }

  /**
   * A round deletes each source that is no longer listed, once, and pushes each source that is new or
   * whose entry has changed, once: these frames and no others, the deletes first.
   */
  lemma RoundSends(known: map<Address, seq<u8>>, current: map<Address, seq<u8>>, deletes: seq<Address>,
                   pushes: seq<Address>, i: nat)
    requires Orders(known, current, deletes, pushes) && RoundFrames(known, current, deletes, pushes).Some?
    ensures forall j, k :: 0 <= j < k < |deletes| ==> deletes[j] != deletes[k]
    ensures forall j, k :: 0 <= j < k < |pushes| ==> pushes[j] != pushes[k]
    ensures forall a :: a in deletes <==> a in known && a !in current
    ensures forall a :: a in pushes <==> a in current && (a !in known || known[a] != current[a])
    ensures var frames := RoundFrames(known, current, deletes, pushes).value;
            |frames| == |deletes| + |pushes| && (i < |frames| ==> FrameIs(current, deletes, pushes, i, frames[i]))
  {
    hide PushFrame, DeleteFrame, PushFrames, DeleteFrames;
    InOrder(pushes, Changed(known, current));
    ChangedIsCurrent(known, current);
    if deletes != [] {
      DeleteFrameAt(deletes, if i < |deletes| then i else 0);
    } else {
      NoDeletes();
    }
    if pushes != [] {
      PushFrameAt(pushes, current, if |deletes| <= i < |deletes| + |pushes| then i - |deletes| else 0);
    } else {
      NoPushes(current);
    }
    if i < |deletes| {
      FrameBytes(deletes[i], []);
    } else if i < |deletes| + |pushes| {
      FrameBytes(pushes[i - |deletes|], current[pushes[i - |deletes|]]);
    }
  }

  lemma NoDeletes()
    ensures DeleteFrames([]) == []
  {
  }

  lemma NoPushes(entries: map<Address, seq<u8>>)
    ensures PushFrames([], entries) == Some([])
  {
  }
}
