/**
 * The order of keys.  `report_server` compares dictionaries, whose equality ignores order, while an
 * entry is serialised in order: a report that only reorders its keys changes the entry silently.
 */
module BrowserOrder {
  import opened Wrappers
  import opened Bytes
  import opened ServerKeys
  import opened ServerEntries
  import opened Browser
  import opened BrowserTracking

  /** What the subscription knows is the current listing, byte for byte. */
  ghost predicate Exactly(c: Settings, sub: Subscription, servers: Servers) {
    sub.known == Entries(c, sub.query, sub.text, servers)
  }

  /** No registered server's keys differ, not even in order. */
  ghost predicate SameKeyOrder(s: Servers, t: Servers) {
    forall a :: a in s && s[a].registered && a in t ==> t[a].keys == s[a].keys
  }

  lemma EntriesSame(c: Settings, query: string, text: string, s: Servers, t: Servers)
    requires SameRegistered(s, t) && SameKeyOrder(s, t)
    ensures Entries(c, query, text, s) == Entries(c, query, text, t)
  {
    hide Listed, Entry;
    ListingDepends(c, query, text, s, t);
    ListedIn(c, query, text, s);
  }

  /** No event is set by this report: told from what is registered before it. */
  ghost predicate Untold(c: Settings, servers: Servers, source: Address, instanceKey: seq<u8>, keys: Keys, now: real) {
    if source in servers then
      servers[source].registered ==>
        servers[source].instanceKey == instanceKey && AsMap(servers[source].keys) == AsMap(keys)
        && Lookup(AsMap(keys), "statechanged", "") != "2"
    else forall a :: a in servers && servers[a].registered ==> Retained(c, servers[a], now)
  }

  /** An event is set after a report if and only if it was set before or the report is not untold. */
  lemma UntoldIff(c: Settings, r: Registry, id: nat, source: Address, instanceKey: seq<u8>, keys: Keys, now: real)
    requires id in r.events
    ensures var t := Report(c, r, source, instanceKey, keys, now);
            id in t.events && (t.events[id] <==> r.events[id] || !Untold(c, r.servers, source, instanceKey, keys, now))
  {
    hide AsMap;
  }

  /** The servers after a report do not depend on the events before it. */
  lemma ReportIgnoresEvents(c: Settings, r: Registry, events: map<nat, bool>, source: Address, instanceKey: seq<u8>,
                            keys: Keys, now: real)
    ensures Report(c, r.(events := events), source, instanceKey, keys, now).servers
            == Report(c, r, source, instanceKey, keys, now).servers
  {
    hide AsMap;
  }

  /** After an untold report: the same servers are registered, the source with its new keys, the others with their old ones. */
  lemma UntoldKeeps(c: Settings, r: Registry, source: Address, instanceKey: seq<u8>, keys: Keys, now: real)
    requires Untold(c, r.servers, source, instanceKey, keys, now)
    ensures var t := Report(c, r, source, instanceKey, keys, now).servers;
            && SameRegistered(r.servers, t)
            && (forall a :: a in r.servers && r.servers[a].registered && a != source && a in t ==> t[a].keys == r.servers[a].keys)
            && (source in r.servers && r.servers[source].registered ==> source in t && t[source].keys == keys)
  {
    hide Untold, SameRegistered, Report;
    var one := r.(events := map[0 := false]);
    UntoldIff(c, one, 0, source, instanceKey, keys, now);
    ReportTells(c, one, source, instanceKey, keys, now);
    ReportIgnoresEvents(c, r, map[0 := false], source, instanceKey, keys, now);
    KeysReported(c, one, source, instanceKey, keys, now);
  }

  lemma KeysReported(c: Settings, r: Registry, source: Address, instanceKey: seq<u8>, keys: Keys, now: real)
    requires Untold(c, r.servers, source, instanceKey, keys, now)
    ensures var t := Report(c, r, source, instanceKey, keys, now).servers;
            && (forall a :: a in r.servers && r.servers[a].registered && a != source && a in t ==> t[a].keys == r.servers[a].keys)
            && (source in r.servers && r.servers[source].registered ==> source in t && t[source].keys == keys)
  {
    hide AsMap;
  }

  /**
   * A report that nobody is told of leaves what a subscription knows exact if and only if the source
   * is not listed or the report brings its keys in the very order they were in.
   */
  lemma UntoldReportIsExactIff(c: Settings, sub: Subscription, r: Registry,
                               source: Address, instanceKey: seq<u8>, keys: Keys, now: real)
    requires c.Valid() && WellFormed(keys) && (forall a :: a in r.servers ==> WellFormed(r.servers[a].keys))
    requires Untold(c, r.servers, source, instanceKey, keys, now) && Exactly(c, sub, r.servers)
    ensures Exactly(c, sub, Report(c, r, source, instanceKey, keys, now).servers)
            <==> (source in Listed(c, sub.query, sub.text, r.servers) && source in r.servers ==> r.servers[source].keys == keys)
  {
    hide Listed, Entry, WellFormed, Rules, Report, AsMap, Untold;
    var t := Report(c, r, source, instanceKey, keys, now);
    UntoldKeeps(c, r, source, instanceKey, keys, now);
    ListingDepends(c, sub.query, sub.text, r.servers, t.servers);
    ListedIn(c, sub.query, sub.text, r.servers);
    var listed := Listed(c, sub.query, sub.text, r.servers);
    if source in listed {
      EntryIsInjective(c.entry, source, r.servers[source].keys, source, keys);
      var after := Entries(c, sub.query, sub.text, t.servers);
      assert after[source] == Entry(c.entry, source, keys);
    }
    assert forall a :: a in listed && a != source ==> t.servers[a].keys == r.servers[a].keys;
  }

  // -------------------------------------------------------------------- runs

  /** The event is a heartbeat that brings a registered server's keys in another order. */
  ghost predicate Reorders(c: Settings, s: State, e: Event) {
    && e.HeartbeatReceived? && ReadHeartbeat(c, e.data).Status?
    && e.source in s.registry.servers && s.registry.servers[e.source].registered
    && AsMap(s.registry.servers[e.source].keys) == AsMap(ReadHeartbeat(c, e.data).keys)
    && s.registry.servers[e.source].keys != ReadHeartbeat(c, e.data).keys
  }

  ghost predicate SteadyRun(c: Settings, events: seq<Event>) {
    forall i :: 0 <= i < |events| ==> !Reorders(c, Run(c, events[..i]), events[i])
  }

  /** A running push task whose event is clear. */
  predicate Settled(s: State, id: nat) {
    id in s.subscriptions && id in s.pushing && id in s.registry.events && !s.registry.events[id]
  }

  ghost predicate ExactFor(c: Settings, s: State, id: nat) {
    Settled(s, id) ==> Exactly(c, s.subscriptions[id], s.registry.servers)
  }

  ghost predicate TellsOrder(r: Registry, t: Registry) {
    && Tells(r, t)
    && forall id :: id in t.events && !t.events[id] ==> SameKeyOrder(r.servers, t.servers)
  }

  lemma RegistryExact(c: Settings, s: State, r: Registry, id: nat)
    requires ExactFor(c, s, id) && TellsOrder(s.registry, r)
    ensures ExactFor(c, s.(registry := r), id)
  {
    hide Entries, SameRegistered, SameKeyOrder;
    if Settled(s.(registry := r), id) {
      EntriesSame(c, s.subscriptions[id].query, s.subscriptions[id].text, s.registry.servers, r.servers);
    }
  }

  lemma ExpireTellsOrder(c: Settings, r: Registry, now: real)
    ensures TellsOrder(r, Expire(c, r, now))
  {
    ExpireTells(c, r, now);
  }

  lemma OthersTellOrder(c: Settings, r: Registry, source: Address, now: real)
    ensures TellsOrder(r, Register(r, source, now)) && TellsOrder(r, Remove(r, source))
  {
    RegisterTells(r, source, now);
    RemoveTells(r, source);
  }

  lemma ReportTellsOrder(c: Settings, r: Registry, source: Address, instanceKey: seq<u8>, keys: Keys, now: real)
    requires source in r.servers && r.servers[source].registered && AsMap(r.servers[source].keys) == AsMap(keys) ==>
               r.servers[source].keys == keys
    ensures TellsOrder(r, Report(c, r, source, instanceKey, keys, now))
  {
    hide AsMap, SameRegistered, Report;
    var t := Report(c, r, source, instanceKey, keys, now);
    ReportTells(c, r, source, instanceKey, keys, now);
    forall id | id in t.events && !t.events[id]
      ensures SameKeyOrder(r.servers, t.servers)
    {
      UntoldIff(c, r, id, source, instanceKey, keys, now);
      UntoldKeeps(c, r, source, instanceKey, keys, now);
    }
  }

  lemma HeartbeatTellsOrder(c: Settings, s: State, source: Address, data: seq<u8>, now: real)
    requires !Reorders(c, s, HeartbeatReceived(source, data, now))
    ensures TellsOrder(s.registry, Heartbeat(c, s.registry, source, data, now))
  {
    hide AsMap, ReadHeartbeat, Report, Remove, Tells, SameKeyOrder;
    match ReadHeartbeat(c, data) {
      case Nothing => NothingTellsOrder(s.registry);
      case Farewell => OthersTellOrder(c, s.registry, source, now);
      case Status(keys) => ReportTellsOrder(c, s.registry, source, data[1..5], keys, now);
    }
  }

  lemma NothingTellsOrder(r: Registry)
    ensures TellsOrder(r, r)
  {
  }

  lemma FlushExact(c: Settings, s: State, j: nat, now: real, deletes: seq<Address>, pushes: seq<Address>, id: nat)
    requires ExactFor(c, s, id) && Inv(c, s)
    ensures ExactFor(c, Flush(c, s, j, now, deletes, pushes), id)
  {
    hide Tracks, AllBrought, Entries, EntriesRaise, ApplyFrames, RoundFrames, Orders, Changed, SameRegistered,
      SameKeyOrder, Expire;
    if FlushDue(s, j) && j in s.subscriptions {
      SweptInFlush(c, s, j, now);
      ExpireTellsOrder(c, Cleared(s.registry, j), now);
      var r := Expire(c, Cleared(s.registry, j), now);
      if Settled(s, id) && j != id && !r.events[id] {
        EntriesSame(c, s.subscriptions[id].query, s.subscriptions[id].text, s.registry.servers, r.servers);
      }
    }
  }

  lemma SubscribeExact(c: Settings, s: State, j: nat, query: string, text: string, now: real, id: nat)
    requires ExactFor(c, s, id)
    ensures ExactFor(c, Subscribe(c, s, j, query, text, now), id)
  {
    hide Entries, EntriesRaise, SameRegistered, SameKeyOrder, Expire;
    ExpireTellsOrder(c, s.registry, now);
    RegistryExact(c, s, Expire(c, s.registry, now), id);
  }

  lemma ConnectionsExact(c: Settings, s: State, j: nat, id: nat)
    requires ExactFor(c, s, id) && Inv(c, s)
    ensures ExactFor(c, Connect(s, j), id) && ExactFor(c, Disconnect(s, j), id)
  {
    hide Exactly, Tracks, AllBrought;
  }

  lemma StepExact(c: Settings, s: State, e: Event, id: nat)
    requires ExactFor(c, s, id) && Inv(c, s) && !Reorders(c, s, e)
    ensures ExactFor(c, Step(c, s, e), id)
  {
    hide Exactly, Inv, Heartbeat, Register, Expire, Subscribe, Flush, TellsOrder, Reorders, Connect, Disconnect;
    match e {
      case HeartbeatReceived(source, data, now) =>
        HeartbeatTellsOrder(c, s, source, data, now);
        RegistryExact(c, s, Heartbeat(c, s.registry, source, data, now), id);
      case Registered(source, now) =>
        OthersTellOrder(c, s.registry, source, now);
        RegistryExact(c, s, Register(s.registry, source, now), id);
      case Swept(now) =>
        ExpireTellsOrder(c, s.registry, now);
        RegistryExact(c, s, Expire(c, s.registry, now), id);
      case Connected(j) => ConnectionsExact(c, s, j, id);
      case Subscribed(j, query, text, now) => SubscribeExact(c, s, j, query, text, now, id);
      case Unsubscribed(_) =>
      case Flushed(j, now, deletes, pushes) => FlushExact(c, s, j, now, deletes, pushes, id);
      case Disconnected(j) => ConnectionsExact(c, s, j, id);
    }
  }

  /** As long as nobody reorders keys, a running task with a clear event knows the listing byte for byte. */
  lemma {:induction false} SteadyRunsAreExact(c: Settings, events: seq<Event>, id: nat)
    requires c.Valid() && SteadyRun(c, events)
    ensures ExactFor(c, Run(c, events), id)
  {
    hide Step, Inv, ExactFor, Reorders;
    if events == [] {
      EmptyIsExact(c, id);
    } else {
      var before, e := events[..|events| - 1], events[|events| - 1];
      assert !Reorders(c, Run(c, events[..|events| - 1]), e);
      forall i | 0 <= i < |before|
        ensures !Reorders(c, Run(c, before[..i]), before[i])
      {
        assert before[..i] == events[..i] && before[i] == events[i];
      }
      SteadyRunsAreExact(c, before, id);
      RunKeeps(c, before);
      StepExact(c, Run(c, before), e, id);
    }
  }

  lemma EmptyIsExact(c: Settings, id: nat)
    ensures ExactFor(c, EMPTY, id)
  {
  }

  /**
   * In every run, a running task whose event is clear before and after a step and whose knowledge was
   * exact loses exactness if and only if the step reorders the keys of a server on its listing.
   */
  lemma ExactnessIsLostIff(c: Settings, events: seq<Event>, e: Event, id: nat)
    requires c.Valid()
    requires var s := Run(c, events);
             && Settled(s, id) && Exactly(c, s.subscriptions[id], s.registry.servers) && Settled(Step(c, s, e), id)
    ensures var s, t := Run(c, events), Step(c, Run(c, events), e);
            !Exactly(c, t.subscriptions[id], t.registry.servers)
            <==> Reorders(c, s, e) && e.source in Listed(c, s.subscriptions[id].query, s.subscriptions[id].text, s.registry.servers)
  {
    hide Run, Exactly, Heartbeat, Listed, Register, Expire, Connect, Subscribe, Flush, Disconnect, Tracks, AllBrought, AsMap;
    var s := Run(c, events);
    RunKeeps(c, events);
    if Reorders(c, s, e) {
      ReorderIsExactIff(c, s, e.source, e.data, e.now, id);
    } else {
      StepExact(c, s, e, id);
    }
  }

  lemma ReorderIsExactIff(c: Settings, s: State, source: Address, data: seq<u8>, now: real, id: nat)
    requires c.Valid() && AllBrought(c, s.registry.servers) && Reorders(c, s, HeartbeatReceived(source, data, now))
    requires id in s.registry.events && id in Heartbeat(c, s.registry, source, data, now).events
    requires !Heartbeat(c, s.registry, source, data, now).events[id]
    requires id in s.subscriptions && Exactly(c, s.subscriptions[id], s.registry.servers)
    ensures Exactly(c, s.subscriptions[id], Heartbeat(c, s.registry, source, data, now).servers)
            <==> source !in Listed(c, s.subscriptions[id].query, s.subscriptions[id].text, s.registry.servers)
  {
    hide Exactly, ReadHeartbeat, Report, Listed, Untold, WellFormed, AsMap, ValuesWithin, Rules;
    var keys := ReadHeartbeat(c, data).keys;
    HeartbeatsBring(c, data);
    UntoldIff(c, s.registry, id, source, data[1..5], keys, now);
    forall a | a in s.registry.servers
      ensures WellFormed(s.registry.servers[a].keys)
    {
      assert Brought(c, s.registry.servers[a].keys);
    }
    UntoldReportIsExactIff(c, s.subscriptions[id], s.registry, source, data[1..5], keys, now);
  }

  /**
   * It does happen: a server known as gamename, x reports again as x, gamename.  The event stays
   * clear, and what the subscriber knows is no longer the entry a query would get.
   */
  lemma ReorderingGoesUntold(c: Settings, a: Address, instanceKey: seq<u8>, now: real)
    requires c.Valid() && c.game == "g" && forall m: map<string, string>, text: string :: c.matches(m, text)
    ensures var before := [("gamename", "g"), ("x", "1")];
            var after := [("x", "1"), ("gamename", "g")];
            var r := Registry(map[a := Server(instanceKey, before, true, now, now)], map[0 := false]);
            var t := Report(c, r, a, instanceKey, after, now);
            && 0 in t.events && !t.events[0]
            && Entries(c, "g", "", t.servers) != Entries(c, "g", "", r.servers)
  {
    hide Entries, Report, Untold, AsMap, Get, WellFormed, Listed;
    var before := [("gamename", "g"), ("x", "1")];
    var after := [("x", "1"), ("gamename", "g")];
    var r := Registry(map[a := Server(instanceKey, before, true, now, now)], map[0 := false]);
    SwappedKeys();
    BothWellFormed(before);
    BothWellFormed(after);
    BothListed(c, a, r.servers[a]);
    NoFarewell(c, a, r.servers, instanceKey, before, after, now);
    UntoldIff(c, r, 0, a, instanceKey, after, now);
    var sub := Subscription("g", "", Entries(c, "g", "", r.servers));
    UntoldReportIsExactIff(c, sub, r, a, instanceKey, after, now);
    assert before[0] != after[0];
  }

  lemma BothWellFormed(keys: Keys)
    requires |keys| == 2 && {keys[0], keys[1]} == {("gamename", "g"), ("x", "1")} && keys[0] != keys[1]
    ensures WellFormed(keys)
  {
    assert keys[0] in {("gamename", "g"), ("x", "1")} && keys[1] in {("gamename", "g"), ("x", "1")};
  }

  lemma NoFarewell(c: Settings, a: Address, servers: Servers, instanceKey: seq<u8>, before: Keys, after: Keys, now: real)
    requires a in servers && servers[a].instanceKey == instanceKey && servers[a].keys == before
    requires AsMap(before) == AsMap(after) == map["gamename" := "g", "x" := "1"]
    ensures Untold(c, servers, a, instanceKey, after, now)
  {
    hide AsMap;
  }

  lemma BothListed(c: Settings, a: Address, s: Server)
    requires s.registered && c.game == "g" && AsMap(s.keys) == map["gamename" := "g", "x" := "1"]
    requires forall m: map<string, string>, text: string :: c.matches(m, text)
    ensures a in Listed(c, "g", "", map[a := s])
  {
    hide AsMap;
    assert "g" != "g" + "am";
    assert Matching(c, "g", "", s);
  }

  lemma SwappedKeys()
    ensures AsMap([("gamename", "g"), ("x", "1")]) == AsMap([("x", "1"), ("gamename", "g")])
    ensures AsMap([("gamename", "g"), ("x", "1")]) == map["gamename" := "g", "x" := "1"]
  {
    assert [("gamename", "g"), ("x", "1")][1..] == [("x", "1")];
    assert [("x", "1"), ("gamename", "g")][1..] == [("gamename", "g")];
    assert AsMap([("x", "1")]) == map["x" := "1"];
    assert AsMap([("gamename", "g")]) == map["gamename" := "g"];
  }
}
