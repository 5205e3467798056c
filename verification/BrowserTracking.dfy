/**
 * No update of the listing is lost while the push task runs: the frames of a flush take a client from
 * the old listing to the new one, and while the event of a running task is clear what the subscription
 * knows is the current listing.  When push tasks end is in BrowserTasks.
 */
module BrowserTracking {
  import opened Wrappers
  import opened Bytes
  import opened ServerKeys
  import opened ServerEntries
  import opened Browser

  // ------------------------------------------------------------------ frames

  lemma DeleteApplies(c: Settings, m: map<Address, seq<u8>>, a: Address)
    ensures ApplyFrame(c, m, DeleteFrame(a)) == m - {a}
  {
    hide FromBig16, Big16, ParseEntry;
    var frame := DeleteFrame(a);
    Big16ReadsBack(9);
    Big16ReadsBack(a.port);
    assert frame[..2] == Big16(9) && frame[3..7] == a.host && frame[7..9] == Big16(a.port);
  }

  lemma PushApplies(c: Settings, m: map<Address, seq<u8>>, a: Address, keys: Keys)
    requires c.Valid() && WellFormed(keys) && |Entry(c.entry, a, keys)| <= MAX_ENTRY
    ensures ApplyFrame(c, m, PushFrame(Entry(c.entry, a, keys))) == m[a := Entry(c.entry, a, keys)]
  {
    hide FromBig16, Big16, ParseEntry, Entry, WellFormed;
    var entry := Entry(c.entry, a, keys);
    var frame := PushFrame(entry);
    Big16ReadsBack(|entry| + 3);
    EntryReadsBack(c.entry, a, keys);
    EntrySize(c.entry, a, keys);
    assert frame[..2] == Big16(|entry| + 3) && frame[3..] == entry;
  }

  /** A map whose every entry encodes its own address. */
  ghost predicate Encodes(c: Settings, a: Address, entry: seq<u8>) {
    exists keys :: WellFormed(keys) && entry == Entry(c.entry, a, keys)
  }

  lemma EncodedPushApplies(c: Settings, m: map<Address, seq<u8>>, a: Address, entry: seq<u8>)
    requires c.Valid() && Encodes(c, a, entry) && |entry| <= MAX_ENTRY
    ensures ApplyFrame(c, m, PushFrame(entry)) == m[a := entry]
  {
    hide ApplyFrame, PushFrame, Entry, WellFormed;
    var keys :| WellFormed(keys) && entry == Entry(c.entry, a, keys);
    PushApplies(c, m, a, keys);
  }

  lemma {:induction false} DeletesApply(c: Settings, m: map<Address, seq<u8>>, deletes: seq<Address>,
          rest: seq<seq<u8>>)
    ensures ApplyFrames(c, m, DeleteFrames(deletes) + rest) == ApplyFrames(c, m - (set a | a in deletes), rest)
    decreases |deletes|
  {
    hide ApplyFrame, DeleteFrame;
    if deletes == [] {
      assert DeleteFrames(deletes) + rest == rest && m - (set a | a in deletes) == m;
    } else {
      var frames := DeleteFrames(deletes) + rest;
      assert frames[0] == DeleteFrame(deletes[0]) && frames[1..] == DeleteFrames(deletes[1..]) + rest;
      DeleteApplies(c, m, deletes[0]);
      DeletesApply(c, m - {deletes[0]}, deletes[1..], rest);
      assert (set a | a in deletes) == {deletes[0]} + (set a | a in deletes[1..]);
      assert m - {deletes[0]} - (set a | a in deletes[1..]) == m - (set a | a in deletes);
    }
  }

  function Only(m: map<Address, seq<u8>>, order: seq<Address>): map<Address, seq<u8>> {
    map a | a in m && a in order :: m[a]
  }

  /** The frames of a round come out if and only if every entry to push fits one. */
  lemma {:induction false} PushesFit(pushes: seq<Address>, entries: map<Address, seq<u8>>)
    requires forall i :: 0 <= i < |pushes| ==> pushes[i] in entries
    ensures PushFrames(pushes, entries).Some? <==> forall i :: 0 <= i < |pushes| ==> |entries[pushes[i]]| <= MAX_ENTRY
    decreases |pushes|
  {
    hide PushFrame;
    if pushes != [] {
      PushesFit(pushes[1..], entries);
      if PushFrames(pushes, entries).Some? {
        forall i | 0 <= i < |pushes|
          ensures |entries[pushes[i]]| <= MAX_ENTRY
        {
          assert i > 0 ==> pushes[i] == pushes[1..][i - 1];
        }
      } else {
        assert |entries[pushes[0]]| <= MAX_ENTRY ==> exists i :: 0 <= i < |pushes[1..]| && |entries[pushes[1..][i]]| > MAX_ENTRY;
      }
    }
  }

  lemma {:induction false} PushesApply(c: Settings, m: map<Address, seq<u8>>, pushes: seq<Address>,
          entries: map<Address, seq<u8>>)
    requires c.Valid() && (forall i :: 0 <= i < |pushes| ==> pushes[i] in entries) && PushFrames(pushes, entries).Some?
    requires forall a :: a in entries ==> Encodes(c, a, entries[a])
    ensures ApplyFrames(c, m, PushFrames(pushes, entries).value) == m + Only(entries, pushes)
    decreases |pushes|
  {
    hide ApplyFrame, PushFrame, Encodes, Only;
    if pushes == [] {
      NothingMore(m, entries);
    } else {
      var a := pushes[0];
      EncodedPushApplies(c, m, a, entries[a]);
      var frames := PushFrames(pushes, entries).value;
      assert frames[0] == PushFrame(entries[a]) && frames[1..] == PushFrames(pushes[1..], entries).value;
      PushesApply(c, m[a := entries[a]], pushes[1..], entries);
      FirstThenRest(m, pushes, entries);
    }
  }

  lemma NothingMore(m: map<Address, seq<u8>>, entries: map<Address, seq<u8>>)
    ensures m + Only(entries, []) == m
  {
  }

  lemma FirstThenRest(m: map<Address, seq<u8>>, pushes: seq<Address>, entries: map<Address, seq<u8>>)
    requires pushes != [] && pushes[0] in entries
    ensures m[pushes[0] := entries[pushes[0]]] + Only(entries, pushes[1..]) == m + Only(entries, pushes)
  {
  }

  /** A round sends its frames if and only if every entry that is new or has changed fits one. */
  lemma RoundSendsIff(known: map<Address, seq<u8>>, current: map<Address, seq<u8>>, deletes: seq<Address>, pushes: seq<Address>)
    requires Orders(known, current, deletes, pushes)
    ensures RoundFrames(known, current, deletes, pushes).Some?
            <==> forall a :: a in Changed(known, current) ==> |current[a]| <= MAX_ENTRY
  {
    hide PushFrames, Changed;
    InOrder(pushes, Changed(known, current));
    ChangedIsCurrent(known, current);
    PushesFit(pushes, current);
    if forall i :: 0 <= i < |pushes| ==> |current[pushes[i]]| <= MAX_ENTRY {
      forall a | a in Changed(known, current)
        ensures |current[a]| <= MAX_ENTRY
      {
        assert a in pushes;
      }
    }
  }

  lemma ChangedIsCurrent(known: map<Address, seq<u8>>, current: map<Address, seq<u8>>)
    ensures forall a :: a in Changed(known, current) ==> a in current
  {
  }

  /** The frames of a round, in any order of deletes and of pushes, turn the old listing into the new. */
  lemma FramesReachListing(c: Settings, known: map<Address, seq<u8>>, current: map<Address, seq<u8>>,
                           deletes: seq<Address>, pushes: seq<Address>)
    requires c.Valid() && forall a :: a in current ==> Encodes(c, a, current[a])
    requires Orders(known, current, deletes, pushes) && forall a :: a in Changed(known, current) ==> |current[a]| <= MAX_ENTRY
    ensures RoundFrames(known, current, deletes, pushes).Some?
    ensures ApplyFrames(c, known, RoundFrames(known, current, deletes, pushes).value) == current
  {
    hide ApplyFrames, Encodes, DeleteFrames, PushFrames;
    RoundSendsIff(known, current, deletes, pushes);
    InOrder(pushes, Changed(known, current));
    DeletesApply(c, known, deletes, PushFrames(pushes, current).value);
    PushesApply(c, known - (set a | a in deletes), pushes, current);
    assert known - (set a | a in deletes) + Only(current, pushes) == current;
  }

  // ----------------------------------------------------- the listing's grounds

  /** The same servers are registered, since the same time, with the same keys up to their order. */
  ghost predicate SameRegistered(s: Servers, t: Servers) {
    forall a :: (a in s && s[a].registered <==> a in t && t[a].registered)
                && (a in s && s[a].registered && a in t ==>
                      AsMap(s[a].keys) == AsMap(t[a].keys) && s[a].registeredAt == t[a].registeredAt)
  }

  lemma SameCandidates(c: Settings, query: string, text: string, s: Servers, t: Servers)
    requires SameRegistered(s, t)
    ensures Candidates(c, query, text, s) == Candidates(c, query, text, t)
  {
    forall a
      ensures a in Candidates(c, query, text, s) <==> a in Candidates(c, query, text, t)
    {
    }
  }

  /** The listing depends on nothing else. */
  lemma ListingDepends(c: Settings, query: string, text: string, s: Servers, t: Servers)
    requires SameRegistered(s, t)
    ensures Listed(c, query, text, s) == Listed(c, query, text, t)
    ensures forall a :: a in Listed(c, query, text, s) ==> a in s && a in t && AsMap(s[a].keys) == AsMap(t[a].keys)
  {
    hide Matching, HasRoom;
    SameCandidates(c, query, text, s, t);
    CandidatesRegistered(c, query, text, s);
    forall a
      ensures a in Listed(c, query, text, s) <==> a in Listed(c, query, text, t)
    {
    }
  }

  lemma CandidatesRegistered(c: Settings, query: string, text: string, s: Servers)
    ensures forall a :: a in Candidates(c, query, text, s) ==> a in s && s[a].registered
  {
  }

  /** An automatch lists exactly one host if any is open. */
  lemma OneHostIsListed(c: Settings, text: string, servers: Servers)
    requires c.Valid() && Candidates(c, c.game + "am", text, servers) != {}
    ensures exists a :: Listed(c, c.game + "am", text, servers) == {a}
  {
    hide Candidates;
    var all := Candidates(c, c.game + "am", text, servers);
    CandidatesIn(c, c.game + "am", text, servers);
    var a := Oldest(c, servers, all);
    assert Listed(c, c.game + "am", text, servers) == {a};
  }

  lemma CandidatesIn(c: Settings, query: string, text: string, servers: Servers)
    ensures forall a :: a in Candidates(c, query, text, servers) ==> a in servers
  {
  }

  lemma BeforeIsOrder(c: Settings, servers: Servers, x: Address, y: Address, z: Address)
    requires c.Valid() && x in servers && y in servers && z in servers
    ensures x != y ==> (Before(c, servers, x, y) <==> !Before(c, servers, y, x))
    ensures Before(c, servers, x, y) && Before(c, servers, y, z) ==> Before(c, servers, x, z)
  {
  }

  lemma {:induction false} Oldest(c: Settings, servers: Servers, all: set<Address>) returns (a: Address)
    requires c.Valid() && all != {} && forall b :: b in all ==> b in servers
    ensures a in all && forall b :: b in all && b != a ==> Before(c, servers, a, b) && !Before(c, servers, b, a)
    decreases |all|
  {
    hide Before;
    var x :| x in all;
    var rest := all - {x};
    assert forall b :: b in all ==> b == x || b in rest;
    a := x;
    if rest != {} {
      var y := Oldest(c, servers, rest);
      BeforeIsOrder(c, servers, x, y, y);
      if Before(c, servers, y, x) {
        a := y;
        forall b | b in all && b != y
          ensures Before(c, servers, y, b) && !Before(c, servers, b, y)
        {
          assert b == x || b in rest;
        }
      } else {
        forall b | b in all && b != x
          ensures Before(c, servers, x, b) && !Before(c, servers, b, x)
        {
          assert b in rest;
          BeforeIsOrder(c, servers, x, y, b);
          BeforeIsOrder(c, servers, x, b, b);
        }
      }
    }
  }

  // ------------------------------------------------------------ notification

  /** Where an event is clear afterwards, it was clear before and the registered servers are the same. */
  ghost predicate Tells(r: Registry, t: Registry) {
    && t.events.Keys == r.events.Keys
    && forall id :: id in t.events && !t.events[id] ==> !r.events[id] && SameRegistered(r.servers, t.servers)
  }

  lemma ExpireTells(c: Settings, r: Registry, now: real)
    ensures Tells(r, Expire(c, r, now))
  {
  }

  lemma RemoveTells(r: Registry, source: Address)
    ensures Tells(r, Remove(r, source))
  {
  }

  lemma RegisterTells(r: Registry, source: Address, now: real)
    ensures Tells(r, Register(r, source, now))
  {
  }

  lemma TellsTransitive(r: Registry, s: Registry, t: Registry)
    requires Tells(r, s) && Tells(s, t)
    ensures Tells(r, t)
  {
  }

  lemma RefreshTells(r: Registry, source: Address, instanceKey: seq<u8>, keys: Keys, now: real)
    requires source in r.servers
    ensures Tells(r, Refresh(r, source, instanceKey, keys, now))
  {
    hide AsMap;
    var s := r.servers[source];
    var changed := s.instanceKey != instanceKey || AsMap(s.keys) != AsMap(keys);
    var t := Registry(r.servers[source := s.(instanceKey := instanceKey, keys := keys, lastSeen := now)],
                      NotifyIf(s.registered && changed, r.events));
    assert Tells(r, t);
    RemoveTells(t, source);
    TellsTransitive(r, t, Remove(t, source));
  }

  lemma ReportTells(c: Settings, r: Registry, source: Address, instanceKey: seq<u8>, keys: Keys, now: real)
    ensures Tells(r, Report(c, r, source, instanceKey, keys, now))
  {
    hide Tells, Refresh, Expire;
    if source in r.servers {
      RefreshTells(r, source, instanceKey, keys, now);
    } else {
      var t := Expire(c, r, now);
      ExpireTells(c, r, now);
      ExpireKeepsOut(c, r, source, now);
      if |t.servers| < c.capacity {
        var u := t.(servers := t.servers[source := Server(instanceKey, [], false, now, 0.0)]);
        NewcomerTells(c, r, t, u, source);
        RefreshTells(u, source, instanceKey, keys, now);
        TellsTransitive(t, u, Refresh(u, source, instanceKey, keys, now));
        TellsTransitive(r, t, Refresh(u, source, instanceKey, keys, now));
      }
    }
  }

  lemma ExpireKeepsOut(c: Settings, r: Registry, source: Address, now: real)
    requires source !in r.servers
    ensures source !in Expire(c, r, now).servers
  {
  }

  lemma NewcomerTells(c: Settings, r: Registry, t: Registry, u: Registry, source: Address)
    requires source !in t.servers && u.events == t.events
    requires exists s: Server :: !s.registered && u.servers == t.servers[source := s]
    ensures Tells(t, u)
  {
  }

  // ---------------------------------------------------------------- tracking

  /** The entry is that of the server, up to the order in which its keys stand. */
  ghost predicate Depicts(c: Settings, entry: seq<u8>, a: Address, s: Server) {
    exists keys :: WellFormed(keys) && AsMap(keys) == AsMap(s.keys) && entry == Entry(c.entry, a, keys)
  }

  /** What the subscription knows is the current listing, up to the order of keys. */
  ghost predicate Tracks(c: Settings, sub: Subscription, servers: Servers) {
    && sub.known.Keys == Listed(c, sub.query, sub.text, servers)
    && forall a :: a in sub.known ==> a in servers && Depicts(c, sub.known[a], a, servers[a])
  }

  /** Keys that a datagram of the permitted size can have brought. */
  ghost predicate Brought(c: Settings, keys: Keys) {
    WellFormed(keys) && |Rules(c.entry.codec, keys)| <= 3 * c.packetBytes && ValuesWithin(keys, c.packetBytes)
  }

  ghost predicate AllBrought(c: Settings, servers: Servers) {
    forall a :: a in servers ==> Brought(c, servers[a].keys)
  }

  lemma HeartbeatsBring(c: Settings, data: seq<u8>)
    requires c.Valid() && ReadHeartbeat(c, data).Status?
    ensures Brought(c, ReadHeartbeat(c, data).keys)
  {
    hide ParseFrom, Get, Fresh;
    ParsedIsWellFormed(c.entry.codec, data[KEYS_OFFSET..], []);
    RulesFit(c.entry.codec, data[KEYS_OFFSET..], []);
    ValuesFit(c.entry.codec, data[KEYS_OFFSET..], [], c.packetBytes);
    assert Rules(c.entry.codec, []) == [];
  }

  /** A heartbeat tells the subscribers of what it changes. */
  lemma HeartbeatTells(c: Settings, r: Registry, source: Address, data: seq<u8>, now: real)
    ensures Tells(r, Heartbeat(c, r, source, data, now))
  {
    hide Tells, Report, Remove, ReadHeartbeat;
    match ReadHeartbeat(c, data) {
      case Nothing => TellsItself(r);
      case Farewell => RemoveTells(r, source);
      case Status(keys) => ReportTells(c, r, source, data[1..5], keys, now);
    }
  }

  lemma HeartbeatKeepsBrought(c: Settings, r: Registry, source: Address, data: seq<u8>, now: real)
    requires c.Valid() && AllBrought(c, r.servers)
    ensures AllBrought(c, Heartbeat(c, r, source, data, now).servers)
  {
    hide AllBrought, Report, Remove, ReadHeartbeat, Brought;
    match ReadHeartbeat(c, data) {
      case Nothing =>
      case Farewell => RemoveBrought(c, r, source);
      case Status(keys) =>
        HeartbeatsBring(c, data);
        ReportBrought(c, r, source, data[1..5], keys, now);
    }
  }

  lemma TellsItself(r: Registry)
    ensures Tells(r, r)
  {
  }

  lemma ListedIn(c: Settings, query: string, text: string, servers: Servers)
    ensures forall a :: a in Listed(c, query, text, servers) ==> a in servers && servers[a].registered
  {
    hide Matching, HasRoom, Before;
    CandidatesRegistered(c, query, text, servers);
  }

  /** Freshly computed entries track and encode their addresses. */
  lemma EntriesTrack(c: Settings, query: string, text: string, servers: Servers)
    requires c.Valid() && AllBrought(c, servers)
    ensures var known := Entries(c, query, text, servers);
            && Tracks(c, Subscription(query, text, known), servers) && (forall a :: a in known ==> Encodes(c, a, known[a]))
  {
    hide Listed, Entry, WellFormed, Rules, ValuesWithin;
    ListedIn(c, query, text, servers);
    var known := Entries(c, query, text, servers);
    forall a | a in known
      ensures Depicts(c, known[a], a, servers[a]) && Encodes(c, a, known[a])
    {
      assert Brought(c, servers[a].keys);
    }
  }

  lemma TracksStill(c: Settings, sub: Subscription, s: Servers, t: Servers)
    requires Tracks(c, sub, s) && SameRegistered(s, t)
    ensures Tracks(c, sub, t)
  {
    hide Listed, Entry, WellFormed, SameRegistered;
    ListingDepends(c, sub.query, sub.text, s, t);
    forall a | a in sub.known
      ensures a in t && Depicts(c, sub.known[a], a, t[a])
    {
      assert Depicts(c, sub.known[a], a, s[a]);
    }
  }

  ghost predicate Inv(c: Settings, s: State) {
    && AllBrought(c, s.registry.servers)
    && s.pushing <= s.registry.events.Keys
    && (forall id :: id in s.subscriptions ==>
          && id in s.registry.events && id in s.replicas && s.replicas[id] == s.subscriptions[id].known
          && (id in s.pushing && !s.registry.events[id] ==> Tracks(c, s.subscriptions[id], s.registry.servers)))
  }

  lemma RegistryKeeps(c: Settings, s: State, r: Registry)
    requires Inv(c, s) && Tells(s.registry, r) && AllBrought(c, r.servers)
    ensures Inv(c, s.(registry := r))
  {
    hide Tracks, SameRegistered, AllBrought;
    forall id | id in s.subscriptions && id in s.pushing && !r.events[id]
      ensures Tracks(c, s.subscriptions[id], r.servers)
    {
      TracksStill(c, s.subscriptions[id], s.registry.servers, r.servers);
    }
  }

  lemma ReportBrought(c: Settings, r: Registry, source: Address, instanceKey: seq<u8>, keys: Keys, now: real)
    requires c.Valid() && AllBrought(c, r.servers) && Brought(c, keys)
    ensures AllBrought(c, Report(c, r, source, instanceKey, keys, now).servers)
  {
    hide Brought, AsMap;
  }

  lemma ExpireBrought(c: Settings, r: Registry, now: real)
    requires AllBrought(c, r.servers)
    ensures AllBrought(c, Expire(c, r, now).servers)
  {
    hide Brought;
  }

  lemma RegisterBrought(c: Settings, r: Registry, source: Address, now: real)
    requires AllBrought(c, r.servers)
    ensures AllBrought(c, Register(r, source, now).servers)
  {
    hide Brought;
  }

  lemma RemoveBrought(c: Settings, r: Registry, source: Address)
    requires AllBrought(c, r.servers)
    ensures AllBrought(c, Remove(r, source).servers)
  {
    hide Brought;
  }

  lemma DisconnectKeeps(c: Settings, s: State, id: nat)
    requires Inv(c, s)
    ensures Inv(c, Disconnect(s, id))
  {
    hide Tracks, AllBrought;
  }

  lemma SubscribeKeeps(c: Settings, s: State, id: nat, query: string, text: string, now: real)
    requires c.Valid() && Inv(c, s)
    ensures Inv(c, Subscribe(c, s, id, query, text, now))
  {
    hide Tracks, AllBrought, Entries, EntriesRaise, Expire, Encodes, Tells, Disconnect;
    if id in s.registry.events && c.Accepts(query) {
      var r := Expire(c, s.registry, now);
      ExpireTells(c, s.registry, now);
      ExpireBrought(c, s.registry, now);
      RegistryKeeps(c, s, r);
      DisconnectKeeps(c, s.(registry := r), id);
      EntriesTrack(c, query, text, r.servers);
      SameIds(s.registry, r);
    }
  }

  lemma SameIds(r: Registry, t: Registry)
    requires Tells(r, t)
    ensures t.events.Keys == r.events.Keys
  {
  }

  /** The event of `id` is cleared and the sweep of the round has run. */
  lemma SweptInFlush(c: Settings, s: State, id: nat, now: real)
    requires Inv(c, s) && id in s.registry.events
    ensures var r := Expire(c, Cleared(s.registry, id), now);
            && r.servers == Expire(c, s.registry, now).servers && AllBrought(c, r.servers)
            && r.events.Keys == s.registry.events.Keys
            && (forall j :: j in r.events && j != id && !r.events[j] ==>
                  !s.registry.events[j] && SameRegistered(s.registry.servers, r.servers))
  {
    hide Tracks, SameRegistered;
    ExpireTells(c, Cleared(s.registry, id), now);
    ExpireBrought(c, Cleared(s.registry, id), now);
  }

  /** The sweep of a round keeps the invariant for everybody else. */
  lemma SweepKeeps(c: Settings, s: State, id: nat, now: real)
    requires Inv(c, s) && id in s.registry.events
    ensures Inv(c, s.(registry := Expire(c, Cleared(s.registry, id), now), pushing := s.pushing - {id}))
  {
    hide Tracks, AllBrought, Expire, SameRegistered;
    SweptInFlush(c, s, id, now);
    var r := Expire(c, Cleared(s.registry, id), now);
    forall j | j in s.subscriptions && j in s.pushing - {id} && !r.events[j]
      ensures Tracks(c, s.subscriptions[j], r.servers)
    {
      TracksStill(c, s.subscriptions[j], s.registry.servers, r.servers);
    }
  }

  /** Its own subscription tracks again once its entries have been sent. */
  lemma RevivedKeeps(c: Settings, s: State, id: nat, known: map<Address, seq<u8>>)
    requires Inv(c, s) && id in s.subscriptions
    requires Tracks(c, s.subscriptions[id].(known := known), s.registry.servers)
    ensures var subscriptions := s.subscriptions[id := s.subscriptions[id].(known := known)];
            Inv(c, State(s.registry, subscriptions, s.pushing + {id}, s.replicas[id := known]))
  {
    hide Tracks, AllBrought;
  }

  lemma FlushKeeps(c: Settings, s: State, id: nat, now: real, deletes: seq<Address>, pushes: seq<Address>)
    requires c.Valid() && Inv(c, s)
    ensures Inv(c, Flush(c, s, id, now, deletes, pushes))
  {
    hide Tracks, AllBrought, Entries, EntriesRaise, Expire, Encodes, ApplyFrames, RoundFrames, Orders, Changed;
    if FlushDue(s, id) && id in s.subscriptions {
      var sub := s.subscriptions[id];
      SweptInFlush(c, s, id, now);
      SweepKeeps(c, s, id, now);
      var r := Expire(c, Cleared(s.registry, id), now);
      var current := Entries(c, sub.query, sub.text, r.servers);
      EntriesTrack(c, sub.query, sub.text, r.servers);
      if Orders(sub.known, current, deletes, pushes) && RoundFrames(sub.known, current, deletes, pushes).Some? {
        RoundSendsIff(sub.known, current, deletes, pushes);
        FramesReachListing(c, sub.known, current, deletes, pushes);
        RevivedKeeps(c, s.(registry := r, pushing := s.pushing - {id}), id, current);
        assert s.pushing - {id} + {id} == s.pushing;
      }
    }
  }

  lemma StepKeeps(c: Settings, s: State, e: Event)
    requires c.Valid() && Inv(c, s)
    ensures Inv(c, Step(c, s, e))
  {
    hide Tracks, AllBrought, Heartbeat, Register, Expire, Subscribe, Flush, Tells, Disconnect;
    match e {
      case HeartbeatReceived(source, data, now) =>
        HeartbeatTells(c, s.registry, source, data, now);
        HeartbeatKeepsBrought(c, s.registry, source, data, now);
        RegistryKeeps(c, s, Heartbeat(c, s.registry, source, data, now));
      case Registered(source, now) =>
        RegisterTells(s.registry, source, now);
        RegisterBrought(c, s.registry, source, now);
        RegistryKeeps(c, s, Register(s.registry, source, now));
      case Swept(now) =>
        ExpireTells(c, s.registry, now);
        ExpireBrought(c, s.registry, now);
        RegistryKeeps(c, s, Expire(c, s.registry, now));
      case Subscribed(id, query, text, now) => SubscribeKeeps(c, s, id, query, text, now);
      case Flushed(id, now, deletes, pushes) => FlushKeeps(c, s, id, now, deletes, pushes);
      case Disconnected(id) => DisconnectKeeps(c, s, id);
      case _ =>
    }
  }

  lemma {:induction false} RunKeeps(c: Settings, events: seq<Event>)
    requires c.Valid()
    ensures Inv(c, Run(c, events))
  {
    hide Step, Inv;
    if events == [] {
      EmptyIsInv(c);
    } else {
      RunKeeps(c, events[..|events| - 1]);
      StepKeeps(c, Run(c, events[..|events| - 1]), events[|events| - 1]);
    }
  }

  lemma EmptyIsInv(c: Settings)
    ensures Inv(c, EMPTY)
  {
  }

  /**
   * In every run, whatever a subscription knows its client holds; and while its push task runs and its
   * event is clear, that is the current listing up to the order of keys.
   */
  lemma NoUpdateIsLost(c: Settings, events: seq<Event>, id: nat)
    requires c.Valid()
    ensures var s := Run(c, events);
            id in s.subscriptions ==>
              && id in s.replicas && s.replicas[id] == s.subscriptions[id].known && id in s.registry.events
              && (id in s.pushing && !s.registry.events[id] ==> Tracks(c, s.subscriptions[id], s.registry.servers))
  {
    hide Run, Tracks, AllBrought;
    RunKeeps(c, events);
  }
}
