/**
 * When a push task ends.  A round clears its event before it builds its frames, so a round that raises
 * leaves a subscriber with a clear event and a stale listing.  It raises exactly on an entry too long
 * for a frame or on a decimal text too long for int(); datagrams of up to 4300 bytes bring neither.
 */
module BrowserTasks {
  import opened Wrappers
  import opened Bytes
  import opened ServerKeys
  import opened ServerEntries
  import opened Browser
  import opened BrowserTracking

  // ------------------------------------------------------ what makes it raise

  /** The entry of a listed server cannot be built or, being new or different, cannot be sent. */
  ghost predicate Unsendable(c: Settings, sub: Subscription, a: Address, s: Server) {
    || PortTooLong(c.entry, s.keys)
    || (EntryLength(c.entry, a, s.keys) > MAX_ENTRY && !(a in sub.known && sub.known[a] == Entry(c.entry, a, s.keys)))
  }

  /** What a round cannot get past, told from the servers' keys and from what is known. */
  ghost predicate Breaks(c: Settings, sub: Subscription, servers: Servers) {
    || ListingRaises(c, sub.query, sub.text, servers)
    || exists a :: a in Listed(c, sub.query, sub.text, servers) && a in servers && Unsendable(c, sub, a, servers[a])
  }

  /** At `now`, one of the servers within their ttl breaks the round of `id`. */
  ghost predicate BreaksAt(c: Settings, s: State, id: nat, now: real)
    requires id in s.subscriptions
  {
    Breaks(c, s.subscriptions[id], Expire(c, s.registry, now).servers)
  }

  lemma ChangedTooLong(c: Settings, sub: Subscription, servers: Servers, a: Address)
    requires !EntriesRaise(c, sub.query, sub.text, servers)
    ensures var current := Entries(c, sub.query, sub.text, servers);
            (a in Changed(sub.known, current) && a in current && |current[a]| > MAX_ENTRY)
            <==> (a in Listed(c, sub.query, sub.text, servers) && a in servers && Unsendable(c, sub, a, servers[a]))
  {
    hide Listed, Entry, EntryLength, PortTooLong, ListingRaises;
    if a in servers {
      EntrySize(c.entry, a, servers[a].keys);
    }
  }

  /** A round gets its frames out if and only if nothing breaks it. */
  lemma RoundBreaksIff(c: Settings, sub: Subscription, servers: Servers, deletes: seq<Address>, pushes: seq<Address>)
    requires !EntriesRaise(c, sub.query, sub.text, servers)
    requires Orders(sub.known, Entries(c, sub.query, sub.text, servers), deletes, pushes)
    ensures RoundFrames(sub.known, Entries(c, sub.query, sub.text, servers), deletes, pushes).None? <==> Breaks(c, sub, servers)
  {
    hide Listed, Unsendable, EntriesRaise, Changed, Orders, RoundFrames, Entries, ListingRaises;
    var current := Entries(c, sub.query, sub.text, servers);
    NoListingRaises(c, sub, servers);
    RoundSendsIff(sub.known, current, deletes, pushes);
    ChangedIsCurrent(sub.known, current);
    forall a
      ensures (a in Changed(sub.known, current) && a in current && |current[a]| > MAX_ENTRY)
              <==> (a in Listed(c, sub.query, sub.text, servers) && a in servers && Unsendable(c, sub, a, servers[a]))
    {
      ChangedTooLong(c, sub, servers, a);
    }
  }

  lemma NoListingRaises(c: Settings, sub: Subscription, servers: Servers)
    requires !EntriesRaise(c, sub.query, sub.text, servers)
    ensures !ListingRaises(c, sub.query, sub.text, servers)
  {
  }

  lemma EntriesRaiseBreaks(c: Settings, sub: Subscription, servers: Servers)
    requires EntriesRaise(c, sub.query, sub.text, servers)
    ensures Breaks(c, sub, servers)
  {
    hide Listed, ListingRaises, PortTooLong;
    if !ListingRaises(c, sub.query, sub.text, servers) {
      var a :| a in Listed(c, sub.query, sub.text, servers) && a in servers && PortTooLong(c.entry, servers[a].keys);
      assert Unsendable(c, sub, a, servers[a]);
    }
  }

  /** The orders are those of a round: of no matter if the entries raise before any frame is built. */
  ghost predicate Ordered(c: Settings, s: State, id: nat, now: real, deletes: seq<Address>, pushes: seq<Address>)
    requires id in s.subscriptions
  {
    var sub, servers := s.subscriptions[id], Expire(c, s.registry, now).servers;
    EntriesRaise(c, sub.query, sub.text, servers)
    || Orders(sub.known, Entries(c, sub.query, sub.text, servers), deletes, pushes)
  }

  lemma SweepIgnoresEvents(c: Settings, r: Registry, id: nat, now: real)
    ensures Expire(c, Cleared(r, id), now).servers == Expire(c, r, now).servers
  {
  }

  /**
   * A round that is due ends its task if and only if, among the servers within their ttl, it meets a
   * text too long for int() or an entry to push that is too long for a frame.
   */
  lemma FlushRaisesIff(c: Settings, s: State, id: nat, now: real, deletes: seq<Address>, pushes: seq<Address>)
    requires FlushDue(s, id) && id in s.subscriptions && Ordered(c, s, id, now, deletes, pushes)
    ensures id !in Flush(c, s, id, now, deletes, pushes).pushing
            <==> BreaksAt(c, s, id, now)
  {
    hide Entries, EntriesRaise, Expire, Orders, RoundFrames, Breaks, ApplyFrames;
    SweepIgnoresEvents(c, s.registry, id, now);
    var sub, servers := s.subscriptions[id], Expire(c, s.registry, now).servers;
    if EntriesRaise(c, sub.query, sub.text, servers) {
      EntriesRaiseBreaks(c, sub, servers);
    } else {
      RoundBreaksIff(c, sub, servers, deletes, pushes);
    }
  }

  /** What it leaves behind: the sweep's registry with the event cleared before it, and the rest as it was. */
  lemma RaisingFlushLeaves(c: Settings, s: State, id: nat, now: real, deletes: seq<Address>, pushes: seq<Address>)
    requires id in s.pushing && id !in Flush(c, s, id, now, deletes, pushes).pushing
    ensures var t := Flush(c, s, id, now, deletes, pushes);
            && id in s.subscriptions && id in s.registry.events && id in t.registry.events
            && t == s.(registry := t.registry, pushing := s.pushing - {id})
            && t.registry.servers == Expire(c, s.registry, now).servers
            && (t.registry.events[id] <==> exists a :: a in s.registry.servers && s.registry.servers[a].registered
                                                       && !Retained(c, s.registry.servers[a], now))
  {
    hide Entries, EntriesRaise, Orders, RoundFrames, ApplyFrames;
  }

  // ------------------------------------------------------------- when it ends

  ghost predicate SubscribeRaises(c: Settings, s: State, query: string, text: string, now: real) {
    c.Accepts(query) && EntriesRaise(c, query, text, Expire(c, s.registry, now).servers)
  }

  /** The push task of `id` ends with its connection, or in a round that breaks. */
  ghost predicate Ends(c: Settings, s: State, e: Event, id: nat) {
    || e == Disconnected(id)
    || (e.Subscribed? && e.id == id && SubscribeRaises(c, s, e.query, e.text, e.now))
    || (e.Flushed? && e.id == id && FlushDue(s, id) && id in s.subscriptions
        && Ordered(c, s, id, e.now, e.deletes, e.pushes) && BreaksAt(c, s, id, e.now))
  }

  lemma DisorderedFlushIsNone(c: Settings, s: State, id: nat, now: real, deletes: seq<Address>, pushes: seq<Address>)
    requires id in s.subscriptions && !Ordered(c, s, id, now, deletes, pushes)
    ensures Flush(c, s, id, now, deletes, pushes) == s
  {
    hide Entries, EntriesRaise, Expire, Orders, RoundFrames, ApplyFrames;
    SweepIgnoresEvents(c, s.registry, id, now);
  }

  lemma OthersUntouched(c: Settings, s: State, e: Event, id: nat)
    requires !((e.Flushed? || e.Subscribed? || e.Connected? || e.Disconnected?) && e.id == id)
    ensures id in Step(c, s, e).pushing <==> id in s.pushing
  {
    hide Entries, EntriesRaise, Expire, Orders, RoundFrames, ApplyFrames, Heartbeat, Register;
  }

  lemma SubscribeEndsIff(c: Settings, s: State, id: nat, query: string, text: string, now: real)
    requires id in s.pushing && id in s.registry.events
    ensures id !in Subscribe(c, s, id, query, text, now).pushing <==> SubscribeRaises(c, s, query, text, now)
  {
    hide Entries, EntriesRaise, Expire;
  }

  /** In every reachable state, one step ends a running task exactly there. */
  lemma TaskEndsIff(c: Settings, events: seq<Event>, e: Event, id: nat)
    requires c.Valid() && id in Run(c, events).pushing
    ensures id !in Step(c, Run(c, events), e).pushing <==> Ends(c, Run(c, events), e, id)
  {
    hide Run, Subscribe, Flush, Breaks, Ordered, SubscribeRaises, FlushDue, Tracks, AllBrought;
    var s := Run(c, events);
    RunKeeps(c, events);
    if !((e.Flushed? || e.Subscribed? || e.Connected? || e.Disconnected?) && e.id == id) {
      OthersUntouched(c, s, e, id);
    } else if e.Subscribed? {
      SubscribeEndsIff(c, s, id, e.query, e.text, e.now);
    } else if e.Flushed? {
      FlushEndsIff(c, s, id, e.now, e.deletes, e.pushes);
    }
  }

  lemma FlushEndsIff(c: Settings, s: State, id: nat, now: real, deletes: seq<Address>, pushes: seq<Address>)
    requires id in s.pushing
    ensures id !in Flush(c, s, id, now, deletes, pushes).pushing
            <==> FlushDue(s, id) && id in s.subscriptions && Ordered(c, s, id, now, deletes, pushes)
                 && BreaksAt(c, s, id, now)
  {
    hide Entries, EntriesRaise, Expire, RoundFrames, Orders, Breaks, ApplyFrames, Ordered;
    if FlushDue(s, id) && id in s.subscriptions {
      if Ordered(c, s, id, now, deletes, pushes) {
        FlushRaisesIff(c, s, id, now, deletes, pushes);
      } else {
        DisorderedFlushIsNone(c, s, id, now, deletes, pushes);
      }
    }
  }

  /** A push task that has ended sends nothing: until the connection asks again its client holds what it held. */
  lemma EndedTaskStaysEnded(c: Settings, s: State, e: Event, id: nat)
    requires id in s.registry.events && id !in s.pushing && e != Disconnected(id)
    ensures var t := Step(c, s, e);
            && id !in t.pushing
            && (!((e.Subscribed? || e.Unsubscribed?) && e.id == id) ==>
                  && (id in t.subscriptions <==> id in s.subscriptions)
                  && (id in s.subscriptions && id in t.subscriptions ==> t.subscriptions[id] == s.subscriptions[id])
                  && Replica(t, id) == Replica(s, id))
  {
    hide Entries, EntriesRaise, Expire, Orders, RoundFrames, ApplyFrames, Heartbeat, Register;
  }

  /** No event of the connection's own: no list request, and not its end. */
  predicate Elsewhere(e: Event, id: nat) {
    !((e.Subscribed? || e.Unsubscribed? || e.Disconnected?) && e.id == id)
  }

  lemma StaysOpen(c: Settings, s: State, e: Event, id: nat)
    requires Inv(c, s) && id in s.registry.events && Elsewhere(e, id)
    ensures id in Step(c, s, e).registry.events
  {
    hide Entries, EntriesRaise, Orders, RoundFrames, ApplyFrames, Tracks, AllBrought, Heartbeat, Register, Expire,
      SameRegistered;
    match e {
      case HeartbeatReceived(source, data, now) => HeartbeatTells(c, s.registry, source, data, now);
      case Registered(source, now) => RegisterTells(s.registry, source, now);
      case Swept(now) => ExpireTells(c, s.registry, now);
      case Subscribed(_, _, _, now) => ExpireTells(c, s.registry, now);
      case Flushed(j, now, _, _) =>
        if FlushDue(s, j) {
          SweptInFlush(c, s, j, now);
        }
      case _ =>
    }
  }

  lemma {:induction false} StaysStale(c: Settings, events: seq<Event>, more: seq<Event>, id: nat)
    requires c.Valid() && forall i :: 0 <= i < |more| ==> Elsewhere(more[i], id)
    requires var s := Run(c, events); id in s.registry.events && id !in s.pushing && id in s.subscriptions
    ensures var s, t := Run(c, events), Run(c, events + more);
            && id in t.registry.events && id !in t.pushing
            && id in t.subscriptions && t.subscriptions[id] == s.subscriptions[id] && Replica(t, id) == Replica(s, id)
    decreases |more|
  {
    hide Step, Inv, Replica;
    if more == [] {
      assert events + more == events;
    } else {
      var before, e := more[..|more| - 1], more[|more| - 1];
      assert (events + more)[..|events + more| - 1] == events + before;
      StaysStale(c, events, before, id);
      RunKeeps(c, events + before);
      StaysOpen(c, Run(c, events + before), e, id);
      EndedTaskStaysEnded(c, Run(c, events + before), e, id);
    }
  }

  /**
   * A round that raises leaves its client behind for good: through every run that follows it, until the
   * connection ends or sends a list request, the client holds what it held before the round.
   */
  lemma RaisingFlushStrands(c: Settings, events: seq<Event>, flush: Event, more: seq<Event>, id: nat)
    requires c.Valid() && forall i :: 0 <= i < |more| ==> Elsewhere(more[i], id)
    requires flush.Flushed? && flush.id == id && id in Run(c, events).pushing
    requires id !in Step(c, Run(c, events), flush).pushing
    ensures var s, t := Run(c, events), Run(c, events + [flush] + more);
            && id !in t.pushing && id in s.subscriptions && id in t.subscriptions && id in t.replicas
            && t.subscriptions[id] == s.subscriptions[id] && t.replicas[id] == s.subscriptions[id].known
  {
    hide Flush, Tracks, AllBrought;
    RunKeeps(c, events);
    RunKeeps(c, events + [flush] + more);
    RaisingFlushLeaves(c, Run(c, events), id, flush.now, flush.deletes, flush.pushes);
    assert (events + [flush])[..|events + [flush]| - 1] == events;
    StaysStale(c, events + [flush], more, id);
  }

  // ---------------------------------------------------------- small datagrams

  /** With keys from datagrams of up to 4300 bytes nothing can break a round. */
  lemma SmallKeysSend(c: Settings, sub: Subscription, a: Address, s: Server)
    requires c.packetBytes <= MAX_DIGITS && Brought(c, s.keys)
    ensures !Unsendable(c, sub, a, s) && !PortTooLong(c.entry, s.keys) && !CountTooLong(c, s)
  {
    hide Rules, WellFormed, Get, ValuesWithin, AsMap, LocalPort, PrivateHost;
    GrowsWithin(s.keys, c.packetBytes, MAX_DIGITS);
    GetWithin(s.keys, "localport", "", MAX_DIGITS);
    GetWithin(s.keys, "maxplayers", "", MAX_DIGITS);
    GetWithin(s.keys, "numplayers", "0", MAX_DIGITS);
    GetIsLookup(s.keys, "maxplayers", "");
    GetIsLookup(s.keys, "numplayers", "0");
  }

  lemma GrowsWithin(keys: Keys, m: nat, n: nat)
    requires ValuesWithin(keys, m) && m <= n
    ensures ValuesWithin(keys, n)
  {
  }

  lemma SmallNeverBreaks(c: Settings, sub: Subscription, servers: Servers)
    requires c.packetBytes <= MAX_DIGITS && AllBrought(c, servers)
    ensures !Breaks(c, sub, servers) && !EntriesRaise(c, sub.query, sub.text, servers)
  {
    hide Listed, Matching, CountTooLong, Unsendable, PortTooLong, Brought, IsAutomatch;
    forall a | a in servers
      ensures !Unsendable(c, sub, a, servers[a]) && !PortTooLong(c.entry, servers[a].keys) && !CountTooLong(c, servers[a])
    {
      SmallKeysSend(c, sub, a, servers[a]);
    }
  }

  lemma SmallNeverEnds(c: Settings, s: State, e: Event, id: nat)
    requires c.Valid() && c.packetBytes <= MAX_DIGITS && AllBrought(c, s.registry.servers) && e != Disconnected(id)
    ensures !Ends(c, s, e, id)
  {
    hide Breaks, EntriesRaise, AllBrought, Expire, Ordered;
    if e.Subscribed? {
      ExpireBrought(c, s.registry, e.now);
      SmallNeverBreaks(c, Subscription(e.query, e.text, map[]), Expire(c, s.registry, e.now).servers);
    } else if e.Flushed? && id in s.subscriptions {
      ExpireBrought(c, s.registry, e.now);
      SmallNeverBreaks(c, s.subscriptions[id], Expire(c, s.registry, e.now).servers);
    }
  }

  lemma IdsAfter(c: Settings, s: State, e: Event, id: nat)
    requires Inv(c, s) && id in Step(c, s, e).registry.events
    ensures id in s.registry.events || e == Connected(id)
    ensures id !in s.registry.events ==> id in Step(c, s, e).pushing
  {
    hide Entries, EntriesRaise, Orders, RoundFrames, ApplyFrames, Tracks, AllBrought, Heartbeat, Register, Expire,
      SameRegistered;
    match e {
      case HeartbeatReceived(source, data, now) => HeartbeatTells(c, s.registry, source, data, now);
      case Registered(source, now) => RegisterTells(s.registry, source, now);
      case Swept(now) => ExpireTells(c, s.registry, now);
      case Subscribed(_, _, _, now) => ExpireTells(c, s.registry, now);
      case Flushed(j, now, _, _) =>
        if FlushDue(s, j) {
          SweptInFlush(c, s, j, now);
        }
      case _ =>
    }
  }

  lemma DisconnectForgets(c: Settings, s: State, id: nat)
    ensures id !in Step(c, s, Disconnected(id)).registry.events
  {
  }

  /** Where datagrams are limited to 4300 bytes, the push task of every open connection runs in every run. */
  lemma {:induction false} SmallDatagramsNeverStrand(c: Settings, events: seq<Event>)
    requires c.Valid() && c.packetBytes <= MAX_DIGITS
    ensures Run(c, events).pushing == Run(c, events).registry.events.Keys
  {
    hide Step, Tracks, Ends, AllBrought;
    RunKeeps(c, events);
    if events != [] {
      var before, e := events[..|events| - 1], events[|events| - 1];
      var s := Run(c, before);
      RunKeeps(c, before);
      SmallDatagramsNeverStrand(c, before);
      forall id | id in Step(c, s, e).registry.events
        ensures id in Step(c, s, e).pushing
      {
        IdsAfter(c, s, e, id);
        DisconnectForgets(c, s, id);
        if id in s.registry.events {
          SmallNeverEnds(c, s, e, id);
          TaskEndsIff(c, before, e, id);
        }
      }
    }
  }

  /** There, in every run, a clear event alone means that the client holds the current listing. */
  lemma SmallDatagramsLoseNothing(c: Settings, events: seq<Event>, id: nat)
    requires c.Valid() && c.packetBytes <= MAX_DIGITS
    ensures var s := Run(c, events);
            id in s.subscriptions ==>
              && id in s.replicas && s.replicas[id] == s.subscriptions[id].known && id in s.registry.events
              && (!s.registry.events[id] ==> Tracks(c, s.subscriptions[id], s.registry.servers))
  {
    hide Run, Tracks;
    SmallDatagramsNeverStrand(c, events);
    NoUpdateIsLost(c, events, id);
  }
}
