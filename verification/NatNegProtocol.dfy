/**
 * The NatNeg server object: `NatNegProtocol`, with the NAT half of `ServerState`.  Its dicts are
 * map fields; timers are the map entries of `fallbacks` and `expirations`.  Each method is proved
 * to take the step of `NatNeg` it implements.
 */
module NatNegProtocols {
  import opened Wrappers
  import opened Bytes
  import opened TokenBuckets
  import opened NatNeg
  import opened NatNegInvariant

  // --------------------------------------------- finishing relays one by one

  lemma MinusMinus<K, V>(m: map<K, V>, a: set<K>, b: set<K>)
    ensures m - a - b == m - (a + b)
  {
  }

  lemma UnboundTwice(m: map<Address, Binding>, a: set<Cookie>, b: set<Cookie>)
    ensures Unbound(Unbound(m, a), b) == Unbound(m, a + b)
  {
  }

  /** `Finish`, when it is known which of the cookies are live. */
  function Without(s: State, gone: set<Cookie>): State {
    s.(relays := s.relays - gone,
       expirations := s.expirations - gone,
       byAddress := Unbound(s.byAddress, gone),
       fallbacks := s.fallbacks - gone,
       closed := s.closed + |gone|)
  }

  lemma FinishIsWithout(s: State, cookies: set<Cookie>)
    ensures Finish(s, cookies) == Without(s, cookies * s.relays.Keys)
  {
  }

  lemma WithoutTwice(s: State, a: set<Cookie>, b: set<Cookie>)
    requires a !! b
    ensures Without(Without(s, a), b) == Without(s, a + b)
  {
    MinusMinus(s.relays, a, b);
    MinusMinus(s.expirations, a, b);
    MinusMinus(s.fallbacks, a, b);
    UnboundTwice(s.byAddress, a, b);
    hide Unbound;
  }

  lemma WithoutKeys(s: State, gone: set<Cookie>)
    ensures Without(s, gone).relays.Keys == s.relays.Keys - gone
  {
  }

  lemma FinishInTurn(s: State, done: set<Cookie>, c: Cookie)
    ensures Finish(Finish(s, done), {c}) == Finish(s, done + {c})
  {
    hide Finish, Without;
    var one := done * s.relays.Keys;
    var t := Finish(s, done);
    var two := {c} * t.relays.Keys;
    FinishIsWithout(s, done);
    WithoutKeys(s, one);
    FinishIsWithout(t, {c});
    FinishIsWithout(s, done + {c});
    assert (done + {c}) * s.relays.Keys == one + two && one !! two;
    WithoutTwice(s, one, two);
  }

  lemma UnboundNone(m: map<Address, Binding>)
    ensures Unbound(m, {}) == m
  {
  }

  lemma FinishNone(s: State)
    ensures Finish(s, {}) == s
  {
    hide Unbound;
    UnboundNone(s.byAddress);
    assert {} * s.relays.Keys == {};
    assert s.relays - {} == s.relays && s.expirations - {} == s.expirations && s.fallbacks - {} == s.fallbacks;
  }

  // ---------------------------------------------------------------- the class

  class NatNegProtocol {
    const cfg: Config
    var sessions: map<Cookie, Session>
    var fallbacks: map<Cookie, real>
    var relays: map<Cookie, Relay>
    var byAddress: map<Address, Binding>
    var expirations: map<Cookie, real>
    var nextRelayExpiry: real
    var draining: bool
    var connected: bool
    var activated: nat
    var closed: nat

    ghost function Value(): State
      reads this
    {
      State(sessions, fallbacks, relays, byAddress, expirations, nextRelayExpiry, draining, connected, activated, closed)
    }

    constructor (cfg: Config)
      ensures this.cfg == cfg && Value() == START
    {
      this.cfg := cfg;
      sessions, fallbacks, relays, byAddress, expirations := map[], map[], map[], map[], map[];
      nextRelayExpiry, draining, connected, activated, closed := 0.0, false, false, 0, 0;
    }

    // --------------------------------------------------------- relay lifetime

    /** The loop of `_finish_relay` over the relay's endpoints. */
    method Unbind(cookie: Cookie, relay: Relay)
      requires forall a :: a in byAddress && byAddress[a].cookie == cookie ==>
                 relay.endpoints[byAddress[a].index].address == a
      modifies this`byAddress
      ensures byAddress == Unbound(old(byAddress), {cookie})
    {
      ghost var before := byAddress;
      for index := 0 to 2
        invariant byAddress == map a | a in before && !(before[a].cookie == cookie && before[a].index < index)
                               :: before[a]
      {
        var address := relay.endpoints[index].address;
        if address in byAddress && byAddress[address] == Binding(cookie, index) {
          byAddress := byAddress - {address};
        }
      }
    }

    /** `_finish_relay`. */
    method FinishRelay(cookie: Cookie)
      requires Inverse(Value())
      modifies this
      ensures Value() == Finish(old(Value()), {cookie})
      ensures Inverse(Value())
    {
      ghost var s := Value();
      FinishInverse(s, {cookie});
      FinishIsWithout(s, {cookie});
      if cookie !in relays {
        NotLive(s, cookie);
        return;
      }
      assert {cookie} * s.relays.Keys == {cookie};
      hide Finish;
      var relay := relays[cookie];
      relays := relays - {cookie};
      expirations := expirations - {cookie};
      Unbind(cookie, relay);
      fallbacks := fallbacks - {cookie};
      closed := closed + 1;
    }

    /** The loops of `_expire_relays`, `close_relays`, `connection_lost` and the endpoint reuse. */
    method FinishRelays(cookies: set<Cookie>)
      requires Inverse(Value())
      modifies this
      ensures Value() == Finish(old(Value()), cookies)
      ensures Inverse(Value())
    {
      hide Finish, Inverse;
      ghost var s := Value();
      FinishNone(s);
      var rest := cookies;
      assert cookies - rest == {};
      while rest != {}
        invariant rest <= cookies && Inverse(Value()) && Value() == Finish(s, cookies - rest)
        decreases |rest|
      {
        var c :| c in rest;
        FinishInTurn(s, cookies - rest, c);
        FinishRelay(c);
        assert cookies - (rest - {c}) == cookies - rest + {c};
        rest := rest - {c};
      }
      assert cookies - rest == cookies;
    }

    /** `_expire_relays`. */
    method ExpireIdleRelays(now: real, force: bool)
      requires Inverse(Value())
      modifies this
      ensures Value() == ExpireRelays(cfg, old(Value()), now, force)
      ensures Inverse(Value())
    {
      if !force && now < nextRelayExpiry {
        return;
      }
      ghost var s0 := Value();
      var idle := set c | c in relays && now - relays[c].lastSeen >= cfg.sessionSeconds;
      assert idle == IdleRelays(cfg, s0, now);
      FinishRelays(idle);
      ghost var s := Value();
      nextRelayExpiry := now + 1.0;
      SameRelays(s, Value());
      hide Finish;
    }

    /** `_expire_relay_after_idle`. */
    method ExpireRelayAfterIdle(cookie: Cookie, now: real)
      requires Inverse(Value())
      modifies this
      ensures Value() == IdleTimer(cfg, old(Value()), cookie, now)
    {
      if cookie !in relays {
        expirations := expirations - {cookie};
        return;
      }
      var remaining := cfg.sessionSeconds - (now - relays[cookie].lastSeen);
      if remaining > 0.0 {
        expirations := expirations[cookie := now + remaining];
        return;
      }
      FinishRelay(cookie);
    }

    // ---------------------------------------------------------- relay traffic

    method MarkSeen(cookie: Cookie, now: real)
      modifies this`sessions
      ensures Value() == TouchSession(old(Value()), cookie, now)
    {
      if cookie in sessions {
        sessions := sessions[cookie := sessions[cookie].(lastSeen := now)];
      }
    }

    /** `_handle_relay_ping`. */
    method HandleRelayPing(data: seq<u8>, addr: Address, now: real) returns (taken: bool)
      modifies this
      ensures taken == TakesPing(old(Value()), data, addr)
      ensures Value() == if taken then HandlePing(old(Value()), addr, now) else old(Value())
    {
      if |data| < 20 || data[..6] != MAGIC || data[7] != CONNECT_PING {
        return false;
      }
      var cookie: Cookie := data[8..12];
      if cookie !in relays || addr !in byAddress || byAddress[addr].cookie != cookie {
        return false;
      }
      var index := byAddress[addr].index;
      var relay := relays[cookie];
      if relay.endpoints[index].address != addr {
        return false;
      }
      relays := relays[cookie := relay.(ready := relay.ready + {index}, lastSeen := now)];
      MarkSeen(cookie, now);
      return true;
    }

    /** `_forward_relay`. */
    method ForwardRelay(data: seq<u8>, addr: Address, now: real) returns (sends: seq<Send>)
      modifies this
      ensures (Value(), sends) == Forward(cfg, old(Value()), data, addr, now)
    {
      hide Charge, Accepts;
      if addr !in byAddress {
        return [];
      }
      var Binding(cookie, index) := byAddress[addr];
      if cookie !in relays {
        byAddress := byAddress - {addr};
        return [];
      }
      var relay := relays[cookie].(lastSeen := now);
      relays := relays[cookie := relay];
      MarkSeen(cookie, now);
      if |data| > cfg.relayPacketBytes {
        return [];
      }
      if relay.ready != {0, 1} {
        return [];
      }
      var bucket := relay.endpoints[index].bucket;
      var allowed := Accepts(RelayLimits(cfg), bucket, now, |data| as real);
      relays := relays[cookie := WithBucket(relay, index, Charge(RelayLimits(cfg), bucket, now, |data| as real))];
      if !allowed {
        return [];
      }
      var destination := relay.endpoints[1 - index].address;
      if !connected {
        return [];
      }
      return [Send(data, destination)];
    }

    // ------------------------------------------------------------ negotiation

    /** `ServerState.expire`, the NAT sessions. */
    method ExpireNatSessions(now: real)
      modifies this`sessions
      ensures Value() == ExpireSessions(cfg, old(Value()), now)
    {
      sessions := map c | c in sessions && now - sessions[c].lastSeen <= cfg.sessionTtl :: sessions[c];
    }

    /** `ServerState.claim_nat_peer`; false for its two exceptions. */
    method ClaimNatPeer(cookie: Cookie, index: Index, addr: Address, version: u8, now: real) returns (ok: bool)
      modifies this`sessions
      ensures Claim(Value(), ok) == ClaimPeer(cfg, old(Value()), cookie, index, addr, version, now)
    {
      ExpireNatSessions(now);
      var peer := Peer(addr, version);
      if cookie !in sessions {
        if |sessions| >= cfg.maxSessions {
          return false;
        }
        sessions := sessions[cookie := Session(map[index := peer], index, now, None, {}, 0)];
        return true;
      }
      var session := sessions[cookie];
      if index in session.peers && session.peers[index].address == addr {
        sessions := sessions[cookie := session.(peers := session.peers[index := peer], lastSeen := now)];
        return true;
      }
      if |session.peers| == 2 || index in session.peers {
        return false;
      }
      if exists i :: i in session.peers && session.peers[i].address == addr {
        return false;
      }
      sessions := sessions[cookie := session.(peers := session.peers[index := peer], lastSeen := now)];
      return true;
    }

    /** `_schedule_fallback`. */
    method ScheduleRelayFallback(cookie: Cookie, now: real)
      modifies this`fallbacks
      ensures Value() == ScheduleFallback(cfg, old(Value()), cookie, now)
    {
      if !cfg.auto || !connected || cookie in fallbacks {
        return;
      }
      fallbacks := fallbacks[cookie := now + cfg.fallbackSeconds];
    }

    /** The INIT branch of `handle_datagram`. */
    method HandleInitDatagram(data: seq<u8>, addr: Address, now: real) returns (sends: seq<Send>)
      requires 12 <= |data|
      modifies this
      ensures (Value(), sends) == HandleInit(cfg, old(Value()), data, addr, now)
    {
      hide Bounded, Introductions, WithType, ClaimPeer, ScheduleFallback;
      var cookie := CookieOf(data);
      if |data| < MIN_INIT_BYTES || data[13] > 1 {
        return [];
      }
      var index: Index := data[13];
      if cookie in relays {
        if relays[cookie].endpoints[index].address != addr {
          return [];
        }
        relays := relays[cookie := relays[cookie].(lastSeen := now)];
        return Bounded(data, [Send(WithType(data, INIT_ACK), addr)]);
      }
      var ok := ClaimNatPeer(cookie, index, addr, data[6], now);
      if !ok {
        return [];
      }
      assert cookie in sessions by { ClaimedKnown(cfg, old(Value()), cookie, index, addr, data[6], now); }
      ghost var claimed := Value();
      var session := sessions[cookie];
      var responses := [Send(WithType(data, INIT_ACK), addr)];
      var scheduleFallback := false;
      if Paired(session) {
        responses := responses + Introductions(session, cookie);
        if session.pairedAt.None? {
          sessions := sessions[cookie := session.(pairedAt := Some(now))];
          scheduleFallback := true;
        }
      }
      responses := Bounded(data, responses);
      if responses != [] && scheduleFallback {
        ScheduleRelayFallback(cookie, now);
      }
      assert (Value(), responses) == Welcome(cfg, claimed, data, addr, now);
      return responses;
    }

    /** `_record_report`. */
    method RecordPeerReport(cookie: Cookie, index: Index, success: bool, addr: Address, now: real)
      requires Inverse(Value())
      modifies this
      ensures Value() == RecordReport(old(Value()), cookie, index, success, addr, now)
    {
      hide Finish, Inverse;
      ghost var s := Value();
      if cookie !in sessions {
        return;
      }
      if index !in sessions[cookie].peers || sessions[cookie].peers[index].address != addr {
        return;
      }
      MarkSeen(cookie, now);
      SameRelays(s, Value());
      ghost var s1 := Value();
      if cookie in relays && success && relays[cookie].ready == {} {
        FinishRelay(cookie);
        assert cookie !in relays by { NoLongerLive(s1, cookie); }
      } else if cookie !in relays {
        NotLive(s1, cookie);
      }
      if cookie in relays {
        if success {
          relays := relays[cookie := relays[cookie].(reports := relays[cookie].reports + {index})];
        }
        return;
      }
      assert Value() == Finish(s1, {cookie});
      assert cookie in sessions by { FinishSessions(s1, {cookie}); }
      var session := sessions[cookie];
      if !success || index in session.reports {
        return;
      }
      sessions := sessions[cookie := session.(reports := session.reports + {index})];
      fallbacks := fallbacks - {cookie};
    }

    /** `handle_datagram`; an error raised there answers nothing. */
    method HandleDatagram(data: seq<u8>, addr: Address, now: real) returns (sends: seq<Send>)
      requires Inverse(Value())
      modifies this
      ensures (Value(), sends) == HandleNegotiation(cfg, old(Value()), data, addr, now)
    {
      hide Bounded, WithType, AddressReply, PreinitReply, HandleInit, RecordReport, Inverse;
      if |data| > cfg.packetBytes || |data| < 12 {
        return [];
      }
      var cookie := CookieOf(data);
      if draining && data[7] == INIT && cookie !in sessions {
        return [];
      }
      if data[7] == INIT {
        sends := HandleInitDatagram(data, addr, now);
        return;
      }
      if data[7] == ADDRESS_CHECK {
        return Bounded(data, [Send(AddressReply(data, addr), addr)]);
      }
      if data[7] == NATIFY_REQUEST {
        return Bounded(data, [Send(WithType(data, ERT_TEST), addr)]);
      }
      if data[7] == REPORT {
        if |data| < 23 || data[13] > 1 || data[14] > 1 {
          return [];
        }
        RecordPeerReport(cookie, data[13], data[14] == 1, addr, now);
        return Bounded(data, [Send(WithType(data, REPORT_ACK), addr)]);
      }
      if data[7] == PREINIT {
        return Bounded(data, [Send(PreinitReply(data), addr)]);
      }
      return [];
    }

    /** `datagram_received`, after admission. */
    method DatagramReceived(data: seq<u8>, addr: Address, admitted: bool, now: real) returns (sends: seq<Send>)
      requires cfg.Valid() && Inv(cfg, Value(), now)
      modifies this
      ensures (Value(), sends) == Step(cfg, old(Value()), now, Datagram(data, addr, admitted))
      ensures Inv(cfg, Value(), now)
    {
      StepKeeps(cfg, Value(), now, Datagram(data, addr, admitted));
      assert Inverse(Value());
      hide Inv, Inverse, ExpireRelays, Dispatch;
      if !admitted {
        return [];
      }
      ExpireIdleRelays(now, false);
      sends := DispatchDatagram(data, addr, now);
    }

    method DispatchDatagram(data: seq<u8>, addr: Address, now: real) returns (sends: seq<Send>)
      requires Inverse(Value())
      modifies this
      ensures (Value(), sends) == Dispatch(cfg, old(Value()), data, addr, now)
    {
      hide Forward, HandleNegotiation, HandlePing, TakesPing, Inverse;
      var taken := HandleRelayPing(data, addr, now);
      if taken {
        return [];
      }
      if !HasMagic(data) {
        sends := ForwardRelay(data, addr, now);
        return;
      }
      var up := connected;
      var responses := HandleDatagram(data, addr, now);
      sends := if up then responses else [];
    }

    // --------------------------------------------------------------- fallback

    /** `_activate_relay`, when its timer is due. */
    method ActivateRelay(cookie: Cookie, now: real) returns (sends: seq<Send>)
      requires cfg.Valid() && Inv(cfg, Value(), now)
      requires cookie in fallbacks && fallbacks[cookie] <= now
      modifies this
      ensures (Value(), sends) == Step(cfg, old(Value()), now, FallbackDue(cookie))
      ensures Inv(cfg, Value(), now)
    {
      hide Inv, Inverse, Step, ExpireRelays, Finish, HoldersOf, OpenRelay, MayActivate, Activate;
      ghost var s := Value();
      StepKeeps(cfg, s, now, FallbackDue(cookie));
      InvIsInverse(cfg, s, now);
      FallbackIs(cfg, s, cookie, now);
      fallbacks := fallbacks - {cookie};
      ghost var s0 := Value();
      SameRelays(s, s0);
      FallbackGuards(cfg, s0, cookie);
      if draining || !connected || !cfg.auto || cookie !in sessions || sessions[cookie].peers.Keys != {0, 1}
         || sessions[cookie].reports != {} || cookie in relays {
        return [];
      }
      var session := sessions[cookie];
      ExpireIdleRelays(now, true);
      if |relays| >= cfg.maxRelays {
        return [];
      }
      if session.peers[0].address == session.peers[1].address {
        return [];
      }
      if !PingsPaidFor(session, cookie) {
        return [];
      }
      ghost var s1 := Value();
      HoldersAre(s1, session);
      var replaced := set i: Index | i in session.peers && session.peers[i].address in byAddress
                          :: byAddress[session.peers[i].address].cookie;
      SessionsAside(cfg, s, s1, cookie, replaced, now);
      FinishRelays(replaced);
      sends := StartRelay(cookie, now);
    }

    /** The end of `_activate_relay`: the relay, its timer, its bindings and its pings. */
    method StartRelay(cookie: Cookie, now: real) returns (sends: seq<Send>)
      requires cookie in sessions && Paired(sessions[cookie])
      modifies this
      ensures (Value(), sends) == OpenRelay(cfg, old(Value()), cookie, now)
    {
      var session := sessions[cookie];
      var (zero, one) := (session.peers[0], session.peers[1]);
      var full := Full(RelayLimits(cfg), now);
      relays := relays[cookie := Relay([Endpoint(zero.address, full), Endpoint(one.address, full)], now, now, {}, {})];
      expirations := expirations[cookie := now + cfg.sessionSeconds];
      byAddress := byAddress[zero.address := Binding(cookie, 0)][one.address := Binding(cookie, 1)];
      var pings := [Send(RelayPing(zero.version, cookie), zero.address),
                    Send(RelayPing(one.version, cookie), one.address)];
      sends := if session.opener == 0 then pings else [pings[1], pings[0]];
      sessions := sessions[cookie := session.(activations := session.activations + 1)];
      activated := activated + 1;
    }

    // ------------------------------------------------------- the other events

    method BeginDraining(now: real)
      requires cfg.Valid() && Inv(cfg, Value(), now)
      modifies this`fallbacks
      ensures Value() == Step(cfg, old(Value()), now, BeginDrain).0 && Inv(cfg, Value(), now)
    {
      hide Inv, Finish, Activate, Receive, IdleTimer, ExpireSessions;
      StepKeeps(cfg, Value(), now, BeginDrain);
      fallbacks := map[];
    }

    method CloseAllRelays(now: real)
      requires cfg.Valid() && Inv(cfg, Value(), now)
      modifies this
      ensures Value() == Step(cfg, old(Value()), now, CloseRelays).0 && Inv(cfg, Value(), now)
    {
      hide Inv, Inverse, Finish, Activate, Receive, IdleTimer, ExpireSessions;
      StepKeeps(cfg, Value(), now, CloseRelays);
      InvIsInverse(cfg, Value(), now);
      FinishRelays(relays.Keys);
    }

    /** `connection_lost`. */
    method LoseConnection(now: real)
      requires cfg.Valid() && Inv(cfg, Value(), now)
      modifies this
      ensures Value() == Step(cfg, old(Value()), now, ConnectionLost).0 && Inv(cfg, Value(), now)
    {
      hide Inv, Inverse, Finish, Step;
      StepKeeps(cfg, Value(), now, ConnectionLost);
      ghost var s := Value();
      InvIsInverse(cfg, s, now);
      LostIs(cfg, s, now);
      fallbacks := map[];
      expirations := map[];
      SameRelays(s, Value());
      FinishRelays(relays.Keys);
      connected := false;
    }
  }

  lemma InvIsInverse(cfg: Config, s: State, now: real)
    requires Inv(cfg, s, now)
    ensures Inverse(s)
  {
    hide Inverse;
  }

  /** A lost socket, with its timers dropped first. */
  lemma LostIs(cfg: Config, s: State, now: real)
    ensures Step(cfg, s, now, ConnectionLost).0
            == Finish(s.(fallbacks := map[], expirations := map[]), s.relays.Keys).(connected := false)
  {
    hide Unbound;
    var none: map<Cookie, real> := map[];
    assert none - s.relays.Keys == none;
  }

  lemma FallbackGuards(cfg: Config, s: State, cookie: Cookie)
    ensures MayActivate(cfg, s, cookie)
            <==> !(s.draining || !s.connected || !cfg.auto || cookie !in s.sessions || s.sessions[cookie].peers.Keys != {0, 1}
                   || s.sessions[cookie].reports != {} || cookie in s.relays)
    ensures MayActivate(cfg, s, cookie) ==> Paired(s.sessions[cookie])
  {
  }

  /** A due fallback, with its timer dropped first. */
  lemma FallbackIs(cfg: Config, s: State, cookie: Cookie, now: real)
    requires cookie in s.fallbacks && s.fallbacks[cookie] <= now
    ensures var s0 := s.(fallbacks := s.fallbacks - {cookie});
            var outcome := Step(cfg, s, now, FallbackDue(cookie));
            && (!MayActivate(cfg, s0, cookie) ==> outcome == (s0, []))
            && (MayActivate(cfg, s0, cookie) ==>
                  && cookie in s0.sessions && Paired(s0.sessions[cookie])
                  && var session := s0.sessions[cookie];
                     var s1 := ExpireRelays(cfg, s0, now, true);
                     if |s1.relays| >= cfg.maxRelays || session.peers[0].address == session.peers[1].address
                        || !PingsPaidFor(session, cookie)
                     then outcome == (s1, [])
                     else && cookie in Finish(s1, HoldersOf(s1, session)).sessions
                          && Finish(s1, HoldersOf(s1, session)).sessions[cookie] == session
                          && outcome == OpenRelay(cfg, Finish(s1, HoldersOf(s1, session)), cookie, now))
  {
    hide PingsPaidFor, OpenRelay, HoldersOf;
  }

  lemma FinishInverse(s: State, cookies: set<Cookie>)
    requires Inverse(s)
    ensures Inverse(Finish(s, cookies))
  {
    var t := Finish(s, cookies);
    forall c, i: Index | c in t.relays
      ensures BoundTo(t, c, i)
    {
      assert BoundTo(s, c, i);
    }
  }

  lemma ClaimedKnown(cfg: Config, s: State, cookie: Cookie, index: Index, addr: Address, version: u8, now: real)
    ensures var claim := ClaimPeer(cfg, s, cookie, index, addr, version, now);
            claim.ok ==> cookie in claim.state.sessions
  {
    hide AddressTaken, ExpireSessions;
  }

  lemma FinishSessions(s: State, cookies: set<Cookie>)
    ensures Finish(s, cookies).sessions == s.sessions
  {
  }

  lemma NoLongerLive(s: State, cookie: Cookie)
    ensures cookie !in Finish(s, {cookie}).relays
  {
  }

  lemma NotLive(s: State, cookie: Cookie)
    requires cookie !in s.relays
    ensures Finish(s, {cookie}) == s
  {
    assert {cookie} * s.relays.Keys == {};
    FinishNone(s);
  }

  lemma HoldersAre(s: State, session: Session)
    requires Paired(session)
    ensures HoldersOf(s, session)
            == set i: Index | i in session.peers && session.peers[i].address in s.byAddress
                 :: s.byAddress[session.peers[i].address].cookie
  {
  }

  lemma SessionsAside(cfg: Config, s: State, s1: State, cookie: Cookie, cookies: set<Cookie>, now: real)
    requires s1 == ExpireRelays(cfg, s.(fallbacks := s.fallbacks - {cookie}), now, true)
    ensures Finish(s1, cookies).sessions == s.sessions
  {
  }
}
