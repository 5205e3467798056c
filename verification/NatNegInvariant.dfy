/** What every step of the NatNeg state machine keeps. */
module NatNegInvariant {
  import opened Wrappers
  import opened Collections
  import opened Bytes
  import opened TokenBuckets
  import opened NatNeg

  // --------------------------------------------------------------- the parts

  /** `byAddress` is the inverse of the relays' endpoint table. */
  ghost predicate Inverse(s: State) {
    && (forall a :: a in s.byAddress ==>
          && s.byAddress[a].cookie in s.relays
          && s.relays[s.byAddress[a].cookie].endpoints[s.byAddress[a].index].address == a)
    && (forall c, i: Index :: c in s.relays ==> BoundTo(s, c, i))
  }

  ghost predicate BoundTo(s: State, c: Cookie, i: Index)
    requires c in s.relays
  {
    var a := s.relays[c].endpoints[i].address;
    a in s.byAddress && s.byAddress[a] == Binding(c, i)
  }

  ghost predicate SessionSound(x: Session) {
    && x.opener in x.peers
    && (Paired(x) <==> x.pairedAt.Some?)
    && (Paired(x) ==> x.peers[0].address != x.peers[1].address)
    && x.activations <= 1
    && (x.activations == 1 ==> Paired(x))
  }

  /** A relay beside a session of its cookie: the session's own, and without a direct success. */
  ghost predicate Companions(x: Session, r: Relay) {
    && Paired(x) && x.reports == {} && x.activations == 1
    && forall i: Index :: x.peers[i].address == r.endpoints[i].address
  }

  ghost predicate SessionsSound(s: State) {
    && (forall c :: c in s.sessions ==> SessionSound(s.sessions[c]))
    && (forall c :: c in s.sessions && c in s.relays ==> Companions(s.sessions[c], s.relays[c]))
    && (forall c :: c in s.sessions && s.sessions[c].activations == 1 ==> c !in s.fallbacks)
    && (forall c :: c in s.relays ==> c !in s.fallbacks)
  }

  /** One idle timer for each relay, due no later than its deadline. */
  ghost predicate TimersSound(cfg: Config, s: State, now: real) {
    && s.expirations.Keys == s.relays.Keys
    && forall c :: c in s.relays ==>
         s.relays[c].lastSeen <= now && s.expirations[c] <= s.relays[c].lastSeen + cfg.sessionSeconds
  }

  ghost predicate CountsSound(cfg: Config, s: State) {
    && s.activated == s.closed + |s.relays|
    && |s.relays| <= cfg.maxRelays
    && |s.sessions| <= cfg.maxSessions
  }

  ghost predicate Inv(cfg: Config, s: State, now: real) {
    Inverse(s) && SessionsSound(s) && TimersSound(cfg, s, now) && CountsSound(cfg, s)
  }

  // ---------------------------------------------------- sizes of maps and sets

  lemma SubmapSize<K, V>(a: map<K, V>, b: map<K, V>)
    requires a.Keys <= b.Keys
    ensures |a| <= |b|
  {
    SubsetSize(a.Keys, b.Keys);
    assert |a| == |a.Keys| && |b| == |b.Keys|;
  }

  lemma SubmapGap<K, V>(m: map<K, V>, gone: set<K>)
    requires gone <= m.Keys
    ensures |m - gone| == |m| - |gone|
  {
    assert (m - gone).Keys == m.Keys - gone;
    assert |m| == |m.Keys| && |m - gone| == |(m - gone).Keys|;
  }

  lemma UpdateSize<K, V>(m: map<K, V>, k: K, v: V)
    ensures |m[k := v]| == if k in m then |m| else |m| + 1
  {
    assert m[k := v].Keys == m.Keys + {k};
    assert |m| == |m.Keys| && |m[k := v]| == |m[k := v].Keys|;
  }

  // -------------------------------------------------------------- primitives

  lemma InvLater(cfg: Config, s: State, then0: real, now: real)
    requires then0 <= now && Inv(cfg, s, then0)
    ensures Inv(cfg, s, now)
  {
  }

  lemma FinishKeeps(cfg: Config, s: State, cookies: set<Cookie>, now: real)
    requires Inv(cfg, s, now)
    ensures Inv(cfg, Finish(s, cookies), now)
    ensures Finish(s, cookies).sessions == s.sessions
  {
    var t := Finish(s, cookies);
    var gone := cookies * s.relays.Keys;
    assert t.relays.Keys == s.relays.Keys - gone;
    assert Inverse(t) by {
      forall c, i: Index | c in t.relays
        ensures BoundTo(t, c, i)
      {
        assert BoundTo(s, c, i);
      }
    }
    SubmapGap(s.relays, gone);
    assert TimersSound(cfg, t, now) by {
      assert t.expirations.Keys == s.expirations.Keys - gone;
    }
  }

  lemma ExpireRelaysKeeps(cfg: Config, s: State, now: real, force: bool)
    requires Inv(cfg, s, now)
    ensures Inv(cfg, ExpireRelays(cfg, s, now, force), now)
    ensures ExpireRelays(cfg, s, now, force).sessions == s.sessions
  {
    hide Inv, Finish;
    if force || s.nextRelayExpiry <= now {
      var idle := IdleRelays(cfg, s, now);
      FinishKeeps(cfg, s, idle, now);
      FlagsAside(cfg, Finish(s, idle), ExpireRelays(cfg, s, now, force), now);
    }
  }

  /** The invariant does not look at the flags and the throttle. */
  lemma FlagsAside(cfg: Config, s: State, t: State, now: real)
    requires Inv(cfg, s, now)
    requires t == s.(nextRelayExpiry := t.nextRelayExpiry, draining := t.draining, connected := t.connected)
    ensures Inv(cfg, t, now)
  {
    SameRelays(s, t);
  }

  lemma ExpireSessionsKeeps(cfg: Config, s: State, now: real)
    requires Inv(cfg, s, now)
    ensures Inv(cfg, ExpireSessions(cfg, s, now), now)
  {
    var t := ExpireSessions(cfg, s, now);
    SubmapSize(t.sessions, s.sessions);
    SameRelays(s, t);
  }

  /** Steps that leave the relays and bindings alone leave them inverse. */
  lemma SameRelays(s: State, t: State)
    requires Inverse(s) && t.relays == s.relays && t.byAddress == s.byAddress
    ensures Inverse(t)
  {
    forall c, i: Index | c in t.relays
      ensures BoundTo(t, c, i)
    {
      assert BoundTo(s, c, i);
    }
  }

  /** Replacing a session by one that is as sound. */
  lemma SetSessionKeeps(cfg: Config, s: State, c: Cookie, x: Session, now: real)
    requires Inv(cfg, s, now) && SessionSound(x)
    requires c in s.sessions || |s.sessions| < cfg.maxSessions
    requires c in s.relays ==> Companions(x, s.relays[c])
    requires x.activations == 1 ==> c !in s.fallbacks
    ensures Inv(cfg, SetSession(s, c, x), now)
  {
    var t := SetSession(s, c, x);
    UpdateSize(s.sessions, c, x);
    SameRelays(s, t);
  }

  lemma TouchSessionKeeps(cfg: Config, s: State, c: Cookie, now: real)
    requires Inv(cfg, s, now)
    ensures Inv(cfg, TouchSession(s, c, now), now)
  {
    if c in s.sessions {
      SetSessionKeeps(cfg, s, c, s.sessions[c].(lastSeen := now), now);
    }
  }

  ghost predicate SameAddresses(q: Relay, r: Relay) {
    forall i: Index :: q.endpoints[i].address == r.endpoints[i].address
  }

  /** Replacing a relay by one with the same addresses that was not seen earlier. */
  lemma SetRelayKeeps(cfg: Config, s: State, c: Cookie, r: Relay, now: real)
    requires Inv(cfg, s, now) && c in s.relays
    requires SameAddresses(s.relays[c], r) && s.relays[c].lastSeen <= r.lastSeen <= now
    ensures Inv(cfg, SetRelay(s, c, r), now)
  {
    hide SessionSound, Inverse;
    var t := SetRelay(s, c, r);
    UpdateSize(s.relays, c, r);
    assert t.relays.Keys == s.relays.Keys;
    SetRelayInverse(s, c, r);
  }

  lemma SetRelayInverse(s: State, c: Cookie, r: Relay)
    requires Inverse(s) && c in s.relays && SameAddresses(s.relays[c], r)
    ensures Inverse(SetRelay(s, c, r))
  {
    var t := SetRelay(s, c, r);
    forall d, i: Index | d in t.relays
      ensures BoundTo(t, d, i)
    {
      assert BoundTo(s, d, i);
    }
  }

  /** Dropping pending fallbacks. */
  lemma DropFallbacksKeeps(cfg: Config, s: State, fallbacks: map<Cookie, real>, now: real)
    requires Inv(cfg, s, now) && fallbacks.Keys <= s.fallbacks.Keys
    ensures Inv(cfg, s.(fallbacks := fallbacks), now)
  {
    SameRelays(s, s.(fallbacks := fallbacks));
  }

  // ---------------------------------------------------------------- handlers

  lemma HandlePingKeeps(cfg: Config, s: State, data: seq<u8>, addr: Address, now: real)
    requires Inv(cfg, s, now) && TakesPing(s, data, addr)
    ensures Inv(cfg, HandlePing(s, addr, now), now)
  {
    var Binding(cookie, index) := s.byAddress[addr];
    var relay := s.relays[cookie];
    var seen := relay.(ready := relay.ready + {index}, lastSeen := now);
    SetRelayKeeps(cfg, s, cookie, seen, now);
    TouchSessionKeeps(cfg, SetRelay(s, cookie, seen), cookie, now);
  }

  lemma ForwardKeeps(cfg: Config, s: State, data: seq<u8>, addr: Address, now: real)
    requires Inv(cfg, s, now)
    ensures Inv(cfg, Forward(cfg, s, data, addr, now).0, now)
  {
    hide Inv, Accepts, Charge, SameAddresses, TouchSession, WithBucket;
    if addr in s.byAddress {
      var Binding(cookie, index) := s.byAddress[addr];
      AddressIsBound(cfg, s, addr, now);
      var relay := s.relays[cookie].(lastSeen := now);
      LastSeenPast(cfg, s, cookie, now);
      RelayAlike(s.relays[cookie], relay);
      SetRelayKeeps(cfg, s, cookie, relay, now);
      var s0 := SetRelay(s, cookie, relay);
      TouchSessionKeeps(cfg, s0, cookie, now);
      TouchRelays(s0, cookie, now);
      var s1 := TouchSession(s0, cookie, now);
      var bucket := Charge(RelayLimits(cfg), relay.endpoints[index].bucket, now, |data| as real);
      BucketAside(relay, index, bucket);
      SetRelayKeeps(cfg, s1, cookie, WithBucket(relay, index, bucket), now);
    }
  }

  lemma TouchRelays(s: State, cookie: Cookie, now: real)
    ensures TouchSession(s, cookie, now).relays == s.relays
  {
  }

  lemma RelayAlike(q: Relay, r: Relay)
    requires q.endpoints == r.endpoints
    ensures SameAddresses(q, r)
  {
  }

  lemma BucketAside(r: Relay, index: Index, bucket: Bucket)
    ensures SameAddresses(r, WithBucket(r, index, bucket)) && WithBucket(r, index, bucket).lastSeen == r.lastSeen
  {
  }

  lemma AddressIsBound(cfg: Config, s: State, addr: Address, now: real)
    requires Inv(cfg, s, now) && addr in s.byAddress
    ensures s.byAddress[addr].cookie in s.relays
  {
  }

  lemma LastSeenPast(cfg: Config, s: State, c: Cookie, now: real)
    requires Inv(cfg, s, now) && c in s.relays
    ensures s.relays[c].lastSeen <= now
  {
  }

  /** A session as `handle_datagram` leaves it: marked paired as soon as both peers are in. */
  function Marked(x: Session, now: real): Session {
    if Paired(x) && x.pairedAt.None? then x.(pairedAt := Some(now)) else x
  }

  lemma SessionFacts(cfg: Config, s: State, c: Cookie, now: real)
    requires Inv(cfg, s, now) && c in s.sessions
    ensures SessionSound(s.sessions[c])
    ensures c in s.relays ==> Companions(s.sessions[c], s.relays[c])
    ensures s.sessions[c].activations == 1 ==> c !in s.fallbacks
    ensures c in s.relays ==> c !in s.fallbacks
  {
  }

  /** A claim is a sweep, and if it is accepted one session set anew, its pairing time unchanged. */
  lemma ClaimShape(cfg: Config, s: State, cookie: Cookie, index: Index, addr: Address, version: u8, now: real)
    ensures var t := ExpireSessions(cfg, s, now);
            var claim := ClaimPeer(cfg, s, cookie, index, addr, version, now);
            && (!claim.ok ==> claim.state == t)
            && (claim.ok ==>
                  && cookie in claim.state.sessions
                  && claim.state == SetSession(t, cookie, claim.state.sessions[cookie])
                  && (cookie in t.sessions ==> claim.state.sessions[cookie].pairedAt == t.sessions[cookie].pairedAt)
                  && (cookie !in t.sessions ==> !Paired(claim.state.sessions[cookie])))
  {
    hide ExpireSessions, AddressTaken;
  }

  /** What a claim does: nothing beyond the expiry, or one session set to a sound value. */
  lemma ClaimSets(cfg: Config, s: State, cookie: Cookie, index: Index, addr: Address, version: u8, now: real)
    requires var t := ExpireSessions(cfg, s, now); cookie in t.sessions ==> SessionSound(t.sessions[cookie])
    ensures var t := ExpireSessions(cfg, s, now);
            var claim := ClaimPeer(cfg, s, cookie, index, addr, version, now);
            if claim.ok then
              && cookie in claim.state.sessions
              && var x := claim.state.sessions[cookie];
                 && claim.state == SetSession(t, cookie, x)
                 && SessionSound(Marked(x, now))
                 && (Marked(x, now) != x ==> x.activations == 0)
                 && Marked(x, now).activations == (if cookie in t.sessions then t.sessions[cookie].activations else 0)
                 && (cookie in t.sessions || |t.sessions| < cfg.maxSessions)
            else claim.state == t
  {
    var t := ExpireSessions(cfg, s, now);
    hide SessionSound, AddressTaken, Marked, ExpireSessions;
    if cookie in t.sessions {
      JoinSound(t.sessions[cookie], index, Peer(addr, version), now);
    } else {
      OpenSound(index, Peer(addr, version), now);
    }
  }

  /** An accepted claim leaves everything sound once the session has been marked. */
  lemma ClaimPeerKeeps(cfg: Config, s: State, cookie: Cookie, index: Index, addr: Address, version: u8, now: real)
    requires Inv(cfg, s, now) && cookie !in s.relays
    ensures var claim := ClaimPeer(cfg, s, cookie, index, addr, version, now);
            && claim.state.relays == s.relays && claim.state.fallbacks == s.fallbacks
            && (!claim.ok ==> Inv(cfg, claim.state, now))
            && (claim.ok ==>
                  && cookie in claim.state.sessions
                  && var x := claim.state.sessions[cookie];
                     && Inv(cfg, SetSession(claim.state, cookie, Marked(x, now)), now)
                     && (Marked(x, now) != x ==> x.activations == 0))
  {
    ExpireSessionsKeeps(cfg, s, now);
    var t := ExpireSessions(cfg, s, now);
    assert t.relays == s.relays && t.fallbacks == s.fallbacks;
    hide *;
    if cookie in t.sessions {
      SessionFacts(cfg, t, cookie, now);
    }
    ClaimSets(cfg, s, cookie, index, addr, version, now);
    var claim := ClaimPeer(cfg, s, cookie, index, addr, version, now);
    if claim.ok {
      var x := claim.state.sessions[cookie];
      SetMarkedKeeps(cfg, t, cookie, x, now);
    }
  }

  lemma SetMarkedKeeps(cfg: Config, s: State, cookie: Cookie, x: Session, now: real)
    requires Inv(cfg, s, now) && cookie !in s.relays && SessionSound(Marked(x, now))
    requires cookie in s.sessions || |s.sessions| < cfg.maxSessions
    requires Marked(x, now).activations == 1 ==> cookie !in s.fallbacks
    ensures Inv(cfg, SetSession(SetSession(s, cookie, x), cookie, Marked(x, now)), now)
    ensures var t := SetSession(s, cookie, x);
            t.relays == s.relays && t.fallbacks == s.fallbacks && cookie in t.sessions
  {
    hide Inv, SessionSound, Marked, Companions;
    assert s.sessions[cookie := x][cookie := Marked(x, now)] == s.sessions[cookie := Marked(x, now)];
    SetSessionKeeps(cfg, s, cookie, Marked(x, now), now);
  }

  /** A peer that refreshes its claim, or takes the free index from a new address, is sound. */
  lemma JoinSound(x: Session, index: Index, peer: Peer, now: real)
    requires SessionSound(x)
    ensures var y := x.(peers := x.peers[index := peer], lastSeen := now);
            if index in x.peers && x.peers[index].address == peer.address then SessionSound(y) && Marked(y, now) == y
            else if |x.peers| == 2 || index in x.peers || AddressTaken(x, peer.address) then true
            else SessionSound(Marked(y, now)) && Marked(y, now).activations == x.activations == 0
  {
    if index !in x.peers && !AddressTaken(x, peer.address) {
      assert x.peers[1 - index].address != peer.address;
    }
  }

  lemma OpenSound(index: Index, peer: Peer, now: real)
    ensures var x := Session(map[index := peer], index, now, None, {}, 0);
            SessionSound(x) && Marked(x, now) == x
  {
  }

  /** A fallback may be pending for a session that has had no activation. */
  lemma AddFallbackKeeps(cfg: Config, s: State, cookie: Cookie, due: real, now: real)
    requires Inv(cfg, s, now) && cookie !in s.relays
    requires cookie in s.sessions ==> s.sessions[cookie].activations == 0
    ensures Inv(cfg, s.(fallbacks := s.fallbacks[cookie := due]), now)
  {
    SameRelays(s, s.(fallbacks := s.fallbacks[cookie := due]));
  }

  lemma WelcomeKeeps(cfg: Config, s: State, data: seq<u8>, addr: Address, now: real)
    requires 12 <= |data| && CookieOf(data) in s.sessions && CookieOf(data) !in s.relays
    requires var x := s.sessions[CookieOf(data)];
             && Inv(cfg, SetSession(s, CookieOf(data), Marked(x, now)), now)
             && (Marked(x, now) != x ==> x.activations == 0)
    ensures Inv(cfg, Welcome(cfg, s, data, addr, now).0, now)
  {
    hide Inv, Bounded, Introductions;
    var cookie := CookieOf(data);
    var x := s.sessions[cookie];
    var s1 := SetSession(s, cookie, Marked(x, now));
    if Marked(x, now) == x {
      assert s1.sessions == s.sessions;
    } else {
      AddFallbackKeeps(cfg, s1, cookie, now + cfg.fallbackSeconds, now);
    }
  }

  lemma HandleInitKeeps(cfg: Config, s: State, data: seq<u8>, addr: Address, now: real)
    requires Inv(cfg, s, now) && 12 <= |data|
    ensures Inv(cfg, HandleInit(cfg, s, data, addr, now).0, now)
  {
    if MIN_INIT_BYTES <= |data| && data[13] <= 1 {
      hide Inv, ClaimPeer, Welcome, SameAddresses;
      var cookie := CookieOf(data);
      var index: Index := data[13];
      if cookie in s.relays {
        LastSeenPast(cfg, s, cookie, now);
        RelayAlike(s.relays[cookie], s.relays[cookie].(lastSeen := now));
        SetRelayKeeps(cfg, s, cookie, s.relays[cookie].(lastSeen := now), now);
      } else {
        ClaimPeerKeeps(cfg, s, cookie, index, addr, data[6], now);
        var claim := ClaimPeer(cfg, s, cookie, index, addr, data[6], now);
        if claim.ok {
          WelcomeKeeps(cfg, claim.state, data, addr, now);
        }
      }
    }
  }

  lemma FinishOne(s: State, cookie: Cookie)
    ensures cookie !in Finish(s, {cookie}).relays
    ensures Finish(s, {cookie}).sessions == s.sessions
  {
  }

  lemma ReportSound(x: Session, index: Index)
    requires SessionSound(x)
    ensures SessionSound(x.(reports := x.reports + {index}))
  {
  }

  lemma RecordReportKeeps(cfg: Config, s: State, cookie: Cookie, index: Index, success: bool, addr: Address, now: real)
    requires Inv(cfg, s, now)
    ensures Inv(cfg, RecordReport(s, cookie, index, success, addr, now), now)
  {
    hide Inv, Finish, SessionSound;
    if cookie in s.sessions {
      TouchSessionKeeps(cfg, s, cookie, now);
      var s1 := TouchSession(s, cookie, now);
      if cookie in s1.relays && s1.relays[cookie].ready != {} {
        var r := s1.relays[cookie].(reports := s1.relays[cookie].reports + {index});
        LastSeenPast(cfg, s1, cookie, now);
        SetRelayKeeps(cfg, s1, cookie, r, now);
      } else {
        FinishKeeps(cfg, s1, {cookie}, now);
        FinishOne(s1, cookie);
        var s2 := Finish(s1, {cookie});
        var x := s2.sessions[cookie];
        SessionFacts(cfg, s2, cookie, now);
        ReportSound(x, index);
        var s3 := SetSession(s2, cookie, x.(reports := x.reports + {index}));
        SetSessionKeeps(cfg, s2, cookie, x.(reports := x.reports + {index}), now);
        DropFallbacksKeeps(cfg, s3, s2.fallbacks - {cookie}, now);
      }
    }
  }

  lemma ReceiveKeeps(cfg: Config, s: State, data: seq<u8>, addr: Address, now: real)
    requires Inv(cfg, s, now)
    ensures Inv(cfg, Receive(cfg, s, data, addr, now).0, now)
  {
    hide Inv, RecordReport, HandleInit, Forward, HandlePing, Bounded, AddressReply, PreinitReply;
    ExpireRelaysKeeps(cfg, s, now, false);
    var t := ExpireRelays(cfg, s, now, false);
    if TakesPing(t, data, addr) {
      HandlePingKeeps(cfg, t, data, addr, now);
    } else if !HasMagic(data) {
      ForwardKeeps(cfg, t, data, addr, now);
    } else if 12 <= |data| {
      HandleInitKeeps(cfg, t, data, addr, now);
      if 23 <= |data| && data[13] <= 1 && data[14] <= 1 {
        RecordReportKeeps(cfg, t, CookieOf(data), data[13], data[14] == 1, addr, now);
      }
    }
  }

  lemma OpenRelayInverse(cfg: Config, s: State, cookie: Cookie, now: real)
    requires Inverse(s) && cookie in s.sessions && Paired(s.sessions[cookie]) && cookie !in s.relays
    requires s.sessions[cookie].peers[0].address != s.sessions[cookie].peers[1].address
    requires forall i: Index :: s.sessions[cookie].peers[i].address !in s.byAddress
    ensures Inverse(OpenRelay(cfg, s, cookie, now).0)
  {
    var t := OpenRelay(cfg, s, cookie, now).0;
    var x := s.sessions[cookie];
    forall c, i: Index | c in t.relays
      ensures BoundTo(t, c, i)
    {
      if c != cookie {
        assert BoundTo(s, c, i);
        assert s.relays[c].endpoints[i].address != x.peers[0].address;
        assert s.relays[c].endpoints[i].address != x.peers[1].address;
      } else {
        assert i == 0 || i == 1;
      }
    }
  }

  lemma OpenRelaySessions(cfg: Config, s: State, cookie: Cookie, now: real)
    requires SessionsSound(s) && MayActivate(cfg, s, cookie) && cookie !in s.fallbacks
    requires s.sessions[cookie].activations == 0
    ensures SessionsSound(OpenRelay(cfg, s, cookie, now).0)
  {
    var t := OpenRelay(cfg, s, cookie, now).0;
    assert SessionSound(s.sessions[cookie]);
    var r := t.relays[cookie];
    assert Companions(t.sessions[cookie], r);
  }

  lemma OpenRelayTimers(cfg: Config, s: State, cookie: Cookie, now: real)
    requires TimersSound(cfg, s, now) && cookie in s.sessions && Paired(s.sessions[cookie])
    ensures TimersSound(cfg, OpenRelay(cfg, s, cookie, now).0, now)
  {
    var t := OpenRelay(cfg, s, cookie, now).0;
    assert t.expirations.Keys == s.expirations.Keys + {cookie};
    assert t.relays.Keys == s.relays.Keys + {cookie};
  }

  lemma OpenRelayCounts(cfg: Config, s: State, cookie: Cookie, now: real)
    requires CountsSound(cfg, s) && cookie in s.sessions && Paired(s.sessions[cookie])
    requires cookie !in s.relays && |s.relays| < cfg.maxRelays
    ensures CountsSound(cfg, OpenRelay(cfg, s, cookie, now).0)
  {
    var t := OpenRelay(cfg, s, cookie, now).0;
    UpdateSize(s.relays, cookie, t.relays[cookie]);
    UpdateSize(s.sessions, cookie, t.sessions[cookie]);
  }

  lemma OpenRelayKeeps(cfg: Config, s: State, cookie: Cookie, now: real)
    requires Inv(cfg, s, now) && MayActivate(cfg, s, cookie) && cookie !in s.fallbacks
    requires |s.relays| < cfg.maxRelays && s.sessions[cookie].activations == 0
    requires forall i: Index :: s.sessions[cookie].peers[i].address !in s.byAddress
    ensures Inv(cfg, OpenRelay(cfg, s, cookie, now).0, now)
  {
    SessionFacts(cfg, s, cookie, now);
    hide Inverse, SessionsSound, TimersSound, CountsSound, OpenRelay;
    OpenRelayInverse(cfg, s, cookie, now);
    OpenRelaySessions(cfg, s, cookie, now);
    OpenRelayTimers(cfg, s, cookie, now);
    OpenRelayCounts(cfg, s, cookie, now);
  }

  lemma UnusedSession(cfg: Config, s: State, cookie: Cookie, now: real)
    requires Inv(cfg, s, now) && cookie in s.fallbacks && cookie in s.sessions
    ensures s.sessions[cookie].activations == 0
  {
    hide Inverse, TimersSound;
    assert SessionSound(s.sessions[cookie]);
  }

  lemma ActivateKeeps(cfg: Config, s: State, cookie: Cookie, now: real)
    requires cfg.Valid() && Inv(cfg, s, now) && cookie in s.fallbacks
    ensures Inv(cfg, Activate(cfg, s, cookie, now).0, now)
  {
    hide Inv, ExpireRelays, Finish, PingsPaidFor, HoldersOf, OpenRelay;
    var s0 := s.(fallbacks := s.fallbacks - {cookie});
    DropFallbacksKeeps(cfg, s, s.fallbacks - {cookie}, now);
    if MayActivate(cfg, s0, cookie) {
      UnusedSession(cfg, s, cookie, now);
      ExpireRelaysKeeps(cfg, s0, now, true);
      var s1 := ExpireRelays(cfg, s0, now, true);
      ActivateSwept(cfg, s0, s1, cookie, now);
      if |s1.relays| < cfg.maxRelays && s0.sessions[cookie].peers[0].address != s0.sessions[cookie].peers[1].address {
        OpenOverHolders(cfg, s1, cookie, now);
      }
    }
  }

  /** The sweep before an activation leaves the ground for it. */
  lemma ActivateSwept(cfg: Config, s0: State, s1: State, cookie: Cookie, now: real)
    requires s1 == ExpireRelays(cfg, s0, now, true) && MayActivate(cfg, s0, cookie) && cookie !in s0.fallbacks
    ensures s1.sessions == s0.sessions && MayActivate(cfg, s1, cookie) && cookie !in s1.fallbacks
  {
  }

  lemma OpenOverHolders(cfg: Config, s: State, cookie: Cookie, now: real)
    requires cfg.Valid() && Inv(cfg, s, now) && MayActivate(cfg, s, cookie) && cookie !in s.fallbacks
    requires |s.relays| < cfg.maxRelays && s.sessions[cookie].activations == 0
    ensures cookie in Finish(s, HoldersOf(s, s.sessions[cookie])).sessions
            && Paired(Finish(s, HoldersOf(s, s.sessions[cookie])).sessions[cookie])
    ensures Inv(cfg, OpenRelay(cfg, Finish(s, HoldersOf(s, s.sessions[cookie])), cookie, now).0, now)
  {
    hide Inverse, SessionsSound, TimersSound, CountsSound, OpenRelay, HoldersOf;
    var x := s.sessions[cookie];
    FinishKeeps(cfg, s, HoldersOf(s, x), now);
    HoldersFreed(s, x);
    SubmapSize(Finish(s, HoldersOf(s, x)).relays, s.relays);
    OpenRelayKeeps(cfg, Finish(s, HoldersOf(s, x)), cookie, now);
  }

  /** Finishing the holders of both addresses frees them. */
  lemma HoldersFreed(s: State, x: Session)
    requires Inverse(s) && Paired(x)
    ensures forall i: Index :: x.peers[i].address !in Finish(s, HoldersOf(s, x)).byAddress
  {
    forall i: Index
      ensures x.peers[i].address !in Finish(s, HoldersOf(s, x)).byAddress
    {
      var a := x.peers[i].address;
      assert i in x.peers;
      if a in s.byAddress {
        assert s.byAddress[a].cookie in HoldersOf(s, x);
      }
    }
  }

  lemma SetTimerKeeps(cfg: Config, s: State, cookie: Cookie, due: real, now: real)
    requires Inv(cfg, s, now) && cookie in s.relays
    requires due <= s.relays[cookie].lastSeen + cfg.sessionSeconds
    ensures Inv(cfg, s.(expirations := s.expirations[cookie := due]), now)
  {
    var t := s.(expirations := s.expirations[cookie := due]);
    assert t.expirations.Keys == s.expirations.Keys;
    SameRelays(s, t);
  }

  lemma TimerKeys(cfg: Config, s: State, now: real)
    requires Inv(cfg, s, now)
    ensures s.expirations.Keys == s.relays.Keys
  {
  }

  lemma IdleTimerUnknown(cfg: Config, s: State, cookie: Cookie, now: real)
    requires Inv(cfg, s, now) && cookie !in s.relays
    ensures IdleTimer(cfg, s, cookie, now) == s
  {
    TimerKeys(cfg, s, now);
    assert s.expirations - {cookie} == s.expirations;
  }

  lemma IdleTimerKeeps(cfg: Config, s: State, cookie: Cookie, now: real)
    requires Inv(cfg, s, now)
    ensures Inv(cfg, IdleTimer(cfg, s, cookie, now), now)
  {
    hide Inv, Finish;
    if cookie !in s.relays {
      IdleTimerUnknown(cfg, s, cookie, now);
    } else {
      var remaining := cfg.sessionSeconds - (now - s.relays[cookie].lastSeen);
      if remaining > 0.0 {
        SetTimerKeeps(cfg, s, cookie, now + remaining, now);
      } else {
        FinishKeeps(cfg, s, {cookie}, now);
      }
    }
  }

  lemma ConnectionLostKeeps(cfg: Config, s: State, now: real)
    requires Inv(cfg, s, now)
    ensures Inv(cfg, Step(cfg, s, now, ConnectionLost).0, now)
  {
    DropFallbacksKeeps(cfg, s, map[], now);
    var s0 := s.(fallbacks := map[]);
    FinishKeeps(cfg, s0, s.relays.Keys, now);
    var s1 := Finish(s0, s.relays.Keys);
    TimerKeys(cfg, s1, now);
    assert s1.relays.Keys == {};
    assert s1.expirations == map[];
    FlagsAside(cfg, s1, s1.(connected := false), now);
  }

  /** Every step of the protocol keeps the invariant. */
  lemma StepKeeps(cfg: Config, s: State, now: real, e: Event)
    requires cfg.Valid() && Inv(cfg, s, now)
    ensures Inv(cfg, Step(cfg, s, now, e).0, now)
  {
    hide Inv, Receive, Activate, IdleTimer, ExpireSessions, Finish;
    var t := Step(cfg, s, now, e).0;
    match e
    case Datagram(data, from, admitted) =>
      ReceiveKeeps(cfg, s, data, from, now);
    case FallbackDue(cookie) =>
      if cookie in s.fallbacks {
        ActivateKeeps(cfg, s, cookie, now);
      }
    case IdleDue(cookie) =>
      IdleTimerKeeps(cfg, s, cookie, now);
    case SweepSessions =>
      ExpireSessionsKeeps(cfg, s, now);
    case CloseRelays =>
      FinishKeeps(cfg, s, s.relays.Keys, now);
    case ConnectionLost =>
      ConnectionLostKeeps(cfg, s, now);
    case BeginDrain =>
      DropFallbacksKeeps(cfg, s, map[], now);
    case RequestDrain =>
      FlagsAside(cfg, s, t, now);
    case ConnectionMade =>
      FlagsAside(cfg, s, t, now);
  }

  // -------------------------------------------------------------------- runs

  /** A run under a clock that does not go backwards. */
  ghost predicate Ordered(run: seq<Moment>) {
    forall i, j :: 0 <= i < j < |run| ==> run[i].time <= run[j].time
  }

  ghost function Clock(run: seq<Moment>): real {
    if run == [] then 0.0 else run[|run| - 1].time
  }

  lemma {:induction false} RunKeeps(cfg: Config, run: seq<Moment>)
    requires cfg.Valid() && Ordered(run)
    ensures Inv(cfg, Reach(cfg, run), Clock(run))
    decreases |run|
  {
    if run != [] {
      hide Step, Inv;
      var (init, m) := (run[..|run| - 1], run[|run| - 1]);
      RunKeeps(cfg, init);
      if init == [] {
        StartIsSound(cfg, m.time);
      } else {
        InvLater(cfg, Reach(cfg, init), Clock(init), m.time);
      }
      StepKeeps(cfg, Reach(cfg, init), m.time, m.event);
    } else {
      StartIsSound(cfg, 0.0);
    }
  }

  lemma StartIsSound(cfg: Config, now: real)
    ensures Inv(cfg, START, now)
  {
  }
}
