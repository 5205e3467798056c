/**
 * What NAT negotiation answers, byte by byte, and what it does with a claim, a report, a ping and a
 * fallback: told from the datagram and the state before.
 */
module NatNegAnswers {
  import opened Wrappers
  import opened Bytes
  import opened TokenBuckets
  import opened NatNeg
  import opened NatNegInvariant
  import opened NatNegSafety
  import opened NatNegTraffic
  import NatNegAmplification

  // ----------------------------------------------------------------- packets

  /** The datagram back, under another type. */
  predicate Echoes(b: seq<u8>, data: seq<u8>, kind: u8) {
    8 <= |b| == |data| && b[7] == kind && forall i :: 0 <= i < |b| && i != 7 ==> b[i] == data[i]
  }

  /** A CONNECT to a peer of this version: the address at 12..18 is the one to talk to. */
  predicate SaysConnect(b: seq<u8>, version: u8, cookie: Cookie, remote: Address) {
    && |b| == 20 && BeginsWithMagic(b) && b[6] == version && b[7] == 5 && b[8..12] == cookie
    && b[12] == remote.a && b[13] == remote.b && b[14] == remote.c && b[15] == remote.d
    && (b[16] as int) * 256 + b[17] as int == remote.port && b[18] == 0 && b[19] == 0
  }

  /** A relay's ping. */
  predicate SaysPing(b: seq<u8>, version: u8, cookie: Cookie) {
    && |b| == 20 && BeginsWithMagic(b) && b[6] == version && b[7] == 7 && b[8..12] == cookie
    && (forall i :: 12 <= i < 18 ==> b[i] == 0) && b[18] == 1 && b[19] == 0
  }

  lemma ConnectSays(version: u8, cookie: Cookie, remote: Address)
    ensures SaysConnect(ConnectPacket(version, cookie, remote), version, cookie, remote)
  {
    var b := ConnectPacket(version, cookie, remote);
    assert b[8..12] == cookie;
    assert b[16] == remote.port / 0x100 && b[17] == remote.port % 0x100;
  }

  lemma PingSays(version: u8, cookie: Cookie)
    ensures SaysPing(RelayPing(version, cookie), version, cookie)
  {
    assert RelayPing(version, cookie)[8..12] == cookie;
  }

  lemma WithTypeEchoes(data: seq<u8>, kind: u8)
    requires 8 <= |data|
    ensures Echoes(WithType(data, kind), data, kind)
  {
  }

  /** An answer is suppressed if and only if it is longer than three times the request, or the request is empty. */
  lemma SuppressedIff(request: seq<u8>, responses: seq<Send>)
    ensures Bounded(request, responses) == if |request| > 0 && Total(responses) <= 3 * |request| then responses else []
  {
  }

  lemma OneIsAnswered(request: seq<u8>, response: Send)
    requires 0 < |request| && |response.data| <= 3 * |request|
    ensures Bounded(request, [response]) == [response]
  {
    assert [response][1..] == [];
    assert Total([response]) == |response.data| + Total([]);
  }

  // ------------------------------------------------------------------ claims

  /** The session is still within its ttl. */
  predicate Current(cfg: Config, s: State, now: real, c: Cookie) {
    c in s.sessions && now - s.sessions[c].lastSeen <= cfg.sessionTtl
  }

  /**
   * A claim is welcome: its index is the sender's already, or is free and the sender holds no other, or
   * there is no such session and room for one.
   */
  predicate Welcomes(cfg: Config, s: State, now: real, c: Cookie, index: Index, addr: Address) {
    if Current(cfg, s, now, c) then
      var peers := s.sessions[c].peers;
      if index in peers then peers[index].address == addr
      else 1 - index in peers ==> peers[1 - index].address != addr
    else |set d | d in s.sessions && now - s.sessions[d].lastSeen <= cfg.sessionTtl| < cfg.maxSessions
  }

  /** The session that a welcome claim leaves. */
  predicate Claimed(cfg: Config, s: State, now: real, c: Cookie, index: Index, addr: Address, version: u8, x: Session) {
    if Current(cfg, s, now, c) then
      var y := s.sessions[c];
      && x.peers.Keys == y.peers.Keys + {index} && x.peers[index] == Peer(addr, version)
      && (1 - index in y.peers ==> x.peers[1 - index] == y.peers[1 - index])
      && x.opener == y.opener && x.reports == y.reports && x.activations == y.activations && x.lastSeen == now
    else x.peers == map[index := Peer(addr, version)] && x.opener == index && x.reports == {} && x.activations == 0 && x.lastSeen == now
  }

  lemma PeerCount(peers: map<Index, Peer>, index: Index)
    ensures |peers| == 2 <==> index in peers && 1 - index in peers
  {
    assert |peers| == |peers.Keys|;
    assert peers.Keys <= {index, 1 - index};
    if index in peers && 1 - index in peers {
      assert peers.Keys == {index, 1 - index};
    } else if index in peers {
      assert peers.Keys == {index};
    } else if 1 - index in peers {
      assert peers.Keys == {1 - index};
    } else {
      assert peers.Keys == {};
    }
  }

  lemma SweptCount(cfg: Config, s: State, now: real)
    ensures |ExpireSessions(cfg, s, now).sessions| == |set d | d in s.sessions && now - s.sessions[d].lastSeen <= cfg.sessionTtl|
  {
    var t := ExpireSessions(cfg, s, now);
    assert t.sessions.Keys == set d | d in s.sessions && now - s.sessions[d].lastSeen <= cfg.sessionTtl;
    assert |t.sessions| == |t.sessions.Keys|;
  }

  lemma TakenIff(x: Session, index: Index, addr: Address)
    requires index !in x.peers
    ensures AddressTaken(x, addr) <==> 1 - index in x.peers && x.peers[1 - index].address == addr
  {
    assert forall i: Index :: i in x.peers ==> i == index || i == 1 - index;
  }

  /** A claim is accepted if and only if it is welcome, and leaves the session described; every other current one stays. */
  lemma ClaimIff(cfg: Config, s: State, c: Cookie, index: Index, addr: Address, version: u8, now: real)
    ensures var claim := ClaimPeer(cfg, s, c, index, addr, version, now);
            && (claim.ok <==> Welcomes(cfg, s, now, c, index, addr))
            && (claim.ok ==> c in claim.state.sessions && Claimed(cfg, s, now, c, index, addr, version, claim.state.sessions[c])
                             && claim.state.sessions[c].pairedAt == if Current(cfg, s, now, c) then s.sessions[c].pairedAt else None)
            && (forall d :: d != c || !claim.ok ==>
                  (d in claim.state.sessions <==> Current(cfg, s, now, d))
                  && (d in claim.state.sessions ==> claim.state.sessions[d] == s.sessions[d]))
            && claim.state == s.(sessions := claim.state.sessions)
  {
    SweptCount(cfg, s, now);
    if Current(cfg, s, now, c) {
      PeerCount(s.sessions[c].peers, index);
      if index !in s.sessions[c].peers {
        TakenIff(s.sessions[c], index, addr);
      }
    }
    hide AddressTaken;
  }

  // -------------------------------------------------------------------- INIT

  /** The place of the CONNECT to peer `i` among the answers: the one that claimed its index first comes first. */
  function Rank(x: Session, i: Index): nat {
    if i == x.opener then 1 else 2
  }

  /** The acknowledgement to the sender and, once both peers are known, one CONNECT to each, with the other's address. */
  predicate Introduces(data: seq<u8>, addr: Address, c: Cookie, x: Session, sent: seq<Send>) {
    && |sent| == (if Paired(x) then 3 else 1)
    && sent[0].to == addr && Echoes(sent[0].data, data, 1)
    && (Paired(x) ==> forall i: Index :: i in x.peers ==>
          && sent[Rank(x, i)].to == x.peers[i].address
          && SaysConnect(sent[Rank(x, i)].data, x.peers[i].version, c, x.peers[1 - i].address))
  }

  lemma WelcomeSays(cfg: Config, s: State, data: seq<u8>, addr: Address, now: real)
    requires MIN_INIT_BYTES <= |data| && CookieOf(data) in s.sessions
    ensures var c := CookieOf(data);
            var x := s.sessions[c];
            var t := Welcome(cfg, s, data, addr, now).0;
            && Introduces(data, addr, c, x, Welcome(cfg, s, data, addr, now).1)
            && t == s.(sessions := t.sessions, fallbacks := t.fallbacks)
            && t.sessions == s.sessions[c := x.(pairedAt := if Paired(x) && x.pairedAt.None? then Some(now) else x.pairedAt)]
            && t.fallbacks == (if Paired(x) && x.pairedAt.None? && cfg.auto && s.connected && c !in s.fallbacks
                               then s.fallbacks[c := now + cfg.fallbackSeconds] else s.fallbacks)
  {
    hide WithType, ConnectPacket, SaysConnect, Echoes, Bounded;
    var c := CookieOf(data);
    var x := s.sessions[c];
    var ack := Send(WithType(data, INIT_ACK), addr);
    WithTypeEchoes(data, INIT_ACK);
    assert s.sessions[c := x] == s.sessions;
    if Paired(x) {
      NatNegAmplification.PairingNeverSuppressed(x, data, addr);
      ConnectSays(x.peers[0].version, c, x.peers[1].address);
      ConnectSays(x.peers[1].version, c, x.peers[0].address);
      assert forall i: Index :: i in x.peers ==> i == 0 || i == 1;
    } else {
      EchoSize(data, INIT_ACK);
      OneIsAnswered(data, ack);
    }
  }

  lemma EchoSize(data: seq<u8>, kind: u8)
    requires 8 <= |data|
    ensures |WithType(data, kind)| == |data|
  {
  }

  /**
   * An INIT for a cookie without a relay: an unwelcome claim is not answered; a welcome one leaves the
   * session it claims, is answered as described, and the one that pairs it arms the fallback.
   */
  lemma InitMeans(cfg: Config, s: State, data: seq<u8>, addr: Address, now: real)
    requires MIN_INIT_BYTES <= |data| && data[13] <= 1 && CookieOf(data) !in s.relays
    ensures var c, index := CookieOf(data), data[13];
            var t, sent := HandleInit(cfg, s, data, addr, now).0, HandleInit(cfg, s, data, addr, now).1;
            if !Welcomes(cfg, s, now, c, index, addr) then
              && sent == [] && t.fallbacks == s.fallbacks
              && (c in t.sessions ==> Current(cfg, s, now, c) && t.sessions[c] == s.sessions[c])
            else
              && c in t.sessions && Claimed(cfg, s, now, c, index, addr, data[6], t.sessions[c])
              && Introduces(data, addr, c, t.sessions[c], sent)
              && t.fallbacks == (if Paired(t.sessions[c]) && (Current(cfg, s, now, c) ==> s.sessions[c].pairedAt.None?)
                                    && cfg.auto && s.connected && c !in s.fallbacks
                                 then s.fallbacks[c := now + cfg.fallbackSeconds] else s.fallbacks)
  {
    hide ClaimPeer, Welcome, Welcomes, Introduces;
    var c, index := CookieOf(data), data[13];
    ClaimIff(cfg, s, c, index, addr, data[6], now);
    var claim := ClaimPeer(cfg, s, c, index, addr, data[6], now);
    if claim.ok {
      WelcomeSays(cfg, claim.state, data, addr, now);
      PairedAside(data, addr, c, claim.state.sessions[c], now);
    }
  }

  lemma PairedAside(data: seq<u8>, addr: Address, c: Cookie, x: Session, now: real)
    ensures forall sent :: Introduces(data, addr, c, x, sent) ==> Introduces(data, addr, c, x.(pairedAt := Some(now)), sent)
  {
    hide SaysConnect, Echoes;
  }

  function PeerAt(x: Session, i: Index): Peer
    requires Paired(x)
  {
    x.peers[i]
  }

  /** Two packets behind the acknowledgement, and the one to peer `i` carries the address of peer 1 - i. */
  predicate IntroducesBoth(data: seq<u8>, addr: Address, c: Cookie, x: Session, sent: seq<Send>, i: Index)
    requires Paired(x)
  {
    && |sent| == 3 && sent[0].to == addr && Echoes(sent[0].data, data, 1)
    && (forall k :: 1 <= k < 3 ==> (sent[k].to == PeerAt(x, i).address <==> k == Rank(x, i)))
    && SaysConnect(sent[Rank(x, i)].data, PeerAt(x, i).version, c, PeerAt(x, 1 - i).address)
  }

  /**
   * In particular: whenever an INIT leaves its session `x` paired and its sender a peer of it, each peer
   * is sent exactly one CONNECT, and it carries the other one's address.
   */
  lemma PeersAreIntroduced(cfg: Config, s: State, data: seq<u8>, addr: Address, now: real, t: State, sent: seq<Send>, x: Session,
                           i: Index)
    requires Inv(cfg, s, now) && MIN_INIT_BYTES <= |data| && data[13] <= 1 && CookieOf(data) !in s.relays
    requires HandleInit(cfg, s, data, addr, now) == (t, sent)
    requires CookieOf(data) in t.sessions && x == t.sessions[CookieOf(data)] && Paired(x) && PeerAt(x, data[13]).address == addr
    ensures IntroducesBoth(data, addr, CookieOf(data), x, sent, i)
  {
    hide HandleInit, SaysConnect, Echoes, Inv, Claimed, Introduces, SessionSound;
    InitMeans(cfg, s, data, addr, now);
    HandleInitKeeps(cfg, s, data, addr, now);
    SessionFacts(cfg, t, CookieOf(data), now);
    IntroducedOnce(data, addr, CookieOf(data), x, sent, i);
  }

  lemma IntroducedOnce(data: seq<u8>, addr: Address, c: Cookie, x: Session, sent: seq<Send>, i: Index)
    requires Introduces(data, addr, c, x, sent) && Paired(x) && SessionSound(x)
    ensures IntroducesBoth(data, addr, c, x, sent, i)
  {
    hide SaysConnect, Echoes;
    assert i in x.peers && 1 - i in x.peers;
    assert sent[Rank(x, 1 - i)].to == x.peers[1 - i].address;
    assert x.peers[0].address != x.peers[1].address;
  }

  // ------------------------------------------------------------ other answers

  /** An address check's answer: the sender's own address at 15..21, zeros where the request ended before. */
  predicate TellsAddress(b: seq<u8>, data: seq<u8>, addr: Address) {
    && |b| == (if |data| < 21 then 21 else |data|)
    && (forall i :: 0 <= i < |b| && i != 7 && !(15 <= i < 21) ==> b[i] == if i < |data| then data[i] else 0)
    && b[7] == 11 && b[15] == addr.a && b[16] == addr.b && b[17] == addr.c && b[18] == addr.d
    && (b[19] as int) * 256 + b[20] as int == addr.port
  }

  lemma AddressTold(data: seq<u8>, addr: Address)
    requires 12 <= |data|
    ensures TellsAddress(AddressReply(data, addr), data, addr)
  {
    var reply := WithType(data, ADDRESS_REPLY);
    var padded := if |reply| < 21 then reply + Zeros(21 - |reply|) else reply;
    var b := AddressReply(data, addr);
    assert b == padded[..15] + HostBytes(addr) + PortBytes(addr) + padded[21..];
    assert b[19] == addr.port / 0x100 && b[20] == addr.port % 0x100;
  }

  /** The only answer to a packet of its kind, to its sender; every other kind but INIT gets none. */
  lemma RepliesMean(cfg: Config, s: State, data: seq<u8>, addr: Address, now: real)
    requires 12 <= |data| <= cfg.packetBytes && data[7] != 0
    ensures var sent := HandleNegotiation(cfg, s, data, addr, now).1;
            if data[7] == 10 || data[7] == 12 || data[7] == 15
               || (data[7] == 13 && 23 <= |data| && data[13] <= 1 && data[14] <= 1)
            then
              && |sent| == 1 && sent[0].to == addr
              && (data[7] == 10 ==> TellsAddress(sent[0].data, data, addr))
              && (data[7] == 12 ==> Echoes(sent[0].data, data, 2))
              && (data[7] == 13 ==> Echoes(sent[0].data, data, 14))
              && (data[7] == 15 ==> |sent[0].data| == |data| && sent[0].data[7] == 16 && (13 < |data| ==> sent[0].data[13] == 2)
                                    && forall i :: 0 <= i < |data| && i != 7 && i != 13 ==> sent[0].data[i] == data[i])
            else sent == []
  {
    hide Bounded, AddressReply, RecordReport, HandleInit, TellsAddress;
    AddressTold(data, addr);
    AddressLength(data, addr);
    OneIsAnswered(data, Send(AddressReply(data, addr), addr));
    OneIsAnswered(data, Send(WithType(data, ERT_TEST), addr));
    OneIsAnswered(data, Send(WithType(data, REPORT_ACK), addr));
    OneIsAnswered(data, Send(PreinitReply(data), addr));
  }

  lemma AddressLength(data: seq<u8>, addr: Address)
    requires 12 <= |data|
    ensures |AddressReply(data, addr)| == if |data| < 21 then 21 else |data|
  {
    hide HostBytes, PortBytes;
    AddressTold(data, addr);
  }

  /** Too long, too short, or an INIT for a new session during drain: no answer and no change. */
  lemma RefusedMeans(cfg: Config, s: State, data: seq<u8>, addr: Address, now: real)
    ensures |data| > cfg.packetBytes || |data| < 12 || (s.draining && data[7] == 0 && CookieOf(data) !in s.sessions) ==>
              HandleNegotiation(cfg, s, data, addr, now) == (s, [])
    ensures 12 <= |data| <= cfg.packetBytes && data[7] == 0 && !(s.draining && CookieOf(data) !in s.sessions) ==>
              HandleNegotiation(cfg, s, data, addr, now) == HandleInit(cfg, s, data, addr, now)
  {
    hide HandleInit;
  }

  // -------------------------------------------------------------- activation

  /** A fallback opens its relay if and only if it is due, may activate and finds room. */
  lemma OpensIff(cfg: Config, s: State, now: real, c: Cookie)
    requires Inv(cfg, s, now) && c !in s.relays
    ensures c in Step(cfg, s, now, FallbackDue(c)).0.relays
            <==> && c in s.fallbacks && s.fallbacks[c] <= now
                 && !s.draining && s.connected && cfg.auto
                 && c in s.sessions && Paired(s.sessions[c]) && s.sessions[c].reports == {}
                 && |set d | d in s.relays && now - s.relays[d].lastSeen < cfg.sessionSeconds| < cfg.maxRelays
  {
    hide Inv, Activate, MayActivate;
    MayActivateIff(cfg, s.(fallbacks := s.fallbacks - {c}), c);
    if MayActivate(cfg, s.(fallbacks := s.fallbacks - {c}), c) {
      PeersDistinct(cfg, s, c, now);
      ActivatesIff(cfg, s, now, c);
    } else {
      NoActivation(cfg, s, now, c);
    }
  }

  lemma MayActivateIff(cfg: Config, s: State, c: Cookie)
    ensures MayActivate(cfg, s, c)
            <==> !s.draining && s.connected && cfg.auto && c !in s.relays
                 && c in s.sessions && Paired(s.sessions[c]) && s.sessions[c].reports == {}
  {
    if c in s.sessions {
      PeersBoth(s.sessions[c]);
    }
  }

  lemma NoActivation(cfg: Config, s: State, now: real, c: Cookie)
    requires c !in s.relays && !MayActivate(cfg, s.(fallbacks := s.fallbacks - {c}), c)
    ensures c !in Activate(cfg, s, c, now).0.relays
  {
    hide ExpireRelays, HoldersOf, Finish, OpenRelay, MayActivate;
  }

  lemma ActivatesIff(cfg: Config, s: State, now: real, c: Cookie)
    requires MayActivate(cfg, s.(fallbacks := s.fallbacks - {c}), c) && Paired(s.sessions[c])
    requires s.sessions[c].peers[0].address != s.sessions[c].peers[1].address && c !in s.relays
    ensures c in Activate(cfg, s, c, now).0.relays
            <==> |set d | d in s.relays && now - s.relays[d].lastSeen < cfg.sessionSeconds| < cfg.maxRelays
  {
    hide PingsPaidFor, HoldersOf, Finish, ExpireRelays, OpenRelay;
    var s0 := s.(fallbacks := s.fallbacks - {c});
    var s1 := ExpireRelays(cfg, s0, now, true);
    ForcedSweep(cfg, s0, now);
    SweptSessions(cfg, s0, now);
    OpenCount(cfg, s0, now);
    NatNegAmplification.PingsAlwaysPaidFor(s.sessions[c], c);
    FinishSessions(s1, HoldersOf(s1, s.sessions[c]));
    OpenAdds(cfg, Finish(s1, HoldersOf(s1, s.sessions[c])), c, now);
  }

  lemma PeersBoth(x: Session)
    ensures x.peers.Keys == {0, 1} <==> Paired(x)
  {
    assert forall i: Index :: i in x.peers.Keys ==> i == 0 || i == 1;
  }

  lemma OpenCount(cfg: Config, s: State, now: real)
    ensures |ExpireRelays(cfg, s, now, true).relays| == |set d | d in s.relays && now - s.relays[d].lastSeen < cfg.sessionSeconds|
  {
    var t := ExpireRelays(cfg, s, now, true);
    assert t.relays.Keys == set d | d in s.relays && now - s.relays[d].lastSeen < cfg.sessionSeconds;
    assert |t.relays| == |t.relays.Keys|;
  }

  /** What an opening leaves for peer `i`: one ping, its bucket full, its address bound, the timer at the deadline. */
  predicate OpenedFor(cfg: Config, x: Session, c: Cookie, now: real, t: State, sent: seq<Send>, i: Index)
    requires Paired(x)
  {
    && |sent| == 2 && sent[Rank(x, i) - 1].to == PeerAt(x, i).address
    && SaysPing(sent[Rank(x, i) - 1].data, PeerAt(x, i).version, c)
    && c in t.relays && t.relays[c].endpoints[i] == Endpoint(PeerAt(x, i).address, Bucket(cfg.byteBurst as real, now))
    && t.relays[c].ready == {} && t.relays[c].lastSeen == now && t.relays[c].startedAt == now
    && PeerAt(x, i).address in t.byAddress && t.byAddress[PeerAt(x, i).address] == Binding(c, i)
    && c in t.expirations && t.expirations[c] == now + cfg.sessionSeconds
  }

  /**
   * A fallback that opens its relay pings each peer once, with its own version and the cookie; binds each
   * address to its index; and sets the relay's timer to its deadline.
   */
  lemma OpeningMeans(cfg: Config, s: State, now: real, c: Cookie, t: State, sent: seq<Send>, i: Index)
    requires Inv(cfg, s, now) && c !in s.relays && Step(cfg, s, now, FallbackDue(c)) == (t, sent) && c in t.relays
    ensures c in s.sessions && Paired(s.sessions[c]) && OpenedFor(cfg, s.sessions[c], c, now, t, sent, i)
  {
    hide Inv, Step, OpenRelay, SaysPing, SessionSound, OpenedFor;
    OpenedRelay(cfg, s, now, FallbackDue(c), c);
    PeersDistinct(cfg, s, c, now);
    var before := OpenedFrom(cfg, s, now, c);
    OpenRelaySays(cfg, before, c, now, i);
  }

  /** The state that an opening starts from: swept, and with the former holders of the addresses gone. */
  lemma OpenedFrom(cfg: Config, s: State, now: real, c: Cookie) returns (before: State)
    requires c !in s.relays && c in Step(cfg, s, now, FallbackDue(c)).0.relays && c in s.sessions && Paired(s.sessions[c])
    ensures before.sessions == s.sessions && Step(cfg, s, now, FallbackDue(c)) == OpenRelay(cfg, before, c, now)
  {
    hide PingsPaidFor, HoldersOf, Finish, ExpireRelays, OpenRelay;
    var s0 := s.(fallbacks := s.fallbacks - {c});
    var s1 := ExpireRelays(cfg, s0, now, true);
    ForcedSweep(cfg, s0, now);
    SweptSessions(cfg, s0, now);
    before := Finish(s1, HoldersOf(s1, s.sessions[c]));
    FinishSessions(s1, HoldersOf(s1, s.sessions[c]));
  }

  lemma OpenRelaySays(cfg: Config, s: State, c: Cookie, now: real, i: Index)
    requires c in s.sessions && Paired(s.sessions[c]) && s.sessions[c].peers[0].address != s.sessions[c].peers[1].address
    ensures OpenedFor(cfg, s.sessions[c], c, now, OpenRelay(cfg, s, c, now).0, OpenRelay(cfg, s, c, now).1, i)
  {
    hide RelayPing, SaysPing;
    PingSays(s.sessions[c].peers[0].version, c);
    PingSays(s.sessions[c].peers[1].version, c);
  }

  lemma PeersDistinct(cfg: Config, s: State, c: Cookie, now: real)
    requires Inv(cfg, s, now) && c in s.sessions && Paired(s.sessions[c])
    ensures s.sessions[c].peers[0].address != s.sessions[c].peers[1].address
  {
    hide Inv;
    SessionFacts(cfg, s, c, now);
  }

  // --------------------------------------------------------- pings and reports

  /** An endpoint becomes ready if and only if its own address sends the ping of this relay, not too short. */
  lemma PingReadiesIff(cfg: Config, s: State, now: real, data: seq<u8>, from: Address, c: Cookie, i: Index)
    requires Inv(cfg, s, now) && c in s.relays && Survives(cfg, s, now, c)
    requires c in Step(cfg, s, now, Datagram(data, from, true)).0.relays
    ensures i in Step(cfg, s, now, Datagram(data, from, true)).0.relays[c].ready
            <==> i in s.relays[c].ready
                 || (from == s.relays[c].endpoints[i].address && 20 <= |data| && BeginsWithMagic(data) && data[7] == 7 && data[8..12] == c)
  {
    hide Inv, ExpireRelays, Forward, HandleNegotiation, Kin, Inverse;
    var t := ExpireRelays(cfg, s, now, false);
    ExpireRelaysKeeps(cfg, s, now, false);
    InverseOf(cfg, t, now);
    SweptIff(cfg, s, now, c);
    MagicIs(data);
    BoundEndpoint(t, from, c, i);
    BoundEndpoint(t, from, c, 1 - i);
    if !TakesPing(t, data, from) {
      StaysUnready(cfg, t, data, from, now, c);
    }
  }

  lemma StaysUnready(cfg: Config, s: State, data: seq<u8>, from: Address, now: real, c: Cookie)
    requires c in s.relays && !TakesPing(s, data, from) && c in Dispatch(cfg, s, data, from, now).0.relays
    ensures Dispatch(cfg, s, data, from, now).0.relays[c].ready == s.relays[c].ready
  {
    hide Forward, HandleNegotiation;
    ForwardDescends(cfg, s, data, from, now);
    NegotiationDescends(cfg, s, data, from, now);
  }

  /** A ping, or any datagram of a bound address that is no negotiation, marks the relay seen. */
  lemma TrafficMarksSeen(cfg: Config, s: State, now: real, data: seq<u8>, from: Address, c: Cookie, i: Index)
    requires Inv(cfg, s, now) && c in s.relays && Survives(cfg, s, now, c) && s.relays[c].endpoints[i].address == from
    requires !BeginsWithMagic(data) || (20 <= |data| && data[7] == 7 && data[8..12] == c)
    ensures var t := Step(cfg, s, now, Datagram(data, from, true)).0;
            c in t.relays && t.relays[c].lastSeen == now && (c in s.sessions ==> c in t.sessions && t.sessions[c].lastSeen == now)
  {
    hide Inv, ExpireRelays, HandleNegotiation, Inverse, Forward;
    var t := ExpireRelays(cfg, s, now, false);
    ExpireRelaysKeeps(cfg, s, now, false);
    InverseOf(cfg, t, now);
    SweptIff(cfg, s, now, c);
    MagicIs(data);
    BoundEndpoint(t, from, c, i);
    ForwardMarks(cfg, t, data, from, now, c, i);
  }

  lemma ForwardMarks(cfg: Config, s: State, data: seq<u8>, from: Address, now: real, c: Cookie, i: Index)
    requires from in s.byAddress && s.byAddress[from] == Binding(c, i) && c in s.relays
    ensures var t := Forward(cfg, s, data, from, now).0;
            c in t.relays && t.relays[c].lastSeen == now && (c in s.sessions ==> c in t.sessions && t.sessions[c].lastSeen == now)
  {
    hide Charge, Accepts;
    ForwardShape(cfg, s, data, from, now, c, i);
  }

  /** The report counts as a direct success: while no endpoint of a relay is ready. */
  ghost predicate Counts(s: State, c: Cookie, index: Index, success: bool, addr: Address) {
    success && Reporter(s, c, index, addr) && (c in s.relays ==> s.relays[c].ready == {})
  }

  lemma FinishAside(s: State, c: Cookie)
    ensures Finish(s, {c}).sessions == s.sessions
    ensures forall d :: d in Finish(s, {c}).fallbacks <==> d in s.fallbacks && !(d == c && c in s.relays)
  {
  }

  /** What a peer's own report counts: a direct success while no endpoint of a relay is ready, and never twice. */
  lemma ReportMeans(s: State, c: Cookie, index: Index, success: bool, addr: Address, now: real)
    requires c in s.sessions
    ensures var x := s.sessions[c];
            RecordReport(s, c, index, success, addr, now).sessions
            == s.sessions[c := x.(reports := x.reports + (if Counts(s, c, index, success, addr) then {index} else {}),
                                  lastSeen := if Reporter(s, c, index, addr) then now else x.lastSeen)]
  {
    hide Finish;
    FinishAside(TouchSession(s, c, now), c);
    var x := s.sessions[c];
    assert s.sessions[c := x] == s.sessions && x.reports + {} == x.reports;
    if index in x.reports {
      assert x.reports + {index} == x.reports;
    }
  }

  /** A first direct success calls off the fallback; nothing else a report does touches one of another cookie. */
  lemma ReportCallsOff(s: State, c: Cookie, index: Index, success: bool, addr: Address, now: real, d: Cookie)
    requires c in s.relays ==> c !in s.fallbacks
    ensures d in RecordReport(s, c, index, success, addr, now).fallbacks
            <==> d in s.fallbacks && !(d == c && Counts(s, c, index, success, addr) && index !in s.sessions[c].reports)
  {
    hide Finish;
    FinishAside(TouchSession(s, c, now), c);
  }
}
