/**
 * What ends in the NAT negotiation, and when: sweeps, idle timers, expired sessions, draining and the
 * loss of the socket; and the INIT that only keeps an open relay going.
 */
module NatNegEnds {
  import opened Wrappers
  import opened Bytes
  import opened TokenBuckets
  import opened NatNeg
  import opened NatNegInvariant
  import opened NatNegSafety
  import opened NatNegTraffic
  import opened NatNegAnswers

  /** A closed relay takes along its timers and its bindings, and is counted. */
  ghost predicate Gone(s: State, t: State, gone: set<Cookie>) {
    && (forall c :: c in t.relays <==> c in s.relays && c !in gone)
    && (forall c :: c in t.relays ==> t.relays[c] == s.relays[c])
    && (forall a :: a in t.byAddress <==> a in s.byAddress && !(s.byAddress[a].cookie in gone && s.byAddress[a].cookie in s.relays))
    && (forall a :: a in t.byAddress ==> t.byAddress[a] == s.byAddress[a])
    && t.closed == s.closed + |s.relays| - |t.relays|
    && t.sessions == s.sessions && t.activated == s.activated
  }

  lemma FinishMeans(s: State, cookies: set<Cookie>)
    ensures Gone(s, Finish(s, cookies), cookies)
    ensures forall c :: c in Finish(s, cookies).expirations <==> c in s.expirations && !(c in cookies && c in s.relays)
    ensures forall c :: c in Finish(s, cookies).fallbacks <==> c in s.fallbacks && !(c in cookies && c in s.relays)
  {
    SubmapGap(s.relays, cookies * s.relays.Keys);
  }

  /**
   * A datagram sweeps at most once a second: it closes the relays idle for the session time, and the next
   * sweep is due a second later; before that it closes none.
   */
  lemma SweepMeans(cfg: Config, s: State, now: real)
    ensures var t, idle := ExpireRelays(cfg, s, now, false),
                           set c | c in s.relays && cfg.sessionSeconds <= now - s.relays[c].lastSeen;
            && (now < s.nextRelayExpiry ==> t == s)
            && (s.nextRelayExpiry <= now ==> Gone(s, t, idle) && t.nextRelayExpiry == now + 1.0)
  {
    hide Finish;
    FinishMeans(s, IdleRelays(cfg, s, now));
    assert IdleRelays(cfg, s, now) == set c | c in s.relays && cfg.sessionSeconds <= now - s.relays[c].lastSeen;
  }

  /** A relay's timer closes it exactly if it has been idle for the session time; else it waits for just that. */
  lemma IdleTimerMeans(cfg: Config, s: State, c: Cookie, now: real)
    requires c in s.relays && c in s.expirations && s.expirations[c] <= now
    ensures var t := Step(cfg, s, now, IdleDue(c)).0;
            if cfg.sessionSeconds <= now - s.relays[c].lastSeen then Gone(s, t, {c})
            else t == s.(expirations := s.expirations[c := s.relays[c].lastSeen + cfg.sessionSeconds])
  {
    hide Finish;
    FinishMeans(s, {c});
  }

  /** The session sweep forgets exactly the sessions not heard of within their time to live. */
  lemma SessionSweepMeans(cfg: Config, s: State, now: real)
    ensures var t := Step(cfg, s, now, SweepSessions).0;
            && (forall c :: c in t.sessions <==> c in s.sessions && now - s.sessions[c].lastSeen <= cfg.sessionTtl)
            && (forall c :: c in t.sessions ==> t.sessions[c] == s.sessions[c])
            && t == s.(sessions := t.sessions)
  {
  }

  /** Draining leaves open relays alone: it is noted first, and then every pending fallback is called off. */
  lemma DrainMeans(cfg: Config, s: State, now: real)
    ensures Step(cfg, s, now, RequestDrain) == (s.(draining := true), [])
    ensures var t := Step(cfg, s, now, BeginDrain).0;
            t == s.(fallbacks := t.fallbacks) && forall c :: c !in t.fallbacks
  {
  }

  /** Closing all relays leaves none, bound or timed, and every session; losing the socket leaves no timer either. */
  lemma ClosingMeans(cfg: Config, s: State, now: real)
    requires Inv(cfg, s, now)
    ensures var t := Step(cfg, s, now, CloseRelays).0;
            t.relays == map[] && t.byAddress == map[] && t.sessions == s.sessions && t.closed == s.closed + |s.relays|
            && t.connected == s.connected
    ensures var t := Step(cfg, s, now, ConnectionLost).0;
            && t.relays == map[] && t.byAddress == map[] && t.sessions == s.sessions && t.closed == s.closed + |s.relays|
            && t.fallbacks == map[] && t.expirations == map[] && !t.connected
  {
    hide Inv, Finish;
    AllBound(cfg, s, now);
    FinishMeans(s, s.relays.Keys);
    FinishMeans(s.(fallbacks := map[]), s.relays.Keys);
    FinishConnected(s, s.relays.Keys);
  }

  lemma FinishConnected(s: State, cookies: set<Cookie>)
    ensures Finish(s, cookies).connected == s.connected
  {
  }

  lemma AllBound(cfg: Config, s: State, now: real)
    requires Inv(cfg, s, now)
    ensures forall a :: a in s.byAddress ==> s.byAddress[a].cookie in s.relays
  {
    hide SessionsSound, TimersSound, CountsSound;
  }

  /** For an open relay an INIT is answered only to the endpoint whose index it gives, and keeps the relay going. */
  lemma RelayInitMeans(cfg: Config, s: State, data: seq<u8>, addr: Address, now: real)
    requires 21 <= |data| && data[13] <= 1 && CookieOf(data) in s.relays
    ensures var c := CookieOf(data);
            var (t, sent) := HandleInit(cfg, s, data, addr, now);
            if s.relays[c].endpoints[data[13]].address == addr then
              && t == s.(relays := s.relays[c := s.relays[c].(lastSeen := now)])
              && |sent| == 1 && sent[0].to == addr && Echoes(sent[0].data, data, 1)
            else t == s && sent == []
  {
    hide CookieOf, WithType, Bounded;
    WithTypeEchoes(data, 1);
    EchoSize(data, 1);
    OneIsAnswered(data, Send(WithType(data, 1), addr));
  }

  /** An INIT too short, or with an index that is neither peer's, changes nothing and is not answered. */
  lemma BadInitMeans(cfg: Config, s: State, data: seq<u8>, addr: Address, now: real)
    requires 12 <= |data| && (|data| < 21 || 1 < data[13])
    ensures HandleInit(cfg, s, data, addr, now) == (s, [])
  {
  }
}
