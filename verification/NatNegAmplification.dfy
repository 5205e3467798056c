/**
 * The NatNeg socket never amplifies: over every run it sends at most three bytes for each byte
 * that admission let in.  A relay's two pings are sent by a timer, long after the datagrams that
 * caused them; they are paid in advance by what the session's first INIT left unspent.
 */
module NatNegAmplification {
  import opened Wrappers
  import opened Collections
  import opened Bytes
  import opened NatNeg
  import opened NatNegInvariant

  const PINGS: nat := 40

  ghost function Unpaired(sessions: map<Cookie, Session>): set<Cookie> {
    set c | c in sessions && sessions[c].pairedAt.None?
  }

  /** The activations still to be paid for: one a session not yet paired, one a pending fallback. */
  ghost function Owing(s: State): nat {
    |Unpaired(s.sessions)| + |s.fallbacks|
  }

  function Paid(e: Event): nat {
    match e
    case Datagram(data, _, true) => |data|
    case _ => 0
  }

  ghost function Received(run: seq<Moment>): nat {
    if run == [] then 0 else Received(run[..|run| - 1]) + Paid(run[|run| - 1].event)
  }

  ghost function Sent(cfg: Config, run: seq<Moment>): nat {
    if run == [] then 0 else Sent(cfg, run[..|run| - 1]) + Total(LastSent(cfg, run))
  }

  // ------------------------------------------------------------------ sizes

  lemma PacketSizes(version: u8, cookie: Cookie, remote: Address)
    ensures |ConnectPacket(version, cookie, remote)| == 20 && |RelayPing(version, cookie)| == 20
  {
  }

  lemma TotalOne(a: Send)
    ensures Total([a]) == |a.data|
  {
  }

  lemma TotalTwo(a: Send, b: Send)
    ensures Total([a, b]) == |a.data| + |b.data|
  {
    assert [a, b][1..] == [b];
    TotalOne(b);
  }

  lemma TotalThree(a: Send, b: Send, c: Send)
    ensures Total([a, b, c]) == |a.data| + |b.data| + |c.data|
  {
    assert [a, b, c][1..] == [b, c];
    TotalTwo(b, c);
  }

  lemma BoundedTotal(request: seq<u8>, responses: seq<Send>)
    ensures Total(Bounded(request, responses)) <= 3 * |request|
  {
  }

  /** The check before activation cannot fail: 21 + 20 + 20 bytes fit three times 21. */
  lemma PingsAlwaysPaidFor(session: Session, cookie: Cookie)
    requires Paired(session)
    ensures PingsPaidFor(session, cookie)
  {
    forall i: Index | i in session.peers
      ensures |ConnectPacket(session.peers[i].version, cookie, session.peers[1 - i].address)| == 20
              && |RelayPing(session.peers[i].version, cookie)| == 20
    {
      PacketSizes(session.peers[i].version, cookie, session.peers[1 - i].address);
    }
  }

  /** Nor is the answer to a pairing INIT ever suppressed. */
  lemma PairingNeverSuppressed(session: Session, data: seq<u8>, addr: Address)
    requires MIN_INIT_BYTES <= |data| && Paired(session)
    ensures var all := [Send(WithType(data, INIT_ACK), addr)] + Introductions(session, CookieOf(data));
            Bounded(data, all) == all && Total(all) == |data| + 40
  {
    var (one, two) := (session.peers[session.opener], session.peers[1 - session.opener]);
    PacketSizes(one.version, CookieOf(data), two.address);
    PacketSizes(two.version, CookieOf(data), one.address);
    var intro := Introductions(session, CookieOf(data));
    assert [Send(WithType(data, INIT_ACK), addr)] + intro == [Send(WithType(data, INIT_ACK), addr), intro[0], intro[1]];
    TotalThree(Send(WithType(data, INIT_ACK), addr), intro[0], intro[1]);
  }

  // ------------------------------------------------------------- what is owed

  lemma OwingShrinks(s: State, t: State)
    requires Unpaired(t.sessions) <= Unpaired(s.sessions) && t.fallbacks.Keys <= s.fallbacks.Keys
    ensures Owing(t) <= Owing(s)
  {
    SubsetSize(Unpaired(t.sessions), Unpaired(s.sessions));
    SubmapSize(t.fallbacks, s.fallbacks);
  }

  lemma TouchOwes(s: State, c: Cookie, now: real)
    ensures Unpaired(TouchSession(s, c, now).sessions) == Unpaired(s.sessions)
    ensures TouchSession(s, c, now).fallbacks == s.fallbacks
  {
  }

  lemma FinishOwes(s: State, cookies: set<Cookie>)
    ensures Finish(s, cookies).sessions == s.sessions
    ensures Finish(s, cookies).fallbacks.Keys <= s.fallbacks.Keys
  {
  }

  lemma ExpireRelaysOwes(cfg: Config, s: State, now: real, force: bool)
    ensures ExpireRelays(cfg, s, now, force).sessions == s.sessions
    ensures ExpireRelays(cfg, s, now, force).fallbacks.Keys <= s.fallbacks.Keys
  {
  }

  lemma ForwardPays(cfg: Config, s: State, data: seq<u8>, addr: Address, now: real)
    ensures var (t, sends) := Forward(cfg, s, data, addr, now);
            Owing(t) <= Owing(s) && Total(sends) <= |data|
  {
    var (t, sends) := Forward(cfg, s, data, addr, now);
    if addr in s.byAddress {
      var cookie := s.byAddress[addr].cookie;
      if cookie in s.relays {
        var s0 := SetRelay(s, cookie, s.relays[cookie].(lastSeen := now));
        TouchOwes(s0, cookie, now);
        assert t.sessions == TouchSession(s0, cookie, now).sessions;
      }
    }
    OwingShrinks(s, t);
    if sends != [] {
      TotalOne(sends[0]);
    }
  }

  /** What one claim can add to the debt: one for a new session, and only then. */
  lemma ClaimOwes(cfg: Config, s: State, cookie: Cookie, index: Index, addr: Address, version: u8, now: real)
    ensures var claim := ClaimPeer(cfg, s, cookie, index, addr, version, now);
            && (!claim.ok ==> Owing(claim.state) <= Owing(s))
            && (claim.ok ==>
                  && cookie in claim.state.sessions
                  && claim.state.fallbacks == s.fallbacks
                  && Owing(claim.state) <= Owing(s) + 1
                  && (Paired(claim.state.sessions[cookie]) ==> Owing(claim.state) <= Owing(s)))
  {
    hide ExpireSessions, ClaimPeer, Owing, Paired;
    ExpiryOwes(cfg, s, now);
    ClaimShape(cfg, s, cookie, index, addr, version, now);
    var t := ExpireSessions(cfg, s, now);
    var claim := ClaimPeer(cfg, s, cookie, index, addr, version, now);
    if claim.ok {
      SetSessionOwes(t, cookie, claim.state.sessions[cookie]);
    }
  }

  lemma ExpiryOwes(cfg: Config, s: State, now: real)
    ensures Owing(ExpireSessions(cfg, s, now)) <= Owing(s) && ExpireSessions(cfg, s, now).fallbacks == s.fallbacks
  {
    OwingShrinks(s, ExpireSessions(cfg, s, now));
  }

  lemma SetSessionOwes(s: State, cookie: Cookie, x: Session)
    requires cookie in s.sessions ==> x.pairedAt == s.sessions[cookie].pairedAt
    ensures var t := SetSession(s, cookie, x);
            Owing(t) <= Owing(s) + if cookie in s.sessions then 0 else 1
  {
    var before := Unpaired(s.sessions);
    var unpaired := Unpaired(SetSession(s, cookie, x).sessions);
    if cookie !in s.sessions && x.pairedAt.None? {
      assert unpaired == before + {cookie};
    } else {
      assert unpaired == before;
    }
  }

  lemma WelcomePays(cfg: Config, s: State, data: seq<u8>, addr: Address, now: real)
    requires MIN_INIT_BYTES <= |data| && CookieOf(data) in s.sessions
    ensures var (t, sends) := Welcome(cfg, s, data, addr, now);
            && Owing(t) <= Owing(s)
            && Total(sends) <= 3 * |data|
            && (!Paired(s.sessions[CookieOf(data)]) ==> Total(sends) <= |data|)
  {
    hide Bounded, Introductions, Owing, WithType, CookieOf, Paired;
    var cookie := CookieOf(data);
    var x := s.sessions[cookie];
    var ack := Send(WithType(data, INIT_ACK), addr);
    AckTotal(data, addr);
    BoundedTotal(data, [ack]);
    if Paired(x) {
      BoundedTotal(data, [ack] + Introductions(x, cookie));
      var s1 := SetSession(s, cookie, x.(pairedAt := Some(now)));
      if x.pairedAt.None? {
        PairingOwes(cfg, s, cookie, now);
      }
    }
  }

  lemma AckTotal(data: seq<u8>, addr: Address)
    requires 12 <= |data|
    ensures var ack := [Send(WithType(data, INIT_ACK), addr)];
            Total(ack) == |data| && Total(Bounded(data, ack)) <= |data|
  {
    TotalOne(Send(WithType(data, INIT_ACK), addr));
  }

  /** Noting the pairing takes over the debt that the timer it arms will owe. */
  lemma PairingOwes(cfg: Config, s: State, cookie: Cookie, now: real)
    requires cookie in s.sessions && s.sessions[cookie].pairedAt.None?
    ensures var s1 := SetSession(s, cookie, s.sessions[cookie].(pairedAt := Some(now)));
            Owing(s1) <= Owing(s) && Owing(ScheduleFallback(cfg, s1, cookie, now)) <= Owing(s)
  {
    var s1 := SetSession(s, cookie, s.sessions[cookie].(pairedAt := Some(now)));
    assert Unpaired(s1.sessions) == Unpaired(s.sessions) - {cookie};
    assert cookie in Unpaired(s.sessions);
    UpdateSize(s.fallbacks, cookie, now + cfg.fallbackSeconds);
  }

  lemma HandleInitPays(cfg: Config, s: State, data: seq<u8>, addr: Address, now: real)
    requires 12 <= |data|
    ensures var (t, sends) := HandleInit(cfg, s, data, addr, now);
            PINGS * Owing(t) + Total(sends) <= PINGS * Owing(s) + 3 * |data|
  {
    if MIN_INIT_BYTES <= |data| && data[13] <= 1 {
      hide ClaimPeer, Welcome, Bounded, Paired;
      var cookie := CookieOf(data);
      var index: Index := data[13];
      if cookie in s.relays {
        BoundedTotal(data, [Send(WithType(data, INIT_ACK), addr)]);
        OwingShrinks(s, HandleInit(cfg, s, data, addr, now).0);
      } else {
        ClaimOwes(cfg, s, cookie, index, addr, data[6], now);
        var claim := ClaimPeer(cfg, s, cookie, index, addr, data[6], now);
        if claim.ok {
          WelcomePays(cfg, claim.state, data, addr, now);
        }
      }
    }
  }

  lemma RecordReportOwes(s: State, cookie: Cookie, index: Index, success: bool, addr: Address, now: real)
    ensures Owing(RecordReport(s, cookie, index, success, addr, now)) <= Owing(s)
  {
    var t := RecordReport(s, cookie, index, success, addr, now);
    TouchOwes(s, cookie, now);
    FinishOwes(TouchSession(s, cookie, now), {cookie});
    hide Finish;
    assert Unpaired(t.sessions) == Unpaired(s.sessions);
    OwingShrinks(s, t);
  }

  lemma HandleReportPays(s: State, data: seq<u8>, addr: Address, now: real)
    requires 12 <= |data|
    ensures var (t, sends) := HandleReport(s, data, addr, now);
            Owing(t) <= Owing(s) && Total(sends) <= 3 * |data|
  {
    hide RecordReport, Bounded, Owing;
    if 23 <= |data| && data[13] <= 1 && data[14] <= 1 {
      BoundedTotal(data, [Send(WithType(data, REPORT_ACK), addr)]);
      RecordReportOwes(s, CookieOf(data), data[13], data[14] == 1, addr, now);
    }
  }

  lemma NegotiationPays(cfg: Config, s: State, data: seq<u8>, addr: Address, now: real)
    ensures var (t, sends) := HandleNegotiation(cfg, s, data, addr, now);
            PINGS * Owing(t) + Total(sends) <= PINGS * Owing(s) + 3 * |data|
  {
    hide HandleInit, HandleReport, Bounded, AddressReply, PreinitReply, WithType, Owing, CookieOf;
    var (t, sends) := HandleNegotiation(cfg, s, data, addr, now);
    if |data| > cfg.packetBytes || |data| < 12 || (s.draining && data[7] == INIT && CookieOf(data) !in s.sessions) {
      assert t == s && sends == [];
    } else if data[7] == INIT {
      HandleInitPays(cfg, s, data, addr, now);
    } else if data[7] == REPORT {
      HandleReportPays(s, data, addr, now);
    } else {
      EchoPays(data, addr);
      assert t == s;
      hide Total;
    }
  }

  lemma EchoPays(data: seq<u8>, addr: Address)
    requires 12 <= |data|
    ensures Total(Bounded(data, [Send(AddressReply(data, addr), addr)])) <= 3 * |data|
    ensures Total(Bounded(data, [Send(WithType(data, ERT_TEST), addr)])) <= 3 * |data|
    ensures Total(Bounded(data, [Send(PreinitReply(data), addr)])) <= 3 * |data|
    ensures Total([]) == 0
  {
    BoundedTotal(data, [Send(AddressReply(data, addr), addr)]);
    BoundedTotal(data, [Send(WithType(data, ERT_TEST), addr)]);
    BoundedTotal(data, [Send(PreinitReply(data), addr)]);
  }

  lemma ReceivePays(cfg: Config, s: State, data: seq<u8>, addr: Address, now: real)
    ensures var (t, sends) := Receive(cfg, s, data, addr, now);
            PINGS * Owing(t) + Total(sends) <= PINGS * Owing(s) + 3 * |data|
  {
    var s0 := ExpireRelays(cfg, s, now, false);
    ExpireRelaysOwes(cfg, s, now, false);
    OwingShrinks(s, s0);
    if TakesPing(s0, data, addr) {
      var cookie := s0.byAddress[addr].cookie;
      var seen := s0.relays[cookie].(ready := s0.relays[cookie].ready + {s0.byAddress[addr].index}, lastSeen := now);
      TouchOwes(SetRelay(s0, cookie, seen), cookie, now);
      OwingShrinks(s0, HandlePing(s0, addr, now));
    } else {
      hide Forward, HandleNegotiation, Owing, ExpireRelays;
      ForwardPays(cfg, s0, data, addr, now);
      NegotiationPays(cfg, s0, data, addr, now);
    }
  }

  lemma ActivatePays(cfg: Config, s: State, cookie: Cookie, now: real)
    requires cookie in s.fallbacks
    ensures var (t, sends) := Activate(cfg, s, cookie, now);
            PINGS * Owing(t) + Total(sends) <= PINGS * Owing(s)
  {
    var s0 := s.(fallbacks := s.fallbacks - {cookie});
    SubmapGap(s.fallbacks, {cookie});
    assert Owing(s0) == Owing(s) - 1;
    if MayActivate(cfg, s0, cookie) {
      hide PingsPaidFor;
      var x := s0.sessions[cookie];
      ExpireRelaysOwes(cfg, s0, now, true);
      var s1 := ExpireRelays(cfg, s0, now, true);
      hide ExpireRelays;
      OwingShrinks(s0, s1);
      FinishOwes(s1, HoldersOf(s1, x));
      var s2 := Finish(s1, HoldersOf(s1, x));
      OwingShrinks(s1, s2);
      hide Finish;
      OpenRelayPays(cfg, s2, cookie, now);
    }
  }

  lemma OpenRelayPays(cfg: Config, s: State, cookie: Cookie, now: real)
    requires cookie in s.sessions && Paired(s.sessions[cookie])
    ensures var (t, sends) := OpenRelay(cfg, s, cookie, now);
            Owing(t) <= Owing(s) && Total(sends) == PINGS
  {
    var (t, sends) := OpenRelay(cfg, s, cookie, now);
    assert Unpaired(t.sessions) == Unpaired(s.sessions);
    OwingShrinks(s, t);
    TotalTwo(sends[0], sends[1]);
    var x := s.sessions[cookie];
    PacketSizes(x.peers[0].version, cookie, x.peers[0].address);
    PacketSizes(x.peers[1].version, cookie, x.peers[1].address);
  }

  /** The steps that send nothing take on no debt. */
  lemma QuietStep(cfg: Config, s: State, now: real, e: Event)
    requires !e.Datagram? && !e.FallbackDue?
    ensures var (t, sends) := Step(cfg, s, now, e);
            sends == [] && Owing(t) <= Owing(s)
  {
    hide Owing, Unpaired, Finish, ExpireSessions, IdleTimer;
    var t := Step(cfg, s, now, e).0;
    match e
    case ConnectionLost =>
      FinishOwes(s.(fallbacks := map[]), s.relays.Keys);
      OwingShrinks(s, t);
    case CloseRelays =>
      FinishOwes(s, s.relays.Keys);
      OwingShrinks(s, t);
    case IdleDue(cookie) =>
      IdleTimerOwes(cfg, s, cookie, now);
      OwingShrinks(s, t);
    case SweepSessions =>
      ExpireSessionsOwes(cfg, s, now);
      OwingShrinks(s, t);
    case _ =>
      OwingShrinks(s, t);
  }

  lemma IdleTimerOwes(cfg: Config, s: State, cookie: Cookie, now: real)
    ensures IdleTimer(cfg, s, cookie, now).sessions == s.sessions
    ensures IdleTimer(cfg, s, cookie, now).fallbacks.Keys <= s.fallbacks.Keys
  {
    FinishOwes(s, {cookie});
    hide Finish;
  }

  lemma ExpireSessionsOwes(cfg: Config, s: State, now: real)
    ensures Unpaired(ExpireSessions(cfg, s, now).sessions) <= Unpaired(s.sessions)
    ensures ExpireSessions(cfg, s, now).fallbacks == s.fallbacks
  {
  }

  /** Amortised cost: what a step sends is covered by what it received and by debt it settles. */
  lemma StepPays(cfg: Config, s: State, now: real, e: Event)
    ensures var (t, sends) := Step(cfg, s, now, e);
            PINGS * Owing(t) + Total(sends) <= PINGS * Owing(s) + 3 * Paid(e)
  {
    hide Receive, Activate, Owing;
    match e
    case Datagram(data, from, admitted) =>
      ReceivePays(cfg, s, data, from, now);
    case FallbackDue(cookie) =>
      if cookie in s.fallbacks {
        ActivatePays(cfg, s, cookie, now);
      }
    case _ =>
      hide Step;
      QuietStep(cfg, s, now, e);
  }

  lemma {:induction false} RunPays(cfg: Config, run: seq<Moment>)
    ensures Sent(cfg, run) + PINGS * Owing(Reach(cfg, run)) <= 3 * Received(run)
    decreases |run|
  {
    hide Step, Owing, Paid;
    if run == [] {
      StartOwes();
    } else {
      var (init, m) := (run[..|run| - 1], run[|run| - 1]);
      RunPays(cfg, init);
      StepPays(cfg, Reach(cfg, init), m.time, m.event);
    }
  }

  lemma StartOwes()
    ensures Owing(START) == 0
  {
    assert Unpaired(START.sessions) == {};
  }

  /** Over every run, at every moment: sent bytes are at most three times the admitted bytes. */
  lemma NeverAmplifies(cfg: Config, run: seq<Moment>)
    ensures Sent(cfg, run) <= 3 * Received(run)
  {
    RunPays(cfg, run);
  }
}
