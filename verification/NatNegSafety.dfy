/** Whole-run safety of NAT negotiation: outcomes, forwarding, draining and idle deadlines. */
module NatNegSafety {
  import opened Wrappers
  import opened Bytes
  import opened TokenBuckets
  import opened NatNeg
  import opened NatNegInvariant
  import NatNegAmplification

  // ------------------------------------------------------- reachable states

  /** No reachable state has both a live relay and a direct success for one cookie. */
  lemma RelayOrDirect(cfg: Config, run: seq<Moment>, c: Cookie)
    requires cfg.Valid() && NatNegInvariant.Ordered(run)
    ensures var s := Reach(cfg, run);
            c in s.relays && c in s.sessions ==> s.sessions[c].reports == {}
  {
    RunKeeps(cfg, run);
    if c in Reach(cfg, run).sessions {
      SessionFacts(cfg, Reach(cfg, run), c, Clock(run));
    }
  }

  /** A session object activates at most one relay, and every relay opened is live or was closed once. */
  lemma ActivationsAccounted(cfg: Config, run: seq<Moment>)
    requires cfg.Valid() && NatNegInvariant.Ordered(run)
    ensures var s := Reach(cfg, run);
            && (forall c :: c in s.sessions ==> s.sessions[c].activations <= 1)
            && s.activated == s.closed + |s.relays|
            && |s.relays| <= cfg.maxRelays && |s.sessions| <= cfg.maxSessions
  {
    RunKeeps(cfg, run);
  }

  /** The bindings are exactly the inverse of the relays' endpoints, whose addresses never collide. */
  lemma BindingsAreInverse(cfg: Config, run: seq<Moment>, a: Address, c: Cookie, i: Index)
    requires cfg.Valid() && NatNegInvariant.Ordered(run)
    ensures var s := Reach(cfg, run);
            a in s.byAddress && s.byAddress[a] == Binding(c, i)
            <==> c in s.relays && s.relays[c].endpoints[i].address == a
  {
    RunKeeps(cfg, run);
    var s := Reach(cfg, run);
    if c in s.relays {
      assert BoundTo(s, c, i);
    }
  }

  lemma EndpointsDistinct(cfg: Config, run: seq<Moment>, c: Cookie, i: Index, d: Cookie, j: Index)
    requires cfg.Valid() && NatNegInvariant.Ordered(run)
    requires c in Reach(cfg, run).relays && d in Reach(cfg, run).relays && (c, i) != (d, j)
    ensures Reach(cfg, run).relays[c].endpoints[i].address != Reach(cfg, run).relays[d].endpoints[j].address
  {
    BindingsAreInverse(cfg, run, Reach(cfg, run).relays[c].endpoints[i].address, c, i);
    BindingsAreInverse(cfg, run, Reach(cfg, run).relays[c].endpoints[i].address, d, j);
  }

  // ------------------------------------------------------- what a relay keeps

  /** The same relay, perhaps seen later, charged or reported on. */
  ghost predicate Kin(q: Relay, r: Relay) {
    SameAddresses(q, r) && r.startedAt == q.startedAt && r.ready == q.ready
  }

  ghost predicate Descends(before: map<Cookie, Relay>, after: map<Cookie, Relay>) {
    forall c :: c in after ==> c in before && Kin(before[c], after[c])
  }

  lemma ExpireRelaysDescends(cfg: Config, s: State, now: real, force: bool)
    ensures Descends(s.relays, ExpireRelays(cfg, s, now, force).relays)
  {
    hide Finish, Kin;
    KinReflexive(s);
    FinishIsSubmap(s, IdleRelays(cfg, s, now));
  }

  /** All relay traffic does to the state: it marks the relay and the session seen, and may charge a bucket. */
  lemma ForwardFrame(cfg: Config, s: State, data: seq<u8>, addr: Address, now: real)
    ensures var t := Forward(cfg, s, data, addr, now).0;
            && t.sessions.Keys == s.sessions.Keys && t.draining == s.draining
            && if addr in s.byAddress && s.byAddress[addr].cookie in s.relays then
                 var (c, r) := (s.byAddress[addr].cookie, s.relays[s.byAddress[addr].cookie].(lastSeen := now));
                 || t.relays == s.relays[c := r]
                 || exists b :: t.relays == s.relays[c := WithBucket(r, s.byAddress[addr].index, b)]
               else t.relays == s.relays
  {
    hide Charge, WithBucket, RelayLimits, Forward;
    ForwardStays(cfg, s, data, addr, now);
    if addr in s.byAddress && s.byAddress[addr].cookie in s.relays {
      ForwardRelays(cfg, s, data, addr, now);
    }
  }

  lemma ForwardStays(cfg: Config, s: State, data: seq<u8>, addr: Address, now: real)
    ensures var t := Forward(cfg, s, data, addr, now).0;
            && t.sessions.Keys == s.sessions.Keys && t.draining == s.draining
            && (!(addr in s.byAddress && s.byAddress[addr].cookie in s.relays) ==> t.relays == s.relays)
  {
    hide Charge, Accepts, WithBucket, RelayLimits, TouchSession;
    if addr in s.byAddress && s.byAddress[addr].cookie in s.relays {
      var c := s.byAddress[addr].cookie;
      TouchFrame(SetRelay(s, c, s.relays[c].(lastSeen := now)), c, now);
    }
  }

  lemma ForwardRelays(cfg: Config, s: State, data: seq<u8>, addr: Address, now: real)
    requires addr in s.byAddress && s.byAddress[addr].cookie in s.relays
    ensures var c := s.byAddress[addr].cookie;
            var r := s.relays[c].(lastSeen := now);
            var index := s.byAddress[addr].index;
            var b := Charge(RelayLimits(cfg), r.endpoints[index].bucket, now, |data| as real);
            var t := Forward(cfg, s, data, addr, now).0;
            t.relays == s.relays[c := r] || t.relays == s.relays[c := WithBucket(r, index, b)]
  {
    hide Charge, Accepts, WithBucket, RelayLimits, TouchSession;
    var c, index := s.byAddress[addr].cookie, s.byAddress[addr].index;
    var r := s.relays[c].(lastSeen := now);
    TouchFrame(SetRelay(s, c, r), c, now);
    PutAgain(s.relays, c, r, WithBucket(r, index, Charge(RelayLimits(cfg), r.endpoints[index].bucket, now,
        |data| as real)));
  }

  lemma PutAgain(m: map<Cookie, Relay>, c: Cookie, a: Relay, b: Relay)
    ensures m[c := a][c := b] == m[c := b]
  {
  }

  lemma ForwardDescends(cfg: Config, s: State, data: seq<u8>, addr: Address, now: real)
    ensures Descends(s.relays, Forward(cfg, s, data, addr, now).0.relays)
  {
    ForwardFrame(cfg, s, data, addr, now);
    KinReflexive(s);
    var t := Forward(cfg, s, data, addr, now).0;
    hide Forward, WithBucket, Kin;
    if addr in s.byAddress && s.byAddress[addr].cookie in s.relays {
      var Binding(c, index) := s.byAddress[addr];
      var r := s.relays[c].(lastSeen := now);
      if t.relays == s.relays[c := r] {
        KinSeen(s.relays[c], now, index, s.relays[c].endpoints[0].bucket);
      } else {
        var b :| t.relays == s.relays[c := WithBucket(r, index, b)];
        KinSeen(s.relays[c], now, index, b);
      }
    }
  }

  lemma KinSeen(r: Relay, now: real, index: Index, bucket: Bucket)
    ensures Kin(r, r.(lastSeen := now)) && Kin(r, WithBucket(r.(lastSeen := now), index, bucket))
  {
  }

  lemma KinReflexive(s: State)
    ensures forall c :: c in s.relays ==> Kin(s.relays[c], s.relays[c])
  {
  }

  lemma TouchFrame(s: State, cookie: Cookie, now: real)
    ensures TouchSession(s, cookie, now).sessions.Keys == s.sessions.Keys
    ensures TouchSession(s, cookie, now).draining == s.draining
    ensures TouchSession(s, cookie, now).relays == s.relays
  {
  }

  lemma DirectFrame(s: State, cookie: Cookie, index: Index)
    requires cookie in s.sessions
    ensures DirectSuccess(s, cookie, index).sessions.Keys == s.sessions.Keys
    ensures DirectSuccess(s, cookie, index).draining == s.draining
    ensures DirectSuccess(s, cookie, index).relays == s.relays
  {
  }

  lemma MapMinus<K, V>(m: map<K, V>, k: K)
    ensures m - ({k} * m.Keys) == m - {k}
    ensures k !in m ==> m - {k} == m
  {
  }

  lemma FinishFrame(s: State, cookie: Cookie)
    ensures var t := Finish(s, {cookie});
            && t.relays == s.relays - {cookie}
            && t.sessions == s.sessions && t.draining == s.draining
            && (cookie !in s.relays ==> t.relays == s.relays)
  {
    MapMinus(s.relays, cookie);
  }

  /** The report comes from the session's own peer of that index. */
  ghost predicate Reporter(s: State, cookie: Cookie, index: Index, addr: Address) {
    cookie in s.sessions && index in s.sessions[cookie].peers && s.sessions[cookie].peers[index].address == addr
  }

  /** All a report does to the relays: it is noted on the one of its cookie, or closes it before it is ready. */
  lemma ReportFrame(s: State, cookie: Cookie, index: Index, success: bool, addr: Address, now: real)
    ensures var t := RecordReport(s, cookie, index, success, addr, now);
            && t.sessions.Keys == s.sessions.Keys && t.draining == s.draining
            && (t.relays == s.relays
                || (&& Reporter(s, cookie, index, addr) && cookie in s.relays
                    && var q := s.relays[cookie];
                       || t.relays == s.relays[cookie := q.(reports := q.reports + {index})]
                       || (q.ready == {} && t.relays == s.relays - {cookie})))
  {
    var s1 := TouchSession(s, cookie, now);
    TouchFrame(s, cookie, now);
    FinishFrame(s1, cookie);
    hide TouchSession, Finish, DirectSuccess;
    if Reporter(s, cookie, index, addr) && success {
      if !(cookie in s.relays && s.relays[cookie].ready != {}) {
        DirectFrame(Finish(s1, {cookie}), cookie, index);
        assert RecordReport(s, cookie, index, success, addr, now)
               == DirectSuccess(Finish(s1, {cookie}), cookie, index);
        hide RecordReport;
      }
    }
  }

  lemma RecordReportDescends(s: State, cookie: Cookie, index: Index, success: bool, addr: Address, now: real)
    ensures Descends(s.relays, RecordReport(s, cookie, index, success, addr, now).relays)
  {
    ReportFrame(s, cookie, index, success, addr, now);
    hide RecordReport;
  }

  /** Negotiation closes relays but opens none and readies none. */
  lemma NegotiationDescends(cfg: Config, s: State, data: seq<u8>, addr: Address, now: real)
    ensures Descends(s.relays, HandleNegotiation(cfg, s, data, addr, now).0.relays)
  {
    if 12 <= |data| {
      hide RecordReport, Bounded, AddressReply, PreinitReply;
      if data[7] == REPORT {
        if 23 <= |data| && data[13] <= 1 && data[14] <= 1 {
          RecordReportDescends(s, CookieOf(data), data[13], data[14] == 1, addr, now);
        }
      } else if data[7] == INIT {
        InitDescends(cfg, s, data, addr, now);
      }
    }
  }

  lemma ExpireSessionsFrame(cfg: Config, s: State, now: real)
    ensures var t := ExpireSessions(cfg, s, now);
            && t.relays == s.relays && t.draining == s.draining && t.byAddress == s.byAddress
            && t.sessions.Keys <= s.sessions.Keys
  {
  }

  lemma ClaimFrame(cfg: Config, s: State, cookie: Cookie, index: Index, addr: Address, version: u8, now: real)
    ensures var claim := ClaimPeer(cfg, s, cookie, index, addr, version, now);
            && claim.state.relays == s.relays && claim.state.draining == s.draining
            && claim.state.sessions.Keys <= s.sessions.Keys + {cookie}
            && (claim.ok ==> cookie in claim.state.sessions)
  {
    hide ExpireSessions, ClaimPeer;
    ExpireSessionsFrame(cfg, s, now);
    ClaimShape(cfg, s, cookie, index, addr, version, now);
  }

  lemma WelcomeFrame(cfg: Config, s: State, data: seq<u8>, addr: Address, now: real)
    requires 12 <= |data| && CookieOf(data) in s.sessions
    ensures var t := Welcome(cfg, s, data, addr, now).0;
            t.relays == s.relays && t.draining == s.draining && t.sessions.Keys == s.sessions.Keys
  {
    hide Bounded, Introductions, Paired;
  }

  /** All an INIT does to the relays: it marks the one of its cookie seen, if it comes from its endpoint. */
  lemma InitFrame(cfg: Config, s: State, data: seq<u8>, addr: Address, now: real)
    requires 12 <= |data|
    ensures var (t, cookie) := (HandleInit(cfg, s, data, addr, now).0, CookieOf(data));
            && (t.relays == s.relays
                || (&& cookie in s.relays
                    && (exists i: Index :: s.relays[cookie].endpoints[i].address == addr)
                    && t.relays == s.relays[cookie := s.relays[cookie].(lastSeen := now)]))
            && t.draining == s.draining
            && t.sessions.Keys <= s.sessions.Keys + {cookie}
  {
    hide Bounded, ClaimPeer, Welcome;
    if MIN_INIT_BYTES <= |data| && data[13] <= 1 {
      var cookie := CookieOf(data);
      var index: Index := data[13];
      if cookie !in s.relays {
        ClaimFrame(cfg, s, cookie, index, addr, data[6], now);
        var claim := ClaimPeer(cfg, s, cookie, index, addr, data[6], now);
        if claim.ok {
          WelcomeFrame(cfg, claim.state, data, addr, now);
        }
      } else if s.relays[cookie].endpoints[index].address == addr {
        assert HandleInit(cfg, s, data, addr, now).0.relays == s.relays[cookie := s.relays[cookie].(lastSeen := now)];
      }
    }
  }

  lemma InitDescends(cfg: Config, s: State, data: seq<u8>, addr: Address, now: real)
    requires 12 <= |data|
    ensures Descends(s.relays, HandleInit(cfg, s, data, addr, now).0.relays)
  {
    InitFrame(cfg, s, data, addr, now);
    hide HandleInit;
  }

  lemma ActivateDescends(cfg: Config, s: State, cookie: Cookie, now: real)
    ensures var t := Activate(cfg, s, cookie, now).0;
            forall c :: c in t.relays ==>
              if c in s.relays then Kin(s.relays[c], t.relays[c])
              else c == cookie && t.relays[c].ready == {} && !s.draining
  {
    hide PingsPaidFor, ExpireRelays, Finish, HoldersOf, Kin;
    var s0 := s.(fallbacks := s.fallbacks - {cookie});
    var s1 := ExpireRelays(cfg, s0, now, true);
    ExpireRelaysDescends(cfg, s0, now, true);
    KinReflexive(s);
    if MayActivate(cfg, s0, cookie) {
      SweptSessions(cfg, s0, now);
      FinishIsSubmap(s1, HoldersOf(s1, s0.sessions[cookie]));
    }
  }

  lemma SweptSessions(cfg: Config, s: State, now: real)
    ensures ExpireRelays(cfg, s, now, true).sessions == s.sessions
  {
  }

  lemma FinishIsSubmap(s: State, cookies: set<Cookie>)
    ensures forall c :: c in Finish(s, cookies).relays ==> c in s.relays && Finish(s, cookies).relays[c] == s.relays[c]
    ensures Finish(s, cookies).sessions == s.sessions
  {
  }

  lemma FinishDescends(s: State, cookies: set<Cookie>)
    ensures Descends(s.relays, Finish(s, cookies).relays)
  {
  }

  lemma IdleTimerDescends(cfg: Config, s: State, cookie: Cookie, now: real)
    ensures Descends(s.relays, IdleTimer(cfg, s, cookie, now).relays)
  {
    KinReflexive(s);
    FinishDescends(s, {cookie});
    hide Finish, Kin;
  }

  lemma QuietDescends(cfg: Config, s: State, now: real, e: Event)
    requires !e.Datagram? && !e.FallbackDue?
    ensures Descends(s.relays, Step(cfg, s, now, e).0.relays)
  {
    hide Descends, Finish, ExpireSessions, IdleTimer;
    DescendsReflexive(s);
    match e
    case ConnectionLost =>
      FinishDescends(s.(fallbacks := map[]), s.relays.Keys);
    case CloseRelays =>
      FinishDescends(s, s.relays.Keys);
    case SweepSessions =>
      ExpireSessionsFrame(cfg, s, now);
    case IdleDue(cookie) =>
      IdleTimerDescends(cfg, s, cookie, now);
    case _ =>
  }

  lemma DescendsReflexive(s: State)
    ensures Descends(s.relays, s.relays)
  {
  }

  /** How a relay may come out of a step that found it live. */
  ghost predicate Progress(q: Relay, r: Relay, e: Event, c: Cookie) {
    && SameAddresses(q, r) && r.startedAt == q.startedAt
    && (r.ready == q.ready
        || exists i: Index :: r.ready == q.ready + {i} && PingsFrom(e, c, q.endpoints[i].address))
  }

  /** A relay after a step: opened by its own fallback, kept, or made ready by its endpoint's ping. */
  lemma RelayStep(cfg: Config, s: State, now: real, e: Event, c: Cookie)
    requires c in Step(cfg, s, now, e).0.relays
    ensures var t := Step(cfg, s, now, e).0;
            if c !in s.relays then e == FallbackDue(c) && t.relays[c].ready == {} && !s.draining
            else Progress(s.relays[c], t.relays[c], e, c)
  {
    hide Receive, Activate, Progress;
    match e
    case Datagram(data, from, admitted) =>
      if admitted {
        ReceiveRelayStep(cfg, s, data, from, now, c);
      } else {
        KinReflexive(s);
        KinProgress(s.relays[c], s.relays[c], e, c);
      }
    case FallbackDue(cookie) =>
      ActivateDescends(cfg, s, cookie, now);
      KinReflexive(s);
      if c in s.relays {
        KinProgress(s.relays[c], Step(cfg, s, now, e).0.relays[c], e, c);
      }
    case _ =>
      QuietDescends(cfg, s, now, e);
      DescendsProgress(s, Step(cfg, s, now, e).0, e);
  }

  lemma DescendsProgress(s: State, t: State, e: Event)
    requires Descends(s.relays, t.relays)
    ensures forall c :: c in t.relays ==> c in s.relays && Progress(s.relays[c], t.relays[c], e, c)
  {
  }

  lemma KinProgress(q: Relay, r: Relay, e: Event, c: Cookie)
    requires Kin(q, r)
    ensures Progress(q, r, e, c)
  {
  }

  /** An admitted ping of cookie `c` from address `a`. */
  ghost predicate PingsFrom(e: Event, c: Cookie, a: Address) {
    e.Datagram? && e.admitted && e.from == a && IsPing(e.data, c)
  }

  lemma ReceiveRelayStep(cfg: Config, s: State, data: seq<u8>, addr: Address, now: real, c: Cookie)
    requires c in Receive(cfg, s, data, addr, now).0.relays
    ensures c in s.relays
    ensures Progress(s.relays[c], Receive(cfg, s, data, addr, now).0.relays[c], Datagram(data, addr, true), c)
  {
    var s0 := ExpireRelays(cfg, s, now, false);
    ExpireRelaysDescends(cfg, s, now, false);
    hide ExpireRelays, Forward, HandleNegotiation;
    if TakesPing(s0, data, addr) {
      var Binding(cookie, index) := s0.byAddress[addr];
      if c == cookie {
        assert Kin(s.relays[c], s0.relays[c]);
        assert s0.relays[c].endpoints[index].address == addr;
        assert PingsFrom(Datagram(data, addr, true), c, s.relays[c].endpoints[index].address);
      }
    } else {
      ForwardDescends(cfg, s0, data, addr, now);
      NegotiationDescends(cfg, s0, data, addr, now);
      var t := Receive(cfg, s, data, addr, now).0;
      assert Descends(s0.relays, t.relays);
      assert Kin(s.relays[c], s0.relays[c]) && Kin(s0.relays[c], t.relays[c]);
    }
  }

  // ------------------------------------------------------------- forwarding

  /** The relay `c` of the run's end was live, with this endpoint `i`, from moment `k` on. */
  ghost predicate LiveSince(cfg: Config, run: seq<Moment>, c: Cookie, i: Index, k: nat)
    requires c in Reach(cfg, run).relays
  {
    var r := Reach(cfg, run).relays[c];
    forall m :: k <= m <= |run| ==>
      var s := Reach(cfg, run[..m]);
      c in s.relays && s.relays[c].startedAt == r.startedAt
      && s.relays[c].endpoints[i].address == r.endpoints[i].address
  }

  ghost predicate PingedSince(cfg: Config, run: seq<Moment>, c: Cookie, i: Index, k: nat)
    requires c in Reach(cfg, run).relays
  {
    && k < |run| && LiveSince(cfg, run, c, i, k)
    && PingsFrom(run[k].event, c, Reach(cfg, run).relays[c].endpoints[i].address)
  }

  /**
   * An endpoint is ready only because its own address returned the relay's ping at some moment
   * since this very relay was opened.
   */
  lemma {:induction false} ReadyMeansPinged(cfg: Config, run: seq<Moment>, c: Cookie, i: Index) returns (k: nat)
    requires c in Reach(cfg, run).relays && i in Reach(cfg, run).relays[c].ready
    ensures PingedSince(cfg, run, c, i, k)
    decreases |run|
  {
    hide Step;
    var n := |run| - 1;
    var (init, m) := (run[..n], run[n]);
    var s := Reach(cfg, init);
    RelayStep(cfg, s, m.time, m.event, c);
    var r := Reach(cfg, run).relays[c];
    assert run[..|run|] == run;
    if i in s.relays[c].ready {
      k := ReadyMeansPinged(cfg, init, c, i);
      assert init[k] == run[k];
      forall j | k <= j <= |run|
        ensures var u := Reach(cfg, run[..j]);
                c in u.relays && u.relays[c].startedAt == r.startedAt
                && u.relays[c].endpoints[i].address == r.endpoints[i].address
      {
        if j <= n {
          assert run[..j] == init[..j];
        }
      }
    } else {
      k := n;
      forall j | k <= j <= |run|
        ensures var u := Reach(cfg, run[..j]);
                c in u.relays && u.relays[c].startedAt == r.startedAt
                && u.relays[c].endpoints[i].address == r.endpoints[i].address
      {
      }
    }
  }

  /** What a relay forwards, seen from the state it leaves behind. */
  ghost predicate Forwards(s: State, data: seq<u8>, from: Address, sent: seq<Send>, c: Cookie, i: Index) {
    && c in s.relays && s.relays[c].ready == {0, 1}
    && s.relays[c].endpoints[i].address == from
    && sent == [Send(data, s.relays[c].endpoints[1 - i].address)]
  }

  lemma ForwardSends(cfg: Config, s: State, data: seq<u8>, from: Address, now: real)
    requires Inverse(s) && Forward(cfg, s, data, from, now).1 != []
    ensures from in s.byAddress
    ensures Forwards(Forward(cfg, s, data, from, now).0, data, from, Forward(cfg, s, data, from, now).1,
                     s.byAddress[from].cookie, s.byAddress[from].index)
  {
    var Binding(cookie, index) := s.byAddress[from];
    assert s.relays[cookie].endpoints[index].address == from;
    hide Charge, Accepts, Inverse, BoundTo;
  }

  /**
   * Anything sent in answer to a datagram without the NatNeg magic is that datagram, verbatim,
   * from endpoint i to endpoint 1 - i of one live relay, and both of the relay's addresses have
   * returned its ping since it was opened.
   */
  lemma ForwardingIsPaired(cfg: Config, run: seq<Moment>, time: real, data: seq<u8>, from: Address, admitted: bool)
    returns (c: Cookie, i: Index, k0: nat, k1: nat)
    requires cfg.Valid() && NatNegInvariant.Ordered(run + [Moment(time, Datagram(data, from, admitted))])
    requires !HasMagic(data)
    requires LastSent(cfg, run + [Moment(time, Datagram(data, from, admitted))]) != []
    ensures var all := run + [Moment(time, Datagram(data, from, admitted))];
            && Forwards(Reach(cfg, all), data, from, LastSent(cfg, all), c, i)
            && PingedSince(cfg, all, c, 0, k0) && PingedSince(cfg, all, c, 1, k1)
  {
    var all := run + [Moment(time, Datagram(data, from, admitted))];
    assert all[..|run|] == run;
    var s := Reach(cfg, run);
    assert Inv(cfg, s, time) by {
      assert forall j :: 0 <= j < |run| ==> all[j] == run[j];
      RunKeeps(cfg, run);
      if run != [] {
        assert all[|run| - 1].time <= all[|run|].time;
        InvLater(cfg, s, Clock(run), time);
      } else {
        StartIsSound(cfg, time);
      }
    }
    var s0 := ExpireRelays(cfg, s, time, false);
    ExpireRelaysKeeps(cfg, s, time, false);
    assert Inverse(s0);
    hide Inv, ExpireRelays, Forward, Inverse;
    assert LastSent(cfg, all) == Forward(cfg, s0, data, from, time).1;
    ForwardSends(cfg, s0, data, from, time);
    c, i := s0.byAddress[from].cookie, s0.byAddress[from].index;
    assert Reach(cfg, all) == Forward(cfg, s0, data, from, time).0;
    k0 := ReadyMeansPinged(cfg, all, c, 0);
    k1 := ReadyMeansPinged(cfg, all, c, 1);
  }

  // ---------------------------------------------------------------- draining

  lemma NegotiationSessions(cfg: Config, s: State, data: seq<u8>, addr: Address, now: real)
    requires s.draining
    ensures HandleNegotiation(cfg, s, data, addr, now).0.sessions.Keys <= s.sessions.Keys
    ensures HandleNegotiation(cfg, s, data, addr, now).0.draining
  {
    if 12 <= |data| {
      hide Bounded, AddressReply, PreinitReply, HandleInit, RecordReport, WithType;
      if data[7] == INIT {
        InitFrame(cfg, s, data, addr, now);
      } else if data[7] == REPORT && 23 <= |data| && data[13] <= 1 && data[14] <= 1 {
        ReportFrame(s, CookieOf(data), data[13], data[14] == 1, addr, now);
      }
    }
  }

  lemma ActivateSessions(cfg: Config, s: State, cookie: Cookie, now: real)
    ensures s.draining ==> Activate(cfg, s, cookie, now).0.sessions == s.sessions
    ensures s.draining ==> Activate(cfg, s, cookie, now).0.draining
  {
    hide ExpireRelays, OpenRelay, Finish, PingsPaidFor;
  }

  lemma ExpireRelaysFrame(cfg: Config, s: State, now: real, force: bool)
    ensures var t := ExpireRelays(cfg, s, now, force);
            t.sessions == s.sessions && t.draining == s.draining
  {
  }

  lemma PingSessions(s: State, addr: Address, now: real)
    requires addr in s.byAddress && s.byAddress[addr].cookie in s.relays
    ensures HandlePing(s, addr, now).sessions.Keys == s.sessions.Keys
    ensures HandlePing(s, addr, now).draining == s.draining
  {
  }

  lemma ReceiveSessions(cfg: Config, s: State, data: seq<u8>, addr: Address, now: real)
    requires s.draining
    ensures Receive(cfg, s, data, addr, now).0.sessions.Keys <= s.sessions.Keys
    ensures Receive(cfg, s, data, addr, now).0.draining
  {
    hide ExpireRelays, Forward, HandleNegotiation, HandlePing;
    var s0 := ExpireRelays(cfg, s, now, false);
    ExpireRelaysFrame(cfg, s, now, false);
    if TakesPing(s0, data, addr) {
      PingSessions(s0, addr, now);
    } else {
      ForwardFrame(cfg, s0, data, addr, now);
      NegotiationSessions(cfg, s0, data, addr, now);
    }
  }

  lemma SessionsUnderDrain(cfg: Config, s: State, now: real, e: Event)
    requires s.draining
    ensures Step(cfg, s, now, e).0.sessions.Keys <= s.sessions.Keys
    ensures Step(cfg, s, now, e).0.draining
  {
    hide Receive, Activate;
    match e
    case Datagram(data, from, admitted) =>
      ReceiveSessions(cfg, s, data, from, now);
    case FallbackDue(cookie) =>
      ActivateSessions(cfg, s, cookie, now);
    case _ =>
  }

  /** Once drain has been requested, no cookie ever joins the relays or the sessions. */
  lemma {:induction false} DrainOnlyShrinks(cfg: Config, run: seq<Moment>, k: nat)
    requires k <= |run| && Reach(cfg, run[..k]).draining
    ensures Reach(cfg, run).draining
    ensures Reach(cfg, run).relays.Keys <= Reach(cfg, run[..k]).relays.Keys
    ensures Reach(cfg, run).sessions.Keys <= Reach(cfg, run[..k]).sessions.Keys
    decreases |run|
  {
    hide Step;
    if k == |run| {
      assert run[..k] == run;
    } else {
      var n := |run| - 1;
      var (init, m) := (run[..n], run[n]);
      assert run[..k] == init[..k];
      DrainOnlyShrinks(cfg, init, k);
      SessionsUnderDrain(cfg, Reach(cfg, init), m.time, m.event);
      forall c | c in Reach(cfg, run).relays
        ensures c in Reach(cfg, init).relays
      {
        RelayStep(cfg, Reach(cfg, init), m.time, m.event, c);
      }
    }
  }

  // ---------------------------------------------------------- idle deadlines

  /** Once every timer that is due has run, no relay is past its idle deadline. */
  lemma NoRelayOutlivesDeadline(cfg: Config, run: seq<Moment>, now: real, c: Cookie)
    requires cfg.Valid() && NatNegInvariant.Ordered(run) && c in Reach(cfg, run).relays
    requires forall d :: d in Reach(cfg, run).expirations ==> now < Reach(cfg, run).expirations[d]
    ensures now < Reach(cfg, run).relays[c].lastSeen + cfg.sessionSeconds
  {
    RunKeeps(cfg, run);
  }

  /** Expiration timers exist for exactly the live relays. */
  lemma TimersForLiveRelays(cfg: Config, run: seq<Moment>)
    requires cfg.Valid() && NatNegInvariant.Ordered(run)
    ensures Reach(cfg, run).expirations.Keys == Reach(cfg, run).relays.Keys
  {
    RunKeeps(cfg, run);
  }

  lemma ExpireRelaysCloses(cfg: Config, s: State, now: real, force: bool, c: Cookie)
    requires c in s.relays
    ensures var t := ExpireRelays(cfg, s, now, force);
            (c in t.relays && t.relays[c] == s.relays[c]) || IdleRelay(cfg, s.relays[c], now)
  {
  }

  ghost predicate EndsAt(r: Relay, a: Address) {
    exists i: Index :: r.endpoints[i].address == a
  }

  /** Unless `a` is an endpoint of relay `c` that is not yet ready, `c` survives; unless bound, untouched. */
  ghost predicate Spared(s: State, t: State, c: Cookie, a: Address)
    requires c in s.relays
  {
    && (c !in t.relays ==> s.relays[c].ready == {} && EndsAt(s.relays[c], a))
    && (!EndsAt(s.relays[c], a) ==> c in t.relays && t.relays[c] == s.relays[c])
  }

  lemma RecordReportCloses(cfg: Config, s: State, cookie: Cookie, index: Index, success: bool, addr: Address,
                           now: real, c: Cookie)
    requires SessionsSound(s) && c in s.relays
    ensures Spared(s, RecordReport(s, cookie, index, success, addr, now), c, addr)
  {
    if Reporter(s, cookie, index, addr) && c == cookie {
      assert Companions(s.sessions[c], s.relays[c]);
      assert s.relays[c].endpoints[index].address == addr;
      assert EndsAt(s.relays[c], addr);
    }
    ReportFrame(s, cookie, index, success, addr, now);
    hide SessionsSound, EndsAt, RecordReport;
  }

  lemma ForwardCloses(cfg: Config, s: State, data: seq<u8>, addr: Address, now: real, c: Cookie)
    requires Inverse(s) && c in s.relays
    ensures Spared(s, Forward(cfg, s, data, addr, now).0, c, addr)
  {
    if addr in s.byAddress {
      var Binding(cookie, index) := s.byAddress[addr];
      assert s.relays[cookie].endpoints[index].address == addr;
      assert EndsAt(s.relays[cookie], addr);
    }
    ForwardFrame(cfg, s, data, addr, now);
    hide Inverse, BoundTo, EndsAt, Forward, WithBucket;
  }

  lemma NegotiationCloses(cfg: Config, s: State, data: seq<u8>, addr: Address, now: real, c: Cookie)
    requires SessionsSound(s) && c in s.relays
    ensures Spared(s, HandleNegotiation(cfg, s, data, addr, now).0, c, addr)
  {
    if 12 <= |data| {
      hide Bounded, AddressReply, PreinitReply, HandleInit, RecordReport, WithType, SessionsSound;
      if data[7] == INIT {
        InitFrame(cfg, s, data, addr, now);
      } else if data[7] == REPORT && 23 <= |data| && data[13] <= 1 && data[14] <= 1 {
        RecordReportCloses(cfg, s, CookieOf(data), data[13], data[14] == 1, addr, now, c);
      }
    }
  }

  lemma PingCloses(s: State, data: seq<u8>, addr: Address, now: real, c: Cookie)
    requires TakesPing(s, data, addr) && c in s.relays
    ensures Spared(s, HandlePing(s, addr, now), c, addr)
  {
    assert EndsAt(s.relays[s.byAddress[addr].cookie], addr);
    hide EndsAt;
  }

  lemma DispatchCloses(cfg: Config, s: State, data: seq<u8>, addr: Address, now: real, c: Cookie)
    requires Inverse(s) && SessionsSound(s) && c in s.relays
    ensures Spared(s, Dispatch(cfg, s, data, addr, now).0, c, addr)
  {
    hide SessionsSound, Inverse, Forward, HandleNegotiation, HandlePing, Spared, TakesPing;
    if TakesPing(s, data, addr) {
      PingCloses(s, data, addr, now, c);
    } else {
      ForwardCloses(cfg, s, data, addr, now, c);
      NegotiationCloses(cfg, s, data, addr, now, c);
    }
  }

  lemma ReceiveCloses(cfg: Config, s: State, data: seq<u8>, addr: Address, now: real, c: Cookie)
    requires Inv(cfg, s, now) && c in s.relays && !IdleRelay(cfg, s.relays[c], now)
    ensures Spared(s, Receive(cfg, s, data, addr, now).0, c, addr)
  {
    ExpireRelaysCloses(cfg, s, now, false, c);
    ExpireRelaysKeeps(cfg, s, now, false);
    var s0 := ExpireRelays(cfg, s, now, false);
    assert Inverse(s0) && SessionsSound(s0);
    hide ExpireRelays, Inv, SessionsSound, Inverse, Dispatch, EndsAt;
    DispatchCloses(cfg, s0, data, addr, now, c);
  }

  /** Two relay and session addresses coincide. */
  ghost predicate Shares(r: Relay, x: Session) {
    Paired(x) && exists i: Index, j: Index :: r.endpoints[i].address == x.peers[j].address
  }

  lemma HolderShares(s: State, x: Session, c: Cookie)
    requires Inverse(s) && Paired(x) && c in HoldersOf(s, x) && c in s.relays
    ensures Shares(s.relays[c], x)
  {
    var j: Index :| j in x.peers && x.peers[j].address in s.byAddress && s.byAddress[x.peers[j].address].cookie == c;
    var i := s.byAddress[x.peers[j].address].index;
    assert s.relays[c].endpoints[i].address == x.peers[j].address;
  }

  /** The datagram is a peer's own report of direct success for cookie `c`. */
  ghost predicate ReportsSuccess(cfg: Config, s: State, data: seq<u8>, addr: Address, c: Cookie) {
    && HasMagic(data) && 23 <= |data| <= cfg.packetBytes && data[7] == REPORT && CookieOf(data) == c
    && data[13] <= 1 && data[14] == 1 && Reporter(s, c, data[13], addr)
  }

  lemma ReportClosesIff(s: State, cookie: Cookie, index: Index, success: bool, addr: Address, now: real, c: Cookie)
    requires c in s.relays
    ensures c !in RecordReport(s, cookie, index, success, addr, now).relays
            <==> cookie == c && success && Reporter(s, c, index, addr) && s.relays[c].ready == {}
  {
    var s1 := TouchSession(s, cookie, now);
    TouchFrame(s, cookie, now);
    FinishFrame(s1, cookie);
    hide TouchSession, Finish, DirectSuccess;
    if Reporter(s, cookie, index, addr) {
      DirectFrame(Finish(s1, {cookie}), cookie, index);
    }
  }

  lemma NegotiationClosesIff(cfg: Config, s: State, data: seq<u8>, addr: Address, now: real, c: Cookie)
    requires c in s.relays && HasMagic(data)
    ensures c !in HandleNegotiation(cfg, s, data, addr, now).0.relays
            <==> ReportsSuccess(cfg, s, data, addr, c) && s.relays[c].ready == {}
  {
    hide Bounded, AddressReply, PreinitReply, HandleInit, RecordReport, WithType, Reporter;
    if 12 <= |data| {
      if data[7] == INIT {
        InitFrame(cfg, s, data, addr, now);
      } else if data[7] == REPORT && 23 <= |data| && data[13] <= 1 && data[14] <= 1 {
        ReportClosesIff(s, CookieOf(data), data[13], data[14] == 1, addr, now, c);
      }
    }
  }

  lemma DispatchClosesIff(cfg: Config, s: State, data: seq<u8>, addr: Address, now: real, c: Cookie)
    requires c in s.relays
    ensures c !in Dispatch(cfg, s, data, addr, now).0.relays
            <==> ReportsSuccess(cfg, s, data, addr, c) && s.relays[c].ready == {}
  {
    hide Forward, HandleNegotiation, HandlePing, Reporter;
    if TakesPing(s, data, addr) {
      PingKeepsAll(s, data, addr, now);
    } else if HasMagic(data) {
      NegotiationClosesIff(cfg, s, data, addr, now, c);
    } else {
      ForwardFrame(cfg, s, data, addr, now);
    }
  }

  lemma PingKeepsAll(s: State, data: seq<u8>, addr: Address, now: real)
    requires TakesPing(s, data, addr)
    ensures HandlePing(s, addr, now).relays.Keys == s.relays.Keys
  {
  }

  lemma ReceiveClosesIff(cfg: Config, s: State, data: seq<u8>, addr: Address, now: real, c: Cookie)
    requires Inv(cfg, s, now) && c in s.relays && !IdleRelay(cfg, s.relays[c], now)
    ensures c !in Receive(cfg, s, data, addr, now).0.relays
            <==> ReportsSuccess(cfg, s, data, addr, c) && s.relays[c].ready == {}
  {
    ExpireRelaysCloses(cfg, s, now, false, c);
    ExpireRelaysKeeps(cfg, s, now, false);
    hide ExpireRelays, Inv, Dispatch;
    DispatchClosesIff(cfg, ExpireRelays(cfg, s, now, false), data, addr, now, c);
  }

  /** The fallback timer of `cookie` is due and finds room; nothing else can keep it from opening its relay. */
  ghost predicate FallbackOpens(cfg: Config, s: State, cookie: Cookie, now: real) {
    && cookie in s.fallbacks && s.fallbacks[cookie] <= now && MayActivate(cfg, s, cookie)
    && |ExpireRelays(cfg, s, now, true).relays| < cfg.maxRelays
  }

  lemma SharerHolds(s: State, x: Session, c: Cookie)
    requires Inverse(s) && Paired(x) && c in s.relays
    ensures Shares(s.relays[c], x) <==> c in HoldersOf(s, x)
  {
    if Shares(s.relays[c], x) {
      var i: Index, j: Index :| s.relays[c].endpoints[i].address == x.peers[j].address;
      assert BoundTo(s, c, i);
      assert j in x.peers;
    }
    if c in HoldersOf(s, x) {
      HolderShares(s, x, c);
    }
  }

  lemma SameExpired(cfg: Config, s: State, fallbacks: map<Cookie, real>, now: real)
    ensures ExpireRelays(cfg, s.(fallbacks := fallbacks), now, true).relays == ExpireRelays(cfg, s, now, true).relays
  {
  }

  lemma FinishTakes(s: State, cookies: set<Cookie>, c: Cookie)
    requires c in s.relays
    ensures c !in Finish(s, cookies).relays <==> c in cookies
  {
  }

  lemma OpenAdds(cfg: Config, s: State, cookie: Cookie, now: real)
    requires cookie in s.sessions && Paired(s.sessions[cookie])
    ensures OpenRelay(cfg, s, cookie, now).0.relays.Keys == s.relays.Keys + {cookie}
  {
  }

  /** What an activation leaves open besides its own relay. */
  lemma ActivateLeaves(cfg: Config, s: State, cookie: Cookie, now: real, c: Cookie)
    requires MayActivate(cfg, s, cookie) && Paired(s.sessions[cookie]) && c != cookie
    requires s.sessions[cookie].peers[0].address != s.sessions[cookie].peers[1].address
    requires cookie in ExpireRelays(cfg, s.(fallbacks := s.fallbacks - {cookie}), now, true).sessions
    requires ExpireRelays(cfg, s.(fallbacks := s.fallbacks - {cookie}), now, true).sessions == s.sessions
    ensures var s1 := ExpireRelays(cfg, s.(fallbacks := s.fallbacks - {cookie}), now, true);
            var x := s.sessions[cookie];
            c in Activate(cfg, s, cookie, now).0.relays
            <==> c in (if |s1.relays| < cfg.maxRelays then Finish(s1, HoldersOf(s1, x)) else s1).relays
  {
    hide PingsPaidFor, ExpireRelays, HoldersOf, Finish, OpenRelay;
    var s1 := ExpireRelays(cfg, s.(fallbacks := s.fallbacks - {cookie}), now, true);
    var s2 := Finish(s1, HoldersOf(s1, s.sessions[cookie]));
    FinishSessions(s1, HoldersOf(s1, s.sessions[cookie]));
    NatNegAmplification.PingsAlwaysPaidFor(s.sessions[cookie], cookie);
    OpenAdds(cfg, s2, cookie, now);
  }

  lemma FinishSessions(s: State, cookies: set<Cookie>)
    ensures Finish(s, cookies).sessions == s.sessions
  {
  }

  lemma ActivateClosesIff(cfg: Config, s: State, cookie: Cookie, now: real, c: Cookie)
    requires Inv(cfg, s, now) && c in s.relays && !IdleRelay(cfg, s.relays[c], now)
    requires cookie in s.fallbacks && s.fallbacks[cookie] <= now
    ensures c !in Activate(cfg, s, cookie, now).0.relays
            <==> FallbackOpens(cfg, s, cookie, now) && Shares(s.relays[c], s.sessions[cookie])
  {
    hide PingsPaidFor, ExpireRelays, Inv, Inverse, HoldersOf, Finish, Shares, OpenRelay, IdleRelay;
    var s0 := s.(fallbacks := s.fallbacks - {cookie});
    if MayActivate(cfg, s, cookie) {
      ExpireRelaysCloses(cfg, s0, now, true, c);
      InverseExpired(cfg, s, cookie, now);
      SameExpired(cfg, s, s.fallbacks - {cookie}, now);
      PeersApart(cfg, s, cookie, now);
      var s1 := ExpireRelays(cfg, s0, now, true);
      ActivateLeaves(cfg, s, cookie, now, c);
      SharerHolds(s1, s.sessions[cookie], c);
      FinishTakes(s1, HoldersOf(s1, s.sessions[cookie]), c);
    }
  }

  lemma PeersApart(cfg: Config, s: State, cookie: Cookie, now: real)
    requires Inv(cfg, s, now) && MayActivate(cfg, s, cookie)
    ensures Paired(s.sessions[cookie]) && s.sessions[cookie].peers[0].address != s.sessions[cookie].peers[1].address
  {
    hide Inv;
    SessionFacts(cfg, s, cookie, now);
    assert 0 in s.sessions[cookie].peers.Keys && 1 in s.sessions[cookie].peers.Keys;
  }

  lemma InverseExpired(cfg: Config, s: State, cookie: Cookie, now: real)
    requires Inv(cfg, s, now)
    ensures Inverse(ExpireRelays(cfg, s.(fallbacks := s.fallbacks - {cookie}), now, true))
    ensures ExpireRelays(cfg, s.(fallbacks := s.fallbacks - {cookie}), now, true).sessions == s.sessions
  {
    DropFallbacksKeeps(cfg, s, s.fallbacks - {cookie}, now);
    ExpireRelaysKeeps(cfg, s.(fallbacks := s.fallbacks - {cookie}), now, true);
  }

  /** What closes a relay before its idle deadline. */
  ghost predicate ClosesEarly(cfg: Config, s: State, now: real, e: Event, c: Cookie)
    requires c in s.relays
  {
    || e.CloseRelays? || e.ConnectionLost?
    || (e.Datagram? && e.admitted && ReportsSuccess(cfg, s, e.data, e.from, c) && s.relays[c].ready == {})
    || (e.FallbackDue? && FallbackOpens(cfg, s, e.cookie, now) && Shares(s.relays[c], s.sessions[e.cookie]))
  }

  lemma IdleTimerCloses(cfg: Config, s: State, cookie: Cookie, now: real, c: Cookie)
    requires c in s.relays && c !in IdleTimer(cfg, s, cookie, now).relays
    ensures IdleRelay(cfg, s.relays[c], now)
  {
    hide Finish;
    if c !in Finish(s, {cookie}).relays {
      FinishTakes(s, {cookie}, c);
    }
  }

  /**
   * Before its idle deadline a relay is closed exactly by closing them all, by losing the socket, by a
   * peer's own report of direct success while nobody is ready, or by a fallback that opens a relay for
   * one of its addresses.
   */
  lemma NoEarlyIdleClose(cfg: Config, s: State, now: real, e: Event, c: Cookie)
    requires Inv(cfg, s, now)
    requires c in s.relays && now < s.relays[c].lastSeen + cfg.sessionSeconds
    ensures c !in Step(cfg, s, now, e).0.relays <==> ClosesEarly(cfg, s, now, e, c)
  {
    hide Receive, Activate, Inv, Shares, IdleTimer, Finish, ExpireSessions, ReportsSuccess, FallbackOpens;
    match e
    case Datagram(data, from, admitted) => ReceiveClosesIff(cfg, s, data, from, now, c);
    case FallbackDue(cookie) => FallbackClosesIff(cfg, s, now, cookie, c);
    case IdleDue(cookie) =>
      if c !in IdleTimer(cfg, s, cookie, now).relays {
        IdleTimerCloses(cfg, s, cookie, now, c);
      }
    case SweepSessions => ExpireSessionsFrame(cfg, s, now);
    case CloseRelays => FinishTakes(s, s.relays.Keys, c);
    case ConnectionLost => FinishTakes(s.(fallbacks := map[]), s.relays.Keys, c);
    case _ =>
  }

  lemma FallbackClosesIff(cfg: Config, s: State, now: real, cookie: Cookie, c: Cookie)
    requires Inv(cfg, s, now) && c in s.relays && !IdleRelay(cfg, s.relays[c], now)
    ensures c !in Step(cfg, s, now, FallbackDue(cookie)).0.relays
            <==> FallbackOpens(cfg, s, cookie, now) && Shares(s.relays[c], s.sessions[cookie])
  {
    hide Activate, Inv, Shares;
    if cookie in s.fallbacks && s.fallbacks[cookie] <= now {
      ActivateClosesIff(cfg, s, cookie, now, c);
    }
  }

  /** Traffic from an address that no relay has bound changes no relay: it never moves a deadline. */
  lemma UnboundTrafficLeavesRelays(cfg: Config, s: State, now: real, data: seq<u8>, from: Address, admitted: bool,
          c: Cookie)
    requires cfg.Valid() && Inv(cfg, s, now) && from !in s.byAddress
    requires c in s.relays && now < s.relays[c].lastSeen + cfg.sessionSeconds
    ensures var t := Step(cfg, s, now, Datagram(data, from, admitted)).0;
            c in t.relays && t.relays[c] == s.relays[c]
  {
    forall i: Index
      ensures s.relays[c].endpoints[i].address != from
    {
      assert BoundTo(s, c, i);
    }
    hide Receive;
    if admitted {
      ReceiveCloses(cfg, s, data, from, now, c);
    }
  }
}
