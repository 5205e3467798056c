/**
 * When a relay forwards, and how much: told from the relay's table, its level and the clock alone,
 * and over every run.
 */
module NatNegTraffic {
  import opened Wrappers
  import opened Bytes
  import opened TokenBuckets
  import opened NatNeg
  import opened NatNegInvariant
  import opened NatNegSafety

  /** The idle sweep that a datagram may start leaves the relay open. */
  predicate Survives(cfg: Config, s: State, now: real, c: Cookie)
    requires c in s.relays
  {
    now < s.nextRelayExpiry || now - s.relays[c].lastSeen < cfg.sessionSeconds
  }

  /** What an endpoint may send at `now`: its tokens and what has accrued since, up to the burst. */
  function Allowance(cfg: Config, e: Endpoint, now: real): real {
    var elapsed := if now < e.bucket.updatedAt then 0.0 else now - e.bucket.updatedAt;
    var level := e.bucket.tokens + elapsed * cfg.bytesPerSecond as real;
    if level < cfg.byteBurst as real then level else cfg.byteBurst as real
  }

  /** Endpoint `i` of the open, established relay `c` sends a datagram that its size and rate permit. */
  predicate Carries(cfg: Config, s: State, now: real, data: seq<u8>, from: Address, c: Cookie, i: Index) {
    && c in s.relays && Survives(cfg, s, now, c)
    && s.relays[c].endpoints[i].address == from && s.relays[c].ready == {0, 1}
    && s.connected && |data| <= cfg.relayPacketBytes
    && |data| as real <= Allowance(cfg, s.relays[c].endpoints[i], now)
  }

  predicate BeginsWithMagic(data: seq<u8>) {
    6 <= |data| && data[0] == 0xFD && data[1] == 0xFC && data[2] == 0x1E && data[3] == 0x66 && data[4] == 0x6A
    && data[5] == 0xB2
  }

  lemma MagicIs(data: seq<u8>)
    ensures HasMagic(data) <==> BeginsWithMagic(data)
  {
    if BeginsWithMagic(data) {
      assert data[..6] == MAGIC;
    }
  }

  lemma SweptIff(cfg: Config, s: State, now: real, c: Cookie)
    ensures var t := ExpireRelays(cfg, s, now, false);
            && (c in t.relays <==> c in s.relays && Survives(cfg, s, now, c))
            && (c in t.relays ==> t.relays[c] == s.relays[c]) && t.connected == s.connected
  {
  }

  lemma ForwardSaysIff(cfg: Config, s: State, data: seq<u8>, from: Address, now: real, c: Cookie, i: Index)
    requires from in s.byAddress && s.byAddress[from] == Binding(c, i) && c in s.relays
    ensures var e := s.relays[c].endpoints[i];
            Forward(cfg, s, data, from, now).1
            == if s.relays[c].ready == {0, 1} && s.connected && |data| <= cfg.relayPacketBytes
                  && |data| as real <= Allowance(cfg, e, now)
               then [Send(data, s.relays[c].endpoints[1 - i].address)] else []
  {
    hide TouchSession;
    TouchFrame(SetRelay(s, c, s.relays[c].(lastSeen := now)), c, now);
    TouchConnected(SetRelay(s, c, s.relays[c].(lastSeen := now)), c, now);
  }

  lemma TouchConnected(s: State, c: Cookie, now: real)
    ensures TouchSession(s, c, now).connected == s.connected
  {
  }

  /** In a sound state: game traffic is sent on exactly when some endpoint carries it. */
  lemma StepForwardsIff(cfg: Config, s: State, now: real, data: seq<u8>, from: Address)
    requires Inv(cfg, s, now) && !BeginsWithMagic(data)
    ensures var sent := Step(cfg, s, now, Datagram(data, from, true)).1;
            && (forall c: Cookie, i: Index :: Carries(cfg, s, now, data, from, c, i) ==>
                  sent == [Send(data, s.relays[c].endpoints[1 - i].address)])
            && ((forall c: Cookie, i: Index :: !Carries(cfg, s, now, data, from, c, i)) ==> sent == [])
  {
    hide Inv, ExpireRelays, Forward, Allowance, HandleNegotiation, Survives;
    MagicIs(data);
    var t := ExpireRelays(cfg, s, now, false);
    ExpireRelaysKeeps(cfg, s, now, false);
    forall c: Cookie, i: Index | Carries(cfg, s, now, data, from, c, i)
      ensures Forward(cfg, t, data, from, now).1 == [Send(data, s.relays[c].endpoints[1 - i].address)]
    {
      CarriedIsSent(cfg, s, t, now, data, from, c, i);
    }
    if forall c: Cookie, i: Index :: !Carries(cfg, s, now, data, from, c, i) {
      NotCarriedIsNotSent(cfg, s, t, now, data, from);
    }
  }

  lemma CarriedIsSent(cfg: Config, s: State, t: State, now: real, data: seq<u8>, from: Address, c: Cookie, i: Index)
    requires t == ExpireRelays(cfg, s, now, false) && Inv(cfg, t, now) && Carries(cfg, s, now, data, from, c, i)
    ensures Forward(cfg, t, data, from, now).1 == [Send(data, s.relays[c].endpoints[1 - i].address)]
  {
    hide ExpireRelays, Forward, Allowance;
    SweptIff(cfg, s, now, c);
    assert BoundTo(t, c, i);
    ForwardSaysIff(cfg, t, data, from, now, c, i);
  }

  lemma NotCarriedIsNotSent(cfg: Config, s: State, t: State, now: real, data: seq<u8>, from: Address)
    requires t == ExpireRelays(cfg, s, now, false) && Inv(cfg, t, now)
    requires forall c: Cookie, i: Index :: !Carries(cfg, s, now, data, from, c, i)
    ensures Forward(cfg, t, data, from, now).1 == []
  {
    hide ExpireRelays, Allowance, Charge, Accepts, TouchSession, WithBucket;
    if from in t.byAddress {
      var c, i := t.byAddress[from].cookie, t.byAddress[from].index;
      assert c in t.relays && t.relays[c].endpoints[i].address == from;
      SweptIff(cfg, s, now, c);
      assert !Carries(cfg, s, now, data, from, c, i);
      hide Forward;
      ForwardSaysIff(cfg, t, data, from, now, c, i);
    }
  }

  /** The state before the last moment of a run, at the time of that moment. */
  lemma SoundBefore(cfg: Config, run: seq<Moment>)
    requires cfg.Valid() && NatNegInvariant.Ordered(run) && run != []
    ensures Inv(cfg, Reach(cfg, run[..|run| - 1]), run[|run| - 1].time)
  {
    hide Inv, Reach;
    var init := run[..|run| - 1];
    RunKeeps(cfg, init);
    if init == [] {
      assert Reach(cfg, init) == START by { EmptyReach(cfg); }
      StartIsSound(cfg, run[|run| - 1].time);
    } else {
      InvLater(cfg, Reach(cfg, init), Clock(init), run[|run| - 1].time);
    }
  }

  lemma EmptyReach(cfg: Config)
    ensures Reach(cfg, []) == START
  {
  }

  /**
   * In every run: an admitted datagram without the magic is sent on, as it is, to the other endpoint if
   * and only if its sender is an endpoint of an open relay, both endpoints are ready, the socket is
   * connected, and its length fits the packet limit and min(burst, tokens + rate * elapsed).
   */
  lemma ForwardsIff(cfg: Config, run: seq<Moment>, data: seq<u8>, from: Address)
    requires cfg.Valid() && NatNegInvariant.Ordered(run) && run != [] && !BeginsWithMagic(data)
    requires run[|run| - 1].event == Datagram(data, from, true)
    ensures var s, now := Reach(cfg, run[..|run| - 1]), run[|run| - 1].time;
            && (forall c: Cookie, i: Index :: Carries(cfg, s, now, data, from, c, i) ==>
                  LastSent(cfg, run) == [Send(data, s.relays[c].endpoints[1 - i].address)])
            && ((forall c: Cookie, i: Index :: !Carries(cfg, s, now, data, from, c, i)) ==> LastSent(cfg, run) == [])
  {
    hide Step, Inv, Carries, Reach;
    var init := run[..|run| - 1];
    SoundBefore(cfg, run);
    StepForwardsIff(cfg, Reach(cfg, init), run[|run| - 1].time, data, from);
  }

  // -------------------------------------------------------------- over a run

  /** Moment `m` of the run is a datagram of endpoint `i` of relay `c` that is sent on. */
  ghost predicate Forwarded(cfg: Config, run: seq<Moment>, m: nat, c: Cookie, i: Index)
    requires m < |run|
  {
    var s := Reach(cfg, run[..m]);
    && run[m].event.Datagram? && run[m].event.admitted && !BeginsWithMagic(run[m].event.data)
    && Carries(cfg, s, run[m].time, run[m].event.data, run[m].event.from, c, i)
  }

  /** The bytes of endpoint `i` sent on from moment `k` to before moment `n`. */
  ghost function ForwardedBytes(cfg: Config, run: seq<Moment>, k: nat, n: nat, c: Cookie, i: Index): nat
    requires k <= n <= |run|
    decreases n
  {
    if n == k then 0
    else ForwardedBytes(cfg, run, k, n - 1, c, i)
         + if Forwarded(cfg, run, n - 1, c, i) then |run[n - 1].event.data| else 0
  }

  /** Left as it is, or charged for what it has sent. */
  ghost predicate Pays(cfg: Config, e: Endpoint, f: Endpoint, now: real, sent: nat) {
    || (sent == 0 && f.bucket == e.bucket)
    || (f.bucket.updatedAt == now && f.bucket.tokens + sent as real <= Allowance(cfg, e, now))
  }

  lemma PaysLater(cfg: Config, e: Endpoint, f: Endpoint, now: real, later: real, sent: nat)
    requires Pays(cfg, e, f, now, sent) && e.bucket.updatedAt <= now <= later
    ensures Allowance(cfg, f, later) + sent as real <= Allowance(cfg, e, now) + (later - now) * cfg.bytesPerSecond as real
  {
    var rate := cfg.bytesPerSecond as real;
    Product(later - now, rate);
    Product(now - e.bucket.updatedAt, rate);
    assert (later - e.bucket.updatedAt) * rate == (now - e.bucket.updatedAt) * rate + (later - now) * rate by {
      Distribute(now - e.bucket.updatedAt, later - now, rate);
    }
  }

  lemma Product(a: real, b: real)
    requires 0.0 <= a && 0.0 <= b
    ensures 0.0 <= a * b
  {
  }

  /** What a datagram of its sender costs an endpoint. */
  function Cost(cfg: Config, r: Relay, i: Index, data: seq<u8>, from: Address, now: real): nat {
    if r.endpoints[i].address == from && r.ready == {0, 1} && |data| <= cfg.relayPacketBytes
       && |data| as real <= Allowance(cfg, r.endpoints[i], now)
    then |data| else 0
  }

  lemma ForwardShape(cfg: Config, s: State, data: seq<u8>, from: Address, now: real, c: Cookie, i: Index)
    requires from in s.byAddress && s.byAddress[from] == Binding(c, i) && c in s.relays
    ensures var r := s.relays[c].(lastSeen := now);
            Forward(cfg, s, data, from, now).0.relays
            == s.relays[c := if |data| <= cfg.relayPacketBytes && r.ready == {0, 1}
                             then WithBucket(r, i, Charge(RelayLimits(cfg), r.endpoints[i].bucket, now, |data| as real)) else r]
  {
    hide Charge, Accepts, WithBucket, RelayLimits, TouchSession;
    var r := s.relays[c].(lastSeen := now);
    TouchFrame(SetRelay(s, c, r), c, now);
    PutAgain(s.relays, c, r, WithBucket(r, i, Charge(RelayLimits(cfg), r.endpoints[i].bucket, now, |data| as real)));
  }

  lemma ForwardCharges(cfg: Config, s: State, data: seq<u8>, from: Address, now: real, c: Cookie, i: Index)
    requires Inverse(s) && c in s.relays
    ensures var t := Forward(cfg, s, data, from, now).0;
            c in t.relays && Pays(cfg, s.relays[c].endpoints[i], t.relays[c].endpoints[i], now,
                                  Cost(cfg, s.relays[c], i, data, from, now))
  {
    hide Forward, Inverse, Allowance, Charge, Accepts, RelayLimits;
    BoundEndpoint(s, from, c, i);
    AcceptsIsAllowance(cfg, s.relays[c].endpoints[i], now, |data|);
    ForwardFrame(cfg, s, data, from, now);
    if from in s.byAddress && s.byAddress[from].cookie in s.relays {
      ForwardShape(cfg, s, data, from, now, s.byAddress[from].cookie, s.byAddress[from].index);
    }
  }

  lemma AcceptsIsAllowance(cfg: Config, e: Endpoint, now: real, size: nat)
    ensures Accepts(RelayLimits(cfg), e.bucket, now, size as real) <==> size as real <= Allowance(cfg, e, now)
    ensures Charge(RelayLimits(cfg), e.bucket, now, size as real)
            == Bucket(Allowance(cfg, e, now) - if size as real <= Allowance(cfg, e, now) then size as real else 0.0, now)
  {
  }

  lemma BoundEndpoint(s: State, from: Address, c: Cookie, i: Index)
    requires Inverse(s) && c in s.relays
    ensures s.relays[c].endpoints[i].address == from ==> from in s.byAddress && s.byAddress[from] == Binding(c, i)
    ensures from in s.byAddress && s.byAddress[from] == Binding(c, i) ==> s.relays[c].endpoints[i].address == from
  {
    assert BoundTo(s, c, i);
  }

  lemma NegotiationLeavesBuckets(cfg: Config, s: State, data: seq<u8>, from: Address, now: real, c: Cookie, i: Index)
    requires c in s.relays && c in HandleNegotiation(cfg, s, data, from, now).0.relays
    ensures HandleNegotiation(cfg, s, data, from, now).0.relays[c].endpoints == s.relays[c].endpoints
  {
    hide Bounded, AddressReply, PreinitReply, HandleInit, RecordReport, WithType, Reporter;
    if 12 <= |data| {
      if data[7] == INIT {
        InitFrame(cfg, s, data, from, now);
      } else if data[7] == REPORT && 23 <= |data| && data[13] <= 1 && data[14] <= 1 {
        ReportFrame(s, CookieOf(data), data[13], data[14] == 1, from, now);
      }
    }
  }

  lemma DispatchPays(cfg: Config, s: State, data: seq<u8>, from: Address, now: real, c: Cookie, i: Index)
    requires Inverse(s) && c in s.relays && c in Dispatch(cfg, s, data, from, now).0.relays
    ensures Pays(cfg, s.relays[c].endpoints[i], Dispatch(cfg, s, data, from, now).0.relays[c].endpoints[i], now,
                 if BeginsWithMagic(data) then 0 else Cost(cfg, s.relays[c], i, data, from, now))
  {
    hide Inverse, Forward, HandleNegotiation, Allowance, Cost;
    MagicIs(data);
    if TakesPing(s, data, from) {
    } else if HasMagic(data) {
      NegotiationLeavesBuckets(cfg, s, data, from, now, c, i);
    } else {
      ForwardCharges(cfg, s, data, from, now, c, i);
    }
  }

  lemma ActivateLeavesBuckets(cfg: Config, s: State, cookie: Cookie, now: real, c: Cookie)
    requires c in s.relays && c in Activate(cfg, s, cookie, now).0.relays
    ensures Activate(cfg, s, cookie, now).0.relays[c] == s.relays[c]
  {
    hide PingsPaidFor, ExpireRelays, HoldersOf, Finish;
    var s0 := s.(fallbacks := s.fallbacks - {cookie});
    var s1 := ExpireRelays(cfg, s0, now, true);
    ForcedSweep(cfg, s0, now);
    if MayActivate(cfg, s0, cookie) {
      SweptSessions(cfg, s0, now);
      FinishIsSubmap(s1, HoldersOf(s1, s0.sessions[cookie]));
    }
  }

  lemma ForcedSweep(cfg: Config, s: State, now: real)
    ensures forall c :: c in ExpireRelays(cfg, s, now, true).relays ==>
              c in s.relays && ExpireRelays(cfg, s, now, true).relays[c] == s.relays[c]
  {
  }

  /** In every step an endpoint of a relay that stays open pays for what it has sent on. */
  lemma StepPaysFor(cfg: Config, s: State, now: real, e: Event, c: Cookie, i: Index)
    requires Inv(cfg, s, now) && c in s.relays && c in Step(cfg, s, now, e).0.relays
    ensures Pays(cfg, s.relays[c].endpoints[i], Step(cfg, s, now, e).0.relays[c].endpoints[i], now,
                 if e.Datagram? && e.admitted && !BeginsWithMagic(e.data) && Carries(cfg, s, now, e.data, e.from, c, i)
                 then |e.data| else 0)
  {
    hide Inv, ExpireRelays, Dispatch, Activate, Allowance, IdleTimer, Finish, ExpireSessions, Survives;
    match e
    case Datagram(data, from, admitted) =>
      if admitted {
        ExpireRelaysKeeps(cfg, s, now, false);
        SweptIff(cfg, s, now, c);
        DispatchKeepsOut(cfg, ExpireRelays(cfg, s, now, false), data, from, now, c);
        InverseOf(cfg, ExpireRelays(cfg, s, now, false), now);
        DispatchPays(cfg, ExpireRelays(cfg, s, now, false), data, from, now, c, i);
        PaysLess(cfg, s, now, data, from, c, i);
      }
    case FallbackDue(cookie) =>
      if cookie in s.fallbacks && s.fallbacks[cookie] <= now {
        ActivateLeavesBuckets(cfg, s, cookie, now, c);
      }
    case IdleDue(cookie) =>
      if cookie in s.expirations && s.expirations[cookie] <= now {
        IdleLeavesBuckets(cfg, s, cookie, now, c);
      }
    case SweepSessions => ExpireSessionsFrame(cfg, s, now);
    case ConnectionLost => FinishIsSubmap(s.(fallbacks := map[]), s.relays.Keys);
    case CloseRelays => FinishIsSubmap(s, s.relays.Keys);
    case _ =>
  }

  lemma InverseOf(cfg: Config, s: State, now: real)
    requires Inv(cfg, s, now)
    ensures Inverse(s)
  {
  }

  lemma IdleLeavesBuckets(cfg: Config, s: State, cookie: Cookie, now: real, c: Cookie)
    requires c in s.relays && c in IdleTimer(cfg, s, cookie, now).relays
    ensures IdleTimer(cfg, s, cookie, now).relays[c] == s.relays[c]
  {
    hide Finish;
    FinishIsSubmap(s, {cookie});
  }

  lemma DispatchKeepsOut(cfg: Config, s: State, data: seq<u8>, from: Address, now: real, c: Cookie)
    ensures c !in s.relays ==> c !in Dispatch(cfg, s, data, from, now).0.relays
  {
    hide Forward, HandleNegotiation, Kin;
    ForwardDescends(cfg, s, data, from, now);
    NegotiationDescends(cfg, s, data, from, now);
  }

  /** What is carried is charged. */
  lemma PaysLess(cfg: Config, s: State, now: real, data: seq<u8>, from: Address, c: Cookie, i: Index)
    requires c in s.relays
    ensures Carries(cfg, s, now, data, from, c, i) ==> Cost(cfg, s.relays[c], i, data, from, now) == |data|
  {
  }

  /** The relay is open, and the same one, before each of the moments from `k` to before `n` and behind the last. */
  ghost predicate OpenBetween(cfg: Config, run: seq<Moment>, k: nat, n: nat, c: Cookie)
    requires k <= n <= |run|
  {
    forall j :: k <= j <= n ==> c in Reach(cfg, run[..j]).relays
  }

  lemma ReachStep(cfg: Config, run: seq<Moment>, n: nat)
    requires n < |run|
    ensures Reach(cfg, run[..n + 1]) == Step(cfg, Reach(cfg, run[..n]), run[n].time, run[n].event).0
  {
    hide Step;
    assert run[..n + 1][..n] == run[..n];
  }

  lemma SoundAt(cfg: Config, run: seq<Moment>, n: nat)
    requires cfg.Valid() && NatNegInvariant.Ordered(run) && n < |run|
    ensures Inv(cfg, Reach(cfg, run[..n]), run[n].time)
  {
    hide Inv, Reach;
    assert run[..n + 1][..n] == run[..n];
    SoundBefore(cfg, run[..n + 1]);
  }

  /** No bucket is ahead of the clock. */
  ghost predicate Past(s: State, now: real) {
    forall c, i: Index :: c in s.relays ==> s.relays[c].endpoints[i].bucket.updatedAt <= now
  }

  /** A relay that a step opens: its session's peers by index, both buckets full, nobody ready. */
  lemma OpenedRelay(cfg: Config, s: State, now: real, e: Event, c: Cookie)
    requires c !in s.relays && c in Step(cfg, s, now, e).0.relays
    ensures e == FallbackDue(c) && c in s.sessions && Paired(s.sessions[c])
    ensures var x := s.sessions[c];
            Step(cfg, s, now, e).0.relays[c]
            == Relay([Endpoint(x.peers[0].address, Bucket(cfg.byteBurst as real, now)),
                      Endpoint(x.peers[1].address, Bucket(cfg.byteBurst as real, now))], now, now, {}, {})
  {
    hide Activate;
    RelayStep(cfg, s, now, e, c);
    ActivationOpens(cfg, s, now, c);
  }

  lemma ActivationOpens(cfg: Config, s: State, now: real, c: Cookie)
    requires c !in s.relays && c in Activate(cfg, s, c, now).0.relays
    ensures c in s.sessions && Paired(s.sessions[c])
    ensures var x := s.sessions[c];
            Activate(cfg, s, c, now).0.relays[c]
            == Relay([Endpoint(x.peers[0].address, Bucket(cfg.byteBurst as real, now)),
                      Endpoint(x.peers[1].address, Bucket(cfg.byteBurst as real, now))], now, now, {}, {})
  {
    hide PingsPaidFor, ExpireRelays, HoldersOf, Finish, Kin, Step;
    var s0 := s.(fallbacks := s.fallbacks - {c});
    ForcedSweep(cfg, s0, now);
    SweptSessions(cfg, s0, now);
    if MayActivate(cfg, s0, c) {
      assert 0 in s.sessions[c].peers.Keys && 1 in s.sessions[c].peers.Keys;
      FinishIsSubmap(ExpireRelays(cfg, s0, now, true), HoldersOf(ExpireRelays(cfg, s0, now, true), s.sessions[c]));
    }
  }

  lemma StepPast(cfg: Config, s: State, now: real, e: Event)
    requires Inv(cfg, s, now) && Past(s, now)
    ensures Past(Step(cfg, s, now, e).0, now)
  {
    hide Step, Inv, Carries, Allowance;
    var t := Step(cfg, s, now, e).0;
    forall c, i: Index | c in t.relays
      ensures t.relays[c].endpoints[i].bucket.updatedAt <= now
    {
      if c in s.relays {
        StepPaysFor(cfg, s, now, e, c, i);
      } else {
        OpenedRelay(cfg, s, now, e, c);
      }
    }
  }

  lemma {:induction false} PastAt(cfg: Config, run: seq<Moment>, n: nat)
    requires cfg.Valid() && NatNegInvariant.Ordered(run) && n < |run|
    ensures Past(Reach(cfg, run[..n]), run[n].time)
  {
    hide Step, Inv, Reach;
    if n == 0 {
      EmptyReach(cfg);
      assert run[..0] == [];
    } else {
      PastAt(cfg, run, n - 1);
      SoundAt(cfg, run, n - 1);
      ReachStep(cfg, run, n - 1);
      StepPast(cfg, Reach(cfg, run[..n - 1]), run[n - 1].time, run[n - 1].event);
    }
  }

  lemma WithinBurst(cfg: Config, e: Endpoint, now: real)
    ensures Allowance(cfg, e, now) <= cfg.byteBurst as real
  {
  }

  /** What a window from moment `k` to moment `n` adds to the burst. */
  function Earned(cfg: Config, run: seq<Moment>, k: nat, n: nat): real
    requires k < |run| && n < |run|
  {
    (run[n].time - run[k].time) * cfg.bytesPerSecond as real
  }

  lemma EarnedAdds(cfg: Config, run: seq<Moment>, k: nat, n: nat)
    requires k < n < |run|
    ensures Earned(cfg, run, k, n) == Earned(cfg, run, k, n - 1) + Earned(cfg, run, n - 1, n)
  {
    Distribute(run[n - 1].time - run[k].time, run[n].time - run[n - 1].time, cfg.bytesPerSecond as real);
  }

  lemma EarnedIsSome(cfg: Config, run: seq<Moment>, n: nat)
    requires NatNegInvariant.Ordered(run) && 0 < n < |run|
    ensures 0.0 <= Earned(cfg, run, n - 1, n)
  {
    Product(run[n].time - run[n - 1].time, cfg.bytesPerSecond as real);
  }

  lemma EarnedNone(cfg: Config, run: seq<Moment>, k: nat)
    requires k < |run|
    ensures Earned(cfg, run, k, k) == 0.0
  {
  }

  /** Before moment `n` an endpoint has sent on, and may still send, no more than its burst and what has accrued. */
  lemma {:induction false} WindowHolds(cfg: Config, run: seq<Moment>, k: nat, n: nat, c: Cookie, i: Index)
    requires cfg.Valid() && NatNegInvariant.Ordered(run) && k <= n < |run| && OpenBetween(cfg, run, k, n, c)
    ensures c in Reach(cfg, run[..n]).relays
    ensures ForwardedBytes(cfg, run, k, n, c, i) as real + Allowance(cfg, Reach(cfg, run[..n]).relays[c].endpoints[i], run[n].time)
            <= cfg.byteBurst as real + Earned(cfg, run, k, n)
    decreases n
  {
    hide Step, Inv, Reach, Carries, Allowance, Earned;
    assert c in Reach(cfg, run[..n]).relays;
    WithinBurst(cfg, Reach(cfg, run[..n]).relays[c].endpoints[i], run[n].time);
    if n > k {
      WindowHolds(cfg, run, k, n - 1, c, i);
      WindowStep(cfg, run, n - 1, c, i);
      EarnedAdds(cfg, run, k, n);
    } else {
      EarnedNone(cfg, run, k);
    }
  }

  lemma WindowStep(cfg: Config, run: seq<Moment>, m: nat, c: Cookie, i: Index)
    requires cfg.Valid() && NatNegInvariant.Ordered(run) && m + 1 < |run|
    requires c in Reach(cfg, run[..m]).relays && c in Reach(cfg, run[..m + 1]).relays
    ensures Allowance(cfg, Reach(cfg, run[..m + 1]).relays[c].endpoints[i], run[m + 1].time)
            + (if Forwarded(cfg, run, m, c, i) then |run[m].event.data| else 0) as real
            <= Allowance(cfg, Reach(cfg, run[..m]).relays[c].endpoints[i], run[m].time) + Earned(cfg, run, m, m + 1)
  {
    hide Step, Inv, Reach, Carries, Allowance;
    var s, t := Reach(cfg, run[..m]), Reach(cfg, run[..m + 1]);
    SoundAt(cfg, run, m);
    PastAt(cfg, run, m);
    ReachStep(cfg, run, m);
    StepPaysFor(cfg, s, run[m].time, run[m].event, c, i);
    var sent := if Forwarded(cfg, run, m, c, i) then |run[m].event.data| else 0;
    PaysLater(cfg, s.relays[c].endpoints[i], t.relays[c].endpoints[i], run[m].time, run[m + 1].time, sent);
  }

  lemma {:induction false} RateHolds(cfg: Config, run: seq<Moment>, k: nat, n: nat, c: Cookie, i: Index)
    requires cfg.Valid() && NatNegInvariant.Ordered(run) && k <= n < |run| && OpenBetween(cfg, run, k, n, c)
    ensures ForwardedBytes(cfg, run, k, n + 1, c, i) as real <= cfg.byteBurst as real + Earned(cfg, run, k, n)
    decreases n
  {
    hide Reach, Allowance, Carries, Inv, Earned;
    if Forwarded(cfg, run, n, c, i) {
      WindowHolds(cfg, run, k, n, c, i);
      AllowanceCovers(cfg, run, n, c, i);
    } else if n > k {
      RateHolds(cfg, run, k, n - 1, c, i);
      EarnedAdds(cfg, run, k, n);
      EarnedIsSome(cfg, run, n);
    } else {
      EarnedNone(cfg, run, k);
    }
  }

  /**
   * In every run, as long as a relay is open, what one of its endpoints gets forwarded in any window is at
   * most byteBurst + bytesPerSecond * elapsed.
   */
  lemma RelayRateIsBounded(cfg: Config, run: seq<Moment>, k: nat, n: nat, c: Cookie, i: Index)
    requires cfg.Valid() && NatNegInvariant.Ordered(run) && k <= n < |run| && OpenBetween(cfg, run, k, n, c)
    ensures ForwardedBytes(cfg, run, k, n + 1, c, i) as real
            <= cfg.byteBurst as real + (run[n].time - run[k].time) * cfg.bytesPerSecond as real
  {
    hide Reach, ForwardedBytes, OpenBetween, Earned;
    RateHolds(cfg, run, k, n, c, i);
    EarnedIs(cfg, run, k, n);
  }

  lemma EarnedIs(cfg: Config, run: seq<Moment>, k: nat, n: nat)
    requires k < |run| && n < |run|
    ensures Earned(cfg, run, k, n) == (run[n].time - run[k].time) * cfg.bytesPerSecond as real
  {
  }

  lemma AllowanceCovers(cfg: Config, run: seq<Moment>, m: nat, c: Cookie, i: Index)
    requires m < |run| && Forwarded(cfg, run, m, c, i)
    ensures c in Reach(cfg, run[..m]).relays
    ensures |run[m].event.data| as real <= Allowance(cfg, Reach(cfg, run[..m]).relays[c].endpoints[i], run[m].time)
  {
    hide Reach, Allowance;
  }
}
