/**
 * NAT negotiation and the relay fallback: the packets, sessions and relays of natneg.py and the
 * NAT half of state.py, as a state machine.  Every datagram handler and timer callback is one
 * step; a step reads the clock once.
 */
module NatNeg {
  import opened Wrappers
  import opened Bytes
  import opened TokenBuckets

  // ----------------------------------------------------------------- packets

  datatype Address = Address(a: u8, b: u8, c: u8, d: u8, port: u16)

  type Cookie = c: seq<u8> | |c| == 4 witness [0, 0, 0, 0]

  datatype Send = Send(data: seq<u8>, to: Address)

  const MAGIC: seq<u8> := [0xFD, 0xFC, 0x1E, 0x66, 0x6A, 0xB2]
  const INIT: u8 := 0
  const INIT_ACK: u8 := 1
  const ERT_TEST: u8 := 2
  const CONNECT: u8 := 5
  const CONNECT_PING: u8 := 7
  const ADDRESS_CHECK: u8 := 10
  const ADDRESS_REPLY: u8 := 11
  const NATIFY_REQUEST: u8 := 12
  const REPORT: u8 := 13
  const REPORT_ACK: u8 := 14
  const PREINIT: u8 := 15
  const PREINIT_ACK: u8 := 16
  const AMPLIFICATION: nat := 3
  const MIN_INIT_BYTES: nat := 21

  function HostBytes(addr: Address): seq<u8> {
    [addr.a, addr.b, addr.c, addr.d]
  }

  function PortBytes(addr: Address): seq<u8> {
    [addr.port / 0x100, addr.port % 0x100]
  }

  predicate HasMagic(data: seq<u8>) {
    6 <= |data| && data[..6] == MAGIC
  }

  function CookieOf(data: seq<u8>): Cookie
    requires 12 <= |data|
  {
    data[8..12]
  }

  function WithType(data: seq<u8>, kind: u8): (r: seq<u8>)
    requires 8 <= |data|
    ensures |r| == |data|
  {
    data[7 := kind]
  }

  function ConnectPacket(version: u8, cookie: Cookie, remote: Address): seq<u8> {
    MAGIC + [version, CONNECT] + cookie + HostBytes(remote) + PortBytes(remote) + [0, 0]
  }

  function RelayPing(version: u8, cookie: Cookie): seq<u8> {
    MAGIC + [version, CONNECT_PING] + cookie + Zeros(6) + [1, 0]
  }

  function AddressReply(data: seq<u8>, addr: Address): seq<u8>
    requires 12 <= |data|
  {
    var reply := WithType(data, ADDRESS_REPLY);
    var padded := if |reply| < 21 then reply + Zeros(21 - |reply|) else reply;
    padded[..15] + HostBytes(addr) + PortBytes(addr) + padded[21..]
  }

  function PreinitReply(data: seq<u8>): seq<u8>
    requires 12 <= |data|
  {
    var reply := WithType(data, PREINIT_ACK);
    if |reply| > 13 then reply[13 := 2] else reply
  }

  function Total(sends: seq<Send>): nat {
    if sends == [] then 0 else |sends[0].data| + Total(sends[1..])
  }

  /** `udp_response_within_amplification_limit` with the numerator 3 and denominator 1 used here. */
  predicate WithinAmplification(request: nat, response: nat) {
    request > 0 && response <= AMPLIFICATION * request
  }

  /** `_bounded_responses`. */
  function Bounded(request: seq<u8>, responses: seq<Send>): seq<Send> {
    if WithinAmplification(|request|, Total(responses)) then responses else []
  }

  // ------------------------------------------------------------------- state

  datatype Config = Config(
    packetBytes: nat,
    auto: bool,
    fallbackSeconds: real,
    sessionSeconds: real,
    relayPacketBytes: nat,
    bytesPerSecond: nat,
    byteBurst: nat,
    maxRelays: nat,
    sessionTtl: real,
    maxSessions: nat)
  {
    ghost predicate Valid() {
      0.0 <= fallbackSeconds && 0.0 < sessionSeconds && 0.0 <= sessionTtl
    }
  }

  /** A client index; both the session's peers and the relay's endpoints are keyed by it. */
  type Index = i: nat | i < 2

  datatype Peer = Peer(address: Address, version: u8)

  /**
   * `NatSession`.  `opener` is the index claimed first: the source's dict keeps that order.
   * `activations` is a history variable: the relays this session object has activated.
   */
  datatype Session = Session(
    peers: map<Index, Peer>,
    opener: Index,
    lastSeen: real,
    pairedAt: Option<real>,
    reports: set<Index>,
    activations: nat)

  datatype Endpoint = Endpoint(address: Address, bucket: Bucket)

  type Endpoints = e: seq<Endpoint> | |e| == 2
    witness [Endpoint(Address(0, 0, 0, 0, 0), Bucket(0.0, 0.0)), Endpoint(Address(0, 0, 0, 0, 0), Bucket(0.0, 0.0))]

  /** `_RelaySession`. */
  datatype Relay = Relay(
    endpoints: Endpoints,
    startedAt: real,
    lastSeen: real,
    reports: set<Index>,
    ready: set<Index>)

  datatype Binding = Binding(cookie: Cookie, index: Index)

  /** Timers are maps from a cookie to the time the timer is due. */
  datatype State = State(
    sessions: map<Cookie, Session>,
    fallbacks: map<Cookie, real>,
    relays: map<Cookie, Relay>,
    byAddress: map<Address, Binding>,
    expirations: map<Cookie, real>,
    nextRelayExpiry: real,
    draining: bool,
    connected: bool,
    activated: nat,
    closed: nat)

  const START := State(map[], map[], map[], map[], map[], 0.0, false, false, 0, 0)

  // -------------------------------------------------------------- primitives

  /** `ServerState.expire`, the NAT sessions. */
  function ExpireSessions(cfg: Config, s: State, now: real): State {
    s.(sessions := map c | c in s.sessions && now - s.sessions[c].lastSeen <= cfg.sessionTtl :: s.sessions[c])
  }

  /** The bindings of relays other than those gone. */
  function Unbound(byAddress: map<Address, Binding>, gone: set<Cookie>): map<Address, Binding> {
    map a | a in byAddress && byAddress[a].cookie !in gone :: byAddress[a]
  }

  /** `_finish_relay` for each of `cookies`. */
  function Finish(s: State, cookies: set<Cookie>): State {
    var gone := cookies * s.relays.Keys;
    s.(relays := s.relays - gone,
       expirations := s.expirations - gone,
       byAddress := Unbound(s.byAddress, gone),
       fallbacks := s.fallbacks - gone,
       closed := s.closed + |gone|)
  }

  predicate IdleRelay(cfg: Config, relay: Relay, now: real) {
    now - relay.lastSeen >= cfg.sessionSeconds
  }

  function IdleRelays(cfg: Config, s: State, now: real): set<Cookie> {
    set c | c in s.relays && IdleRelay(cfg, s.relays[c], now)
  }

  /** `_expire_relays`. */
  function ExpireRelays(cfg: Config, s: State, now: real, force: bool): State {
    if !force && now < s.nextRelayExpiry then s
    else Finish(s, IdleRelays(cfg, s, now)).(nextRelayExpiry := now + 1.0)
  }

  function TouchSession(s: State, cookie: Cookie, now: real): State {
    if cookie in s.sessions
    then s.(sessions := s.sessions[cookie := s.sessions[cookie].(lastSeen := now)]) else s
  }

  function SetRelay(s: State, cookie: Cookie, relay: Relay): State {
    s.(relays := s.relays[cookie := relay])
  }

  function SetSession(s: State, cookie: Cookie, session: Session): State {
    s.(sessions := s.sessions[cookie := session])
  }

  // ------------------------------------------------------------ relay traffic

  predicate IsPing(data: seq<u8>, cookie: Cookie) {
    20 <= |data| && data[..6] == MAGIC && data[7] == CONNECT_PING && CookieOf(data) == cookie
  }

  /** Whether `_handle_relay_ping` takes the datagram. */
  predicate TakesPing(s: State, data: seq<u8>, addr: Address) {
    && 20 <= |data|
    && addr in s.byAddress && s.byAddress[addr].cookie in s.relays
    && IsPing(data, s.byAddress[addr].cookie)
    && s.relays[s.byAddress[addr].cookie].endpoints[s.byAddress[addr].index].address == addr
  }

  function HandlePing(s: State, addr: Address, now: real): State
    requires addr in s.byAddress && s.byAddress[addr].cookie in s.relays
  {
    var Binding(cookie, index) := s.byAddress[addr];
    var relay := s.relays[cookie];
    TouchSession(SetRelay(s, cookie, relay.(ready := relay.ready + {index}, lastSeen := now)), cookie, now)
  }

  function RelayLimits(cfg: Config): Limits {
    Limits(cfg.bytesPerSecond as real, cfg.byteBurst as real)
  }

  function WithBucket(relay: Relay, index: Index, bucket: Bucket): Relay {
    relay.(endpoints := relay.endpoints[index := relay.endpoints[index].(bucket := bucket)])
  }

  /** `_forward_relay`. */
  function Forward(cfg: Config, s: State, data: seq<u8>, addr: Address, now: real): (State, seq<Send>) {
    if addr !in s.byAddress then (s, [])
    else
      var Binding(cookie, index) := s.byAddress[addr];
      if cookie !in s.relays then (s.(byAddress := s.byAddress - {addr}), [])
      else
        var relay := s.relays[cookie].(lastSeen := now);
        var s1 := TouchSession(SetRelay(s, cookie, relay), cookie, now);
        if |data| > cfg.relayPacketBytes || relay.ready != {0, 1} then (s1, [])
        else
          var had := relay.endpoints[index].bucket;
          var s2 := SetRelay(s1, cookie, WithBucket(relay, index, Charge(RelayLimits(cfg), had, now, |data| as real)));
          if !Accepts(RelayLimits(cfg), had, now, |data| as real) || !s.connected then (s2, [])
          else (s2, [Send(data, relay.endpoints[1 - index].address)])
  }

  // -------------------------------------------------------------------- INIT

  predicate AddressTaken(session: Session, addr: Address) {
    exists i :: i in session.peers && session.peers[i].address == addr
  }

  datatype Claim = Claim(state: State, ok: bool)

  /** `claim_nat_peer`; not ok stands for both kinds of rejection. */
  function ClaimPeer(cfg: Config, s: State, cookie: Cookie, index: Index, addr: Address, version: u8,
          now: real): Claim {
    var s := ExpireSessions(cfg, s, now);
    var peer := Peer(addr, version);
    if cookie !in s.sessions then
      if |s.sessions| >= cfg.maxSessions then Claim(s, false)
      else Claim(SetSession(s, cookie, Session(map[index := peer], index, now, None, {}, 0)), true)
    else
      var session := s.sessions[cookie];
      if index in session.peers && session.peers[index].address == addr then
        Claim(SetSession(s, cookie, session.(peers := session.peers[index := peer], lastSeen := now)), true)
      else if |session.peers| == 2 || index in session.peers || AddressTaken(session, addr) then Claim(s, false)
      else Claim(SetSession(s, cookie, session.(peers := session.peers[index := peer], lastSeen := now)), true)
  }

  predicate Paired(session: Session) {
    0 in session.peers && 1 in session.peers
  }

  /** Both peers' CONNECT packets, in the order the indices were claimed. */
  function Introductions(session: Session, cookie: Cookie): seq<Send>
    requires Paired(session)
  {
    var (one, two) := (session.peers[session.opener], session.peers[1 - session.opener]);
    [Send(ConnectPacket(one.version, cookie, two.address), one.address),
     Send(ConnectPacket(two.version, cookie, one.address), two.address)]
  }

  /** `_schedule_fallback`. */
  function ScheduleFallback(cfg: Config, s: State, cookie: Cookie, now: real): State {
    if !cfg.auto || !s.connected || cookie in s.fallbacks then s
    else s.(fallbacks := s.fallbacks[cookie := now + cfg.fallbackSeconds])
  }

  /** An accepted claim: the acknowledgement, and on pairing the introductions and the timer. */
  function Welcome(cfg: Config, s: State, data: seq<u8>, addr: Address, now: real): (State, seq<Send>)
    requires 12 <= |data| && CookieOf(data) in s.sessions
  {
    var cookie := CookieOf(data);
    var session := s.sessions[cookie];
    var ack := [Send(WithType(data, INIT_ACK), addr)];
    if !Paired(session) then (s, Bounded(data, ack))
    else
      var responses := Bounded(data, ack + Introductions(session, cookie));
      if session.pairedAt.Some? then (s, responses)
      else
        var s1 := SetSession(s, cookie, session.(pairedAt := Some(now)));
        (if responses == [] then s1 else ScheduleFallback(cfg, s1, cookie, now), responses)
  }

  function HandleInit(cfg: Config, s: State, data: seq<u8>, addr: Address, now: real): (State, seq<Send>)
    requires 12 <= |data|
  {
    var cookie := CookieOf(data);
    if |data| < MIN_INIT_BYTES || data[13] > 1 then (s, [])
    else
      var index: Index := data[13];
      if cookie in s.relays then
        var relay := s.relays[cookie];
        if relay.endpoints[index].address != addr then (s, [])
        else (SetRelay(s, cookie, relay.(lastSeen := now)), Bounded(data, [Send(WithType(data, INIT_ACK), addr)]))
      else
        var claim := ClaimPeer(cfg, s, cookie, index, addr, data[6], now);
        if !claim.ok then (claim.state, []) else Welcome(cfg, claim.state, data, addr, now)
  }

  // ------------------------------------------------------------------ REPORT

  /** A success on the direct path: noted once a peer, and the fallback is called off. */
  function DirectSuccess(s: State, cookie: Cookie, index: Index): State
    requires cookie in s.sessions
  {
    var session := s.sessions[cookie];
    if index in session.reports then s
    else
      SetSession(s, cookie, session.(reports := session.reports + {index}))
      .(fallbacks := s.fallbacks - {cookie})
  }

  /** `_record_report`. */
  function RecordReport(s: State, cookie: Cookie, index: Index, success: bool, addr: Address, now: real): State {
    if cookie !in s.sessions || index !in s.sessions[cookie].peers
       || s.sessions[cookie].peers[index].address != addr
    then s
    else
      var s1 := TouchSession(s, cookie, now);
      if !success then s1
      else if cookie in s1.relays && s1.relays[cookie].ready != {} then
        SetRelay(s1, cookie, s1.relays[cookie].(reports := s1.relays[cookie].reports + {index}))
      else
        DirectSuccess(Finish(s1, {cookie}), cookie, index)
  }

  function HandleReport(s: State, data: seq<u8>, addr: Address, now: real): (State, seq<Send>)
    requires 12 <= |data|
  {
    if |data| < 23 || data[13] > 1 || data[14] > 1 then (s, [])
    else
      (RecordReport(s, CookieOf(data), data[13], data[14] == 1, addr, now),
       Bounded(data, [Send(WithType(data, REPORT_ACK), addr)]))
  }

  /** `handle_datagram`; a raised error answers nothing. */
  function HandleNegotiation(cfg: Config, s: State, data: seq<u8>, addr: Address, now: real): (State, seq<Send>) {
    if |data| > cfg.packetBytes || |data| < 12 then (s, [])
    else
      var kind := data[7];
      if s.draining && kind == INIT && CookieOf(data) !in s.sessions then (s, [])
      else if kind == INIT then HandleInit(cfg, s, data, addr, now)
      else if kind == ADDRESS_CHECK then (s, Bounded(data, [Send(AddressReply(data, addr), addr)]))
      else if kind == NATIFY_REQUEST then (s, Bounded(data, [Send(WithType(data, ERT_TEST), addr)]))
      else if kind == REPORT then HandleReport(s, data, addr, now)
      else if kind == PREINIT then (s, Bounded(data, [Send(PreinitReply(data), addr)]))
      else (s, [])
  }

  /** A datagram once the idle relays are gone: a relay's ping, relay traffic, or negotiation. */
  function Dispatch(cfg: Config, s: State, data: seq<u8>, addr: Address, now: real): (State, seq<Send>) {
    if TakesPing(s, data, addr) then (HandlePing(s, addr, now), [])
    else if !HasMagic(data) then Forward(cfg, s, data, addr, now)
    else
      var (s', responses) := HandleNegotiation(cfg, s, data, addr, now);
      (s', if s.connected then responses else [])
  }

  /** `datagram_received` for a datagram that admission let pass. */
  function Receive(cfg: Config, s: State, data: seq<u8>, addr: Address, now: real): (State, seq<Send>) {
    Dispatch(cfg, ExpireRelays(cfg, s, now, false), data, addr, now)
  }

  // ---------------------------------------------------------------- fallback

  predicate MayActivate(cfg: Config, s: State, cookie: Cookie) {
    && !s.draining && s.connected && cfg.auto
    && cookie in s.sessions && s.sessions[cookie].peers.Keys == {0, 1}
    && s.sessions[cookie].reports == {} && cookie !in s.relays
  }

  /** The 21 bytes of INIT that each peer sent pay for its CONNECT and its ping. */
  predicate PingsPaidFor(session: Session, cookie: Cookie)
    requires Paired(session)
  {
    forall i: Index :: i in session.peers ==>
      WithinAmplification(
        MIN_INIT_BYTES,
        MIN_INIT_BYTES
        + |ConnectPacket(session.peers[i].version, cookie, session.peers[1 - i].address)|
        + |RelayPing(session.peers[i].version, cookie)|)
  }

  function OpenRelay(cfg: Config, s: State, cookie: Cookie, now: real): (State, seq<Send>)
    requires cookie in s.sessions && Paired(s.sessions[cookie])
  {
    var session := s.sessions[cookie];
    var (zero, one) := (session.peers[0], session.peers[1]);
    var full := Full(RelayLimits(cfg), now);
    var relay := Relay([Endpoint(zero.address, full), Endpoint(one.address, full)], now, now, {}, {});
    var pings := [Send(RelayPing(zero.version, cookie), zero.address),
                  Send(RelayPing(one.version, cookie), one.address)];
    (s.(relays := s.relays[cookie := relay],
        expirations := s.expirations[cookie := now + cfg.sessionSeconds],
        byAddress := s.byAddress[zero.address := Binding(cookie, 0)][one.address := Binding(cookie, 1)],
        sessions := s.sessions[cookie := session.(activations := session.activations + 1)],
        activated := s.activated + 1),
     if session.opener == 0 then pings else [pings[1], pings[0]])
  }

  /** The relays that hold one of the two addresses. */
  function HoldersOf(s: State, session: Session): set<Cookie>
    requires Paired(session)
  {
    set i: Index | i in session.peers && session.peers[i].address in s.byAddress
      :: s.byAddress[session.peers[i].address].cookie
  }

  /** `_activate_relay`. */
  function Activate(cfg: Config, s: State, cookie: Cookie, now: real): (State, seq<Send>) {
    var s := s.(fallbacks := s.fallbacks - {cookie});
    if !MayActivate(cfg, s, cookie) then (s, [])
    else
      var session := s.sessions[cookie];
      var s1 := ExpireRelays(cfg, s, now, true);
      if |s1.relays| >= cfg.maxRelays
         || session.peers[0].address == session.peers[1].address
         || !PingsPaidFor(session, cookie)
      then (s1, [])
      else OpenRelay(cfg, Finish(s1, HoldersOf(s1, session)), cookie, now)
  }

  // ------------------------------------------------------------------- steps

  /** `_expire_relay_after_idle`. */
  function IdleTimer(cfg: Config, s: State, cookie: Cookie, now: real): State {
    if cookie !in s.relays then s.(expirations := s.expirations - {cookie})
    else
      var remaining := cfg.sessionSeconds - (now - s.relays[cookie].lastSeen);
      if remaining > 0.0 then s.(expirations := s.expirations[cookie := now + remaining])
      else Finish(s, {cookie})
  }

  datatype Event =
    | ConnectionMade
    | ConnectionLost
    | Datagram(data: seq<u8>, from: Address, admitted: bool)
    | FallbackDue(cookie: Cookie)
    | IdleDue(cookie: Cookie)
    | SweepSessions
    | RequestDrain
    | BeginDrain
    | CloseRelays

  function Step(cfg: Config, s: State, now: real, e: Event): (State, seq<Send>) {
    match e
    case ConnectionMade => (s.(connected := true), [])
    case ConnectionLost =>
      (Finish(s.(fallbacks := map[]), s.relays.Keys).(expirations := map[], connected := false), [])
    case Datagram(data, from, admitted) =>
      if admitted then Receive(cfg, s, data, from, now) else (s, [])
    case FallbackDue(cookie) =>
      if cookie in s.fallbacks && s.fallbacks[cookie] <= now then Activate(cfg, s, cookie, now) else (s, [])
    case IdleDue(cookie) =>
      if cookie in s.expirations && s.expirations[cookie] <= now then (IdleTimer(cfg, s, cookie, now), [])
      else (s, [])
    case SweepSessions => (ExpireSessions(cfg, s, now), [])
    case RequestDrain => (s.(draining := true), [])
    case BeginDrain => (s.(fallbacks := map[]), [])
    case CloseRelays => (Finish(s, s.relays.Keys), [])
  }

  datatype Moment = Moment(time: real, event: Event)

  function Reach(cfg: Config, run: seq<Moment>): State {
    if run == [] then START
    else
      var m := run[|run| - 1];
      Step(cfg, Reach(cfg, run[..|run| - 1]), m.time, m.event).0
  }

  /** What the last moment of the run sent. */
  function LastSent(cfg: Config, run: seq<Moment>): seq<Send>
    requires run != []
  {
    var m := run[|run| - 1];
    Step(cfg, Reach(cfg, run[..|run| - 1]), m.time, m.event).1
  }
}
