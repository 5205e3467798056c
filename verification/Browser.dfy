/**
 * The reported servers, the Server Browser's listing of them, and the subscriptions that push the
 * listing's changes: `ServerState` and the push task of `ServerBrowserServer`.
 */
module Browser {
  import opened Wrappers
  import opened Bytes
  import opened ServerKeys
  import opened ServerEntries

  /**
   * `packetBytes` is the longest QR datagram that is read; `matches` stands for the filter
   * expressions, which look at the keys only; `precedes` for the order of address tuples.
   */
  datatype Settings = Settings(
    entry: ServerEntries.Config,
    game: string,
    maxPlayers: nat,
    packetBytes: nat,
    ttl: real,
    capacity: nat,
    matches: (map<string, string>, string) -> bool,
    precedes: (Address, Address) -> bool)
  {
    ghost predicate Valid() {
      && entry.codec.Valid()
      && (forall a, b :: a != b ==> precedes(a, b) || precedes(b, a))
      && (forall a, b :: precedes(a, b) ==> !precedes(b, a))
      && (forall a, b, d :: precedes(a, b) && precedes(b, d) ==> precedes(a, d))
    }

    predicate Accepts(query: string) {
      query == game || query == game + "am"
    }
  }

  datatype Server = Server(instanceKey: seq<u8>, keys: Keys, registered: bool, lastSeen: real, registeredAt: real)

  type Servers = map<Address, Server>

  // ----------------------------------------------------------------- listing

  function Lookup(keys: map<string, string>, k: string, default: string): string {
    if k in keys then keys[k] else default
  }

  /** `active_servers` and the filter of `_listed_servers`. */
  predicate Matching(c: Settings, query: string, text: string, s: Server) {
    var keys := AsMap(s.keys);
    s.registered && c.Accepts(query) && "gamename" in keys && keys["gamename"] == query && c.matches(keys, text)
  }

  function MaxPlayers(c: Settings, s: Server): Decimal {
    ReadInt(c.entry, Lookup(AsMap(s.keys), "maxplayers", ""))
  }

  function Players(c: Settings, s: Server): Decimal {
    ReadInt(c.entry, Lookup(AsMap(s.keys), "numplayers", "0"))
  }

  /** A host that an automatch may join. */
  predicate HasRoom(c: Settings, s: Server) {
    var max, players := MaxPlayers(c, s), Players(c, s);
    max.Number? && players.Number? && max.value == c.maxPlayers && players.value < max.value
  }

  /** Both counts are decimal, and one of them makes int() raise. */
  predicate CountTooLong(c: Settings, s: Server) {
    var max, players := MaxPlayers(c, s), Players(c, s);
    !max.NotDecimal? && !players.NotDecimal? && (max.TooLong? || players.TooLong?)
  }

  predicate IsAutomatch(c: Settings, query: string) {
    query == c.game + "am"
  }

  function Candidates(c: Settings, query: string, text: string, servers: Servers): set<Address> {
    set a | a in servers && Matching(c, query, text, servers[a]) && (IsAutomatch(c, query) ==> HasRoom(c, servers[a]))
  }

  /** The sort order of `active_servers`. */
  predicate Before(c: Settings, servers: Servers, a: Address, b: Address)
    requires a in servers && b in servers
  {
    servers[a].registeredAt < servers[b].registeredAt
    || (servers[a].registeredAt == servers[b].registeredAt && c.precedes(a, b))
  }

  /** An automatch reads the counts of every server that matches. */
  ghost predicate ListingRaises(c: Settings, query: string, text: string, servers: Servers) {
    IsAutomatch(c, query) && exists a :: a in servers && Matching(c, query, text, servers[a]) && CountTooLong(c, servers[a])
  }

  /** `_listed_servers`, where it does not raise: all that match, or the oldest open host alone. */
  function Listed(c: Settings, query: string, text: string, servers: Servers): set<Address> {
    var all := Candidates(c, query, text, servers);
    if IsAutomatch(c, query) then set a | a in all && forall b :: b in all && b != a ==> Before(c, servers, a, b)
    else all
  }

  /** The entries of the listing, where they can be built. */
  function Entries(c: Settings, query: string, text: string, servers: Servers): map<Address, seq<u8>> {
    map a | a in Listed(c, query, text, servers) && a in servers :: Entry(c.entry, a, servers[a].keys)
  }

  ghost predicate EntriesRaise(c: Settings, query: string, text: string, servers: Servers) {
    || ListingRaises(c, query, text, servers)
    || exists a :: a in Listed(c, query, text, servers) && a in servers && PortTooLong(c.entry, servers[a].keys)
  }

  /** What a fresh subscription, or a flush, takes as known. */
  ghost function TryEntries(c: Settings, query: string, text: string, servers: Servers): Option<map<Address, seq<u8>>> {
    if EntriesRaise(c, query, text, servers) then None else Some(Entries(c, query, text, servers))
  }

  // ---------------------------------------------------------------- registry

  /** The reported servers, and for every connection whether its change event is set. */
  datatype Registry = Registry(servers: Servers, events: map<nat, bool>)

  function Notify(events: map<nat, bool>): map<nat, bool> {
    map id | id in events :: true
  }

  function NotifyIf(changed: bool, events: map<nat, bool>): map<nat, bool> {
    if changed then Notify(events) else events
  }

  predicate Retained(c: Settings, s: Server, now: real) {
    now - s.lastSeen <= c.ttl
  }

  function Expire(c: Settings, r: Registry, now: real): Registry {
    Registry(
      map a | a in r.servers && Retained(c, r.servers[a], now) :: r.servers[a],
      NotifyIf(exists a :: a in r.servers && r.servers[a].registered && !Retained(c, r.servers[a], now), r.events))
  }

  function Remove(r: Registry, source: Address): Registry {
    if source !in r.servers then r
    else Registry(r.servers - {source}, NotifyIf(r.servers[source].registered, r.events))
  }

  function Register(r: Registry, source: Address, now: real): Registry {
    if source !in r.servers then r
    else
      var s := r.servers[source];
      var since := if s.registered then s.registeredAt else now;
      Registry(r.servers[source := s.(registered := true, lastSeen := now, registeredAt := since)],
               NotifyIf(!s.registered, r.events))
  }

  /** `report_server` on a source that is known by now. */
  function Refresh(r: Registry, source: Address, instanceKey: seq<u8>, keys: Keys, now: real): Registry
    requires source in r.servers
  {
    var s := r.servers[source];
    var changed := s.instanceKey != instanceKey || AsMap(s.keys) != AsMap(keys);
    var t := Registry(r.servers[source := s.(instanceKey := instanceKey, keys := keys, lastSeen := now)],
                      NotifyIf(s.registered && changed, r.events));
    if Lookup(AsMap(keys), "statechanged", "") == "2" then Remove(t, source) else t
  }

  /** `report_server`; a new source that finds no room raises, after the expiry sweep. */
  function Report(c: Settings, r: Registry, source: Address, instanceKey: seq<u8>, keys: Keys, now: real): Registry {
    if source in r.servers then Refresh(r, source, instanceKey, keys, now)
    else
      var t := Expire(c, r, now);
      if |t.servers| >= c.capacity then t
      else
        var added := t.(servers := t.servers[source := Server(instanceKey, [], false, now, 0.0)]);
        Refresh(added, source, instanceKey, keys, now)
  }

  const KEYS_OFFSET: nat := 5

  /** What a heartbeat asks for; a malformed one raises and asks for nothing. */
  datatype Message = Nothing | Farewell | Status(keys: Keys)

  function ReadHeartbeat(c: Settings, data: seq<u8>): (r: Message)
    ensures r.Status? ==> 7 <= |data| <= c.packetBytes
  {
    if |data| > c.packetBytes || |data| < 7 then Nothing
    else
      var keys := ParseFrom(c.entry.codec, data[KEYS_OFFSET..], []);
      if keys.None? then Nothing
      else if Get(keys.value, "statechanged", "") == "2" then Farewell
      else if Fresh(keys.value, "gamename") || !c.Accepts(Get(keys.value, "gamename", "")) then Nothing
      else Status(keys.value)
  }

  /** `_heartbeat`, as far as it changes the registry. */
  function Heartbeat(c: Settings, r: Registry, source: Address, data: seq<u8>, now: real): Registry {
    match ReadHeartbeat(c, data)
    case Nothing => r
    case Farewell => Remove(r, source)
    case Status(keys) => Report(c, r, source, data[1..5], keys, now)
  }

  // ------------------------------------------------------------------ frames

  const DELETE: u8 := 4
  const PUSH: u8 := 2

  /** A payload behind its own length. */
  function Frame(payload: seq<u8>): seq<u8>
    requires |payload| + 2 < 0x1_0000
  {
    Big16(|payload| + 2) + payload
  }

  function DeleteFrame(a: Address): seq<u8> {
    Frame([DELETE] + a.host + Big16(a.port))
  }

  /** The room a frame leaves for an entry; struct.pack raises on the length of a longer one. */
  const MAX_ENTRY: nat := 65532

  function PushFrame(entry: seq<u8>): seq<u8>
    requires |entry| <= MAX_ENTRY
  {
    Frame([PUSH] + entry)
  }

  function DeleteFrames(deletes: seq<Address>): seq<seq<u8>> {
    if deletes == [] then [] else [DeleteFrame(deletes[0])] + DeleteFrames(deletes[1..])
  }

  /** The pushes of these sources, one by one; None as soon as one raises. */
  function PushFrames(pushes: seq<Address>, entries: map<Address, seq<u8>>): Option<seq<seq<u8>>>
    requires forall i :: 0 <= i < |pushes| ==> pushes[i] in entries
  {
    if pushes == [] then Some([])
    else if |entries[pushes[0]]| > MAX_ENTRY then None
    else
      var rest := PushFrames(pushes[1..], entries);
      if rest.None? then None else Some([PushFrame(entries[pushes[0]])] + rest.value)
  }

  /** The sources whose entry is new or has changed. */
  function Changed(known: map<Address, seq<u8>>, current: map<Address, seq<u8>>): set<Address> {
    set a | a in current && !(a in known && known[a] == current[a])
  }

  /** The sequence lists the set, in some order. */
  ghost predicate Enumerates(order: seq<Address>, all: set<Address>) {
    && (forall i, j :: 0 <= i < j < |order| ==> order[i] != order[j])
    && (forall a :: a in order <==> a in all)
  }

  /** What a client does with one frame; a frame it cannot read changes nothing. */
  function ApplyFrame(c: Settings, replica: map<Address, seq<u8>>, frame: seq<u8>): map<Address, seq<u8>> {
    if |frame| < 3 || FromBig16(frame[..2]) != |frame| then replica
    else if frame[2] == DELETE && |frame| == 9 then
      var host: Host := frame[3..7];
      replica - {Address(host, FromBig16(frame[7..9]))}
    else if frame[2] == PUSH && ParseEntry(c.entry, frame[3..]).Some? then
      replica[ParseEntry(c.entry, frame[3..]).value.source := frame[3..]]
    else replica
  }

  function ApplyFrames(c: Settings, replica: map<Address, seq<u8>>, frames: seq<seq<u8>>): map<Address, seq<u8>>
    decreases |frames|
  {
    if frames == [] then replica else ApplyFrames(c, ApplyFrame(c, replica, frames[0]), frames[1..])
  }

  // ------------------------------------------------------------------ system

  datatype Subscription = Subscription(query: string, text: string, known: map<Address, seq<u8>>)

  /**
   * `pushing` are the connections whose push task still runs; `replicas` is what the clients hold
   * that have applied every frame sent.
   */
  datatype State = State(
    registry: Registry,
    subscriptions: map<nat, Subscription>,
    pushing: set<nat>,
    replicas: map<nat, map<Address, seq<u8>>>)

  /** A flush may send its deletes and its pushes in any order. */
  datatype Event =
    | HeartbeatReceived(source: Address, data: seq<u8>, now: real)
    | Registered(source: Address, now: real)
    | Swept(now: real)
    | Connected(id: nat)
    | Subscribed(id: nat, query: string, text: string, now: real)
    | Unsubscribed(id: nat)
    | Flushed(id: nat, now: real, deletes: seq<Address>, pushes: seq<Address>)
    | Disconnected(id: nat)

  function Connect(s: State, id: nat): State {
    if id in s.registry.events then s
    else s.(registry := s.registry.(events := s.registry.events[id := false]), pushing := s.pushing + {id})
  }

  /** The end of a connection, and of its push task. */
  function Disconnect(s: State, id: nat): State {
    State(s.registry.(events := s.registry.events - {id}), s.subscriptions - {id}, s.pushing - {id}, s.replicas - {id})
  }

  /** A list request that asks for pushes.  Where its entries raise, it ends the connection. */
  ghost function Subscribe(c: Settings, s: State, id: nat, query: string, text: string, now: real): State {
    if id !in s.registry.events then s
    else if !c.Accepts(query) then s.(subscriptions := s.subscriptions - {id})
    else
      var registry := Expire(c, s.registry, now);
      match TryEntries(c, query, text, registry.servers)
      case None => Disconnect(s.(registry := registry), id)
      case Some(known) =>
        State(registry, s.subscriptions[id := Subscription(query, text, known)], s.pushing, s.replicas[id := known])
  }

  predicate FlushDue(s: State, id: nat) {
    id in s.pushing && id in s.registry.events && s.registry.events[id]
  }

  /** The frames go through the sources to delete and those to push, each once. */
  ghost predicate Orders(known: map<Address, seq<u8>>, current: map<Address, seq<u8>>, deletes: seq<Address>, pushes: seq<Address>) {
    Enumerates(deletes, known.Keys - current.Keys) && Enumerates(pushes, Changed(known, current))
  }

  /** `_subscription_frames`, on the entries as they stand. */
  ghost function RoundFrames(known: map<Address, seq<u8>>, current: map<Address, seq<u8>>, deletes: seq<Address>, pushes: seq<Address>)
    : Option<seq<seq<u8>>>
    requires Orders(known, current, deletes, pushes)
  {
    InOrder(pushes, Changed(known, current));
    var more := PushFrames(pushes, current);
    if more.None? then None else Some(DeleteFrames(deletes) + more.value)
  }

  function Cleared(r: Registry, id: nat): Registry {
    r.(events := r.events[id := false])
  }

  /**
   * One round of the push task.  The event is cleared first and the sweep runs next; what raises
   * after that ends the push task, with the subscription and the client as they were.
   */
  ghost function Flush(c: Settings, s: State, id: nat, now: real, deletes: seq<Address>, pushes: seq<Address>): State {
    if !FlushDue(s, id) then s
    else if id !in s.subscriptions then s.(registry := Cleared(s.registry, id))
    else
      var sub := s.subscriptions[id];
      var registry := Expire(c, Cleared(s.registry, id), now);
      var current := TryEntries(c, sub.query, sub.text, registry.servers);
      if current.None? then s.(registry := registry, pushing := s.pushing - {id})
      else if !Orders(sub.known, current.value, deletes, pushes) then s
      else
        match RoundFrames(sub.known, current.value, deletes, pushes)
        case None => s.(registry := registry, pushing := s.pushing - {id})
        case Some(frames) =>
          State(registry, s.subscriptions[id := sub.(known := current.value)], s.pushing,
                s.replicas[id := ApplyFrames(c, Replica(s, id), frames)])
  }

  function Replica(s: State, id: nat): map<Address, seq<u8>> {
    if id in s.replicas then s.replicas[id] else map[]
  }

  lemma InOrder(order: seq<Address>, all: set<Address>)
    requires Enumerates(order, all)
    ensures forall i :: 0 <= i < |order| ==> order[i] in all
  {
  }

  ghost function Step(c: Settings, s: State, e: Event): State {
    match e
    case HeartbeatReceived(source, data, now) => s.(registry := Heartbeat(c, s.registry, source, data, now))
    case Registered(source, now) => s.(registry := Register(s.registry, source, now))
    case Swept(now) => s.(registry := Expire(c, s.registry, now))
    case Connected(id) => Connect(s, id)
    case Subscribed(id, query, text, now) => Subscribe(c, s, id, query, text, now)
    case Unsubscribed(id) => s.(subscriptions := s.subscriptions - {id})
    case Flushed(id, now, deletes, pushes) => Flush(c, s, id, now, deletes, pushes)
    case Disconnected(id) => Disconnect(s, id)
  }

  const EMPTY := State(Registry(map[], map[]), map[], {}, map[])

  ghost function Run(c: Settings, events: seq<Event>): State {
    if events == [] then EMPTY else Step(c, Run(c, events[..|events| - 1]), events[|events| - 1])
  }
}
