/**
 * The PeerChat server's rooms: who is called what, who is in which room, who may do what, and the
 * keys people set.  Each command runs to completion, on a connection that is still open.
 */
module PeerChat {
  import opened Wrappers
  import opened TokenBuckets

  type Id = nat

  /** Names are compared case-folded; `fold` stands for Python's `str.casefold`. */
  datatype Config = Config(
    fold: string -> string,
    staging: string,
    rooms: nat,
    roomsPerClient: nat,
    keysPerCollection: nat,
    commandLimits: Limits,
    creationLimits: Limits)
  {
    /** What config.py enforces, and that folding makes no name empty. */
    ghost predicate Valid() {
      1 <= keysPerCollection && forall name: string :: name != "" ==> fold(name) != fold("")
    }
  }

  datatype Client = Client(
    nick: string,
    user: string,
    welcomed: bool,
    closed: bool,
    userKeys: map<string, string>,
    channels: set<string>,
    commands: Bucket,
    creations: Bucket)

  datatype Channel = Channel(
    name: string,
    users: map<string, Id>,
    keys: map<string, string>,
    clientKeys: map<string, map<string, string>>,
    topic: string,
    operators: set<string>,
    limit: Option<nat>)

  datatype State = State(clients: map<string, Id>, channels: map<string, Channel>, connections: map<Id, Client>)

  /** How a command ends: carried out, without effect, or refused with a numeric reply. */
  datatype Reply = Done | Ignored | Refused(code: nat)

  datatype Outcome = Outcome(state: State, reply: Reply)

  function Newcomer(c: Config, now: real): Client {
    Client("", "", false, false, map["username" := ""], {}, Full(c.commandLimits, now), Full(c.creationLimits, now))
  }

  // ----------------------------------------------------------------- budgets

  predicate Affords(c: Config, cl: Client, now: real, cost: nat) {
    cost == 0 || Accepts(c.creationLimits, cl.creations, now, cost as real)
  }

  /** `_consume_state_creation_budget`: a call for nothing does not touch the bucket. */
  function Spend(c: Config, s: State, id: Id, now: real, cost: nat): (r: State)
    requires id in s.connections
    ensures r.connections.Keys == s.connections.Keys && r.clients == s.clients && r.channels == s.channels
  {
    if cost == 0 then s
    else
      var cl := s.connections[id];
      s.(connections := s.connections[id := cl.(creations := Charge(c.creationLimits, cl.creations, now, cost as real))])
  }

  // ------------------------------------------------------------------- names

  function Welcome(s: State, id: Id): State
    requires id in s.connections
  {
    var cl := s.connections[id];
    if cl.welcomed || cl.nick == "" || cl.user == "" then s
    else s.(connections := s.connections[id := cl.(welcomed := true)])
  }

  function Renamed(ch: Channel, was: string, name: string, id: Id): Channel {
    ch.(users := (ch.users - {was})[name := id],
        clientKeys := (ch.clientKeys - {was})[name := if was in ch.clientKeys then ch.clientKeys[was] else map[]],
        operators := if was in ch.operators then ch.operators - {was} + {name} else ch.operators)
  }

  /** The rooms in `joined` after one of their members changed its folded nick. */
  function RenamedIn(channels: map<string, Channel>, joined: set<string>, was: string, name: string,
          id: Id): map<string, Channel> {
    map k | k in channels :: if k in joined then Renamed(channels[k], was, name, id) else channels[k]
  }

  function Rename(c: Config, s: State, id: Id, nick: string): State
    requires id in s.connections
  {
    var cl := s.connections[id];
    var was := c.fold(cl.nick);
    var name := c.fold(nick);
    State((if cl.nick == "" then s.clients else s.clients - {was})[name := id],
          if cl.nick == "" then s.channels else RenamedIn(s.channels, cl.channels, was, name, id),
          s.connections[id := cl.(nick := nick)])
  }

  predicate NickInUse(c: Config, s: State, id: Id, nick: string) {
    c.fold(nick) in s.clients && s.clients[c.fold(nick)] != id
  }

  function NickCost(c: Config, cl: Client, nick: string): nat {
    if c.fold(cl.nick) != c.fold(nick) then 1 else 0
  }

  /** `cmd_nick`. */
  function SetNick(c: Config, s: State, id: Id, now: real, nick: string): Outcome
    requires id in s.connections
  {
    var cl := s.connections[id];
    if nick == "" || |nick| > 31 then Outcome(s, Refused(432))
    else if NickInUse(c, s, id, nick) then Outcome(s, Refused(433))
    else
      var cost := NickCost(c, cl, nick);
      var spent := Spend(c, s, id, now, cost);
      if !Affords(c, cl, now, cost) then Outcome(spent, Refused(263))
      else Outcome(Welcome(Rename(c, spent, id, nick), id), Done)
  }

  /** `cmd_user`. */
  function SetUser(s: State, id: Id, user: string): State
    requires id in s.connections
  {
    var cl := s.connections[id];
    Welcome(s.(connections := s.connections[id := cl.(user := user, userKeys := cl.userKeys["username" := user])]), id)
  }

  // ------------------------------------------------------------------- rooms

  /** Staging rooms, where two players meet, hold no third. */
  function ParticipantLimit(c: Config, folded: string): Option<nat> {
    if c.staging <= folded then Some(2) else None
  }

  function NewRoom(c: Config, name: string): Channel {
    Channel(name, map[], map[], map[], "", {}, ParticipantLimit(c, c.fold(name)))
  }

  function Entered(ch: Channel, member: string, id: Id): Channel {
    ch.(users := ch.users[member := id],
        clientKeys := if member in ch.clientKeys then ch.clientKeys else ch.clientKeys[member := map[]],
        operators := if ch.users == map[] then ch.operators + {member} else ch.operators)
  }

  function Enter(c: Config, s: State, id: Id, name: string): State
    requires id in s.connections
  {
    var cl := s.connections[id];
    var k := c.fold(name);
    var ch := if k in s.channels then s.channels[k] else NewRoom(c, name);
    s.(channels := s.channels[k := Entered(ch, c.fold(cl.nick), id)],
       connections := s.connections[id := cl.(channels := cl.channels + {k})])
  }

  predicate IsMember(c: Config, s: State, id: Id, k: string)
    requires id in s.connections
  {
    k in s.channels && c.fold(s.connections[id].nick) in s.channels[k].users
  }

  function JoinCost(c: Config, s: State, id: Id, k: string): nat
    requires id in s.connections
  {
    if IsMember(c, s, id, k) then 0 else if k in s.channels then 1 else 2
  }

  /** The code of the first limit that a join would break; 0 for none. */
  function JoinRefusal(c: Config, s: State, id: Id, name: string): nat
    requires id in s.connections
  {
    var cl := s.connections[id];
    var k := c.fold(name);
    var member := IsMember(c, s, id, k);
    if !cl.welcomed then 451
    else if name == "" then 461
    else if !member && |cl.channels| >= c.roomsPerClient then 405
    else if k !in s.channels && |s.channels| >= c.rooms then 405
    else if k in s.channels && !member && s.channels[k].limit.Some? && |s.channels[k].users| >= s.channels[k].limit.value then 471
    else 0
  }

  /** `cmd_join`. */
  function Join(c: Config, s: State, id: Id, now: real, name: string): Outcome
    requires id in s.connections
  {
    if JoinRefusal(c, s, id, name) != 0 then Outcome(s, Refused(JoinRefusal(c, s, id, name)))
    else
      var cost := JoinCost(c, s, id, c.fold(name));
      var spent := Spend(c, s, id, now, cost);
      if !Affords(c, s.connections[id], now, cost) then Outcome(spent, Refused(263))
      else Outcome(Enter(c, spent, id, name), Done)
  }

  function Without(ch: Channel, member: string): Channel {
    ch.(users := ch.users - {member}, clientKeys := ch.clientKeys - {member}, operators := ch.operators - {member})
  }

  /** `cmd_part` and `_leave_channel`. */
  function Part(c: Config, s: State, id: Id, name: string): Outcome
    requires id in s.connections
  {
    var k := c.fold(name);
    if !IsMember(c, s, id, k) then Outcome(s, Ignored)
    else
      var cl := s.connections[id];
      var ch := s.channels[k];
      var left := Without(ch, c.fold(cl.nick));
      Outcome(
        s.(channels := if left.users == map[] then s.channels[k := left] - {c.fold(ch.name)} else s.channels[k := left],
           connections := s.connections[id := cl.(channels := cl.channels - {c.fold(ch.name)})]),
        Done)
  }

  // -------------------------------------------------------------------- keys

  function Fresh(collection: map<string, string>, updates: map<string, string>): nat {
    |updates.Keys - collection.Keys|
  }

  predicate Overflows(c: Config, collection: map<string, string>, updates: map<string, string>) {
    |collection| + Fresh(collection, updates) > c.keysPerCollection
  }

  /** `_update_key_collection`: the state after the budget, and the collection if it may change. */
  function UpdateKeys(c: Config, s: State, id: Id, now: real, collection: map<string, string>, updates: map<string,
          string>)
    : (r: (State, Option<map<string, string>>))
    requires id in s.connections
    ensures r.0.connections.Keys == s.connections.Keys && r.0.clients == s.clients && r.0.channels == s.channels
  {
    if Overflows(c, collection, updates) then (s, None)
    else
      var cost := Fresh(collection, updates);
      (Spend(c, s, id, now, cost), if Affords(c, s.connections[id], now, cost) then Some(collection + updates) else None)
  }

  function SetKey(c: Config, s: State, id: Id, now: real, updates: map<string, string>): Outcome
    requires id in s.connections
  {
    var r := UpdateKeys(c, s, id, now, s.connections[id].userKeys, updates);
    if r.1.None? then Outcome(r.0, Refused(263))
    else Outcome(r.0.(connections := r.0.connections[id := r.0.connections[id].(userKeys := r.1.value)]), Done)
  }

  function SetChanKey(c: Config, s: State, id: Id, now: real, name: string, updates: map<string, string>): Outcome
    requires id in s.connections
  {
    var k := c.fold(name);
    if k !in s.channels then Outcome(s, Ignored)
    else
      var r := UpdateKeys(c, s, id, now, s.channels[k].keys, updates);
      if r.1.None? then Outcome(r.0, Refused(263))
      else Outcome(r.0.(channels := s.channels[k := s.channels[k].(keys := r.1.value)]), Done)
  }

  /** `channel.client_keys.setdefault`. */
  function KeysOf(ch: Channel, member: string): map<string, string> {
    if member in ch.clientKeys then ch.clientKeys[member] else map[]
  }

  function WithKeysOf(ch: Channel, member: string, keys: map<string, string>): Channel {
    ch.(clientKeys := ch.clientKeys[member := keys])
  }

  function SetCKey(c: Config, s: State, id: Id, now: real, name: string, nick: string, updates: map<string,
          string>): Outcome
    requires id in s.connections
  {
    var k := c.fold(name);
    if k !in s.channels || c.fold(nick) !in s.clients || s.clients[c.fold(nick)] !in s.connections then Outcome(s, Ignored)
    else
      var member := c.fold(s.connections[s.clients[c.fold(nick)]].nick);
      if member !in s.channels[k].users then Outcome(s, Ignored)
      else
        var ch := WithKeysOf(s.channels[k], member, KeysOf(s.channels[k], member));
        var r := UpdateKeys(c, s, id, now, ch.clientKeys[member], updates);
        if r.1.None? then Outcome(r.0.(channels := s.channels[k := ch]), Refused(263))
        else Outcome(r.0.(channels := s.channels[k := WithKeysOf(ch, member, r.1.value)]), Done)
  }

  /** `cmd_mode` with +o (`grant`) or -o. */
  function SetMode(c: Config, s: State, id: Id, now: real, name: string, grant: bool, nick: string): Outcome
    requires id in s.connections
  {
    var k := c.fold(name);
    var operator := c.fold(nick);
    if k !in s.channels then Outcome(s, Ignored)
    else
      var ch := s.channels[k];
      if !grant then Outcome(s.(channels := s.channels[k := ch.(operators := ch.operators - {operator})]), Done)
      else if operator !in ch.users then Outcome(s, Refused(441))
      else
        var cost := if operator in ch.operators then 0 else 1;
        var spent := Spend(c, s, id, now, cost);
        if !Affords(c, s.connections[id], now, cost) then Outcome(spent, Refused(263))
        else Outcome(spent.(channels := s.channels[k := ch.(operators := ch.operators + {operator})]), Done)
  }

  function SetTopic(c: Config, s: State, name: string, topic: string): Outcome {
    var k := c.fold(name);
    if k !in s.channels || topic == "" then Outcome(s, Ignored)
    else Outcome(s.(channels := s.channels[k := s.channels[k].(topic := topic)]), Done)
  }

  // -------------------------------------------------------------- disconnect

  /** The rooms after `member` left those in `joined`; the rooms that it empties go. */
  function LeftBehind(channels: map<string, Channel>, joined: set<string>, member: string): map<string, Channel> {
    map k | k in channels && !(k in joined && Without(channels[k], member).users == map[]) ::
      if k in joined then Without(channels[k], member) else channels[k]
  }

  /** `disconnect`.  The closed connection keeps its own fields. */
  function Disconnect(c: Config, s: State, id: Id): State
    requires id in s.connections
  {
    var cl := s.connections[id];
    if cl.closed then s
    else
      State(if cl.nick == "" then s.clients else s.clients - {c.fold(cl.nick)},
            LeftBehind(s.channels, cl.channels, c.fold(cl.nick)),
            s.connections[id := cl.(closed := true)])
  }

  // -------------------------------------------------------------------- runs

  datatype Command =
    | Nick(nick: string)
    | User(user: string)
    | JoinRoom(name: string)
    | PartRoom(name: string)
    | Key(updates: map<string, string>)
    | ChanKey(name: string, updates: map<string, string>)
    | CKey(name: string, nick: string, updates: map<string, string>)
    | Mode(name: string, grant: bool, nick: string)
    | Topic(name: string, topic: string)
    | Quit
    | Query

  function Handle(c: Config, s: State, id: Id, now: real, command: Command): Outcome
    requires id in s.connections
  {
    match command
    case Nick(nick) => SetNick(c, s, id, now, nick)
    case User(user) => Outcome(SetUser(s, id, user), Done)
    case JoinRoom(name) => Join(c, s, id, now, name)
    case PartRoom(name) => Part(c, s, id, name)
    case Key(updates) => SetKey(c, s, id, now, updates)
    case ChanKey(name, updates) => SetChanKey(c, s, id, now, name, updates)
    case CKey(name, nick, updates) => SetCKey(c, s, id, now, name, nick, updates)
    case Mode(name, grant, nick) => SetMode(c, s, id, now, name, grant, nick)
    case Topic(name, topic) => SetTopic(c, s, name, topic)
    case Quit => Outcome(Disconnect(c, s, id), Done)
    case Query => Outcome(s, Done)
  }

  function ChargeCommand(c: Config, s: State, id: Id, now: real): State
    requires id in s.connections
  {
    var cl := s.connections[id];
    s.(connections := s.connections[id := cl.(commands := Charge(c.commandLimits, cl.commands, now, 1.0))])
  }

  /** `command`: one line from an open connection; an exhausted command budget ends the connection. */
  function Receive(c: Config, s: State, id: Id, now: real, command: Command): Outcome
    requires id in s.connections
  {
    var cl := s.connections[id];
    if cl.closed then Outcome(s, Ignored)
    else if !Accepts(c.commandLimits, cl.commands, now, 1.0) then Outcome(Disconnect(c, ChargeCommand(c, s, id, now), id), Ignored)
    else Handle(c, ChargeCommand(c, s, id, now), id, now, command)
  }

  /** A new connection, a line received, or the end of a connection for whatever reason. */
  datatype Event = Connect(id: Id, now: real) | Line(id: Id, now: real, command: Command) | Drop(id: Id)

  function Step(c: Config, s: State, e: Event): State {
    match e
    case Connect(id, now) =>
      if id in s.connections then s else s.(connections := s.connections[id := Newcomer(c, now)])
    case Line(id, now, command) => if id in s.connections then Receive(c, s, id, now, command).state else s
    case Drop(id) => if id in s.connections then Disconnect(c, s, id) else s
  }

  const EMPTY := State(map[], map[], map[])

  function Run(c: Config, events: seq<Event>): State {
    if events == [] then EMPTY else Step(c, Run(c, events[..|events| - 1]), events[|events| - 1])
  }
}
