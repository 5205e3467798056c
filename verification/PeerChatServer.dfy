/**
 * The PeerChat server object: `PeerChatServer` together with the fields of its clients and channels.
 * Each command method is proved to take the step of `PeerChat` it implements.
 */
module PeerChatServers {
  import opened Wrappers
  import opened TokenBuckets
  import opened PeerChat
  import opened PeerChatCoherence
  import PeerChatSafety

  lemma RenamedNext(channels: map<string, Channel>, done: set<string>, k: string, was: string, name: string, id: Id)
    requires k !in done && k in channels
    ensures var part := RenamedIn(channels, done, was, name, id);
            k in part && part[k := Renamed(part[k], was, name, id)] == RenamedIn(channels, done + {k}, was, name, id)
  {
  }

  lemma LeftNext(channels: map<string, Channel>, done: set<string>, k: string, member: string)
    requires k !in done && k in channels
    ensures var part := LeftBehind(channels, done, member);
            && k in part
            && LeftBehind(channels, done + {k}, member)
               == if Without(part[k], member).users == map[] then part - {k} else part[k := Without(part[k], member)]
  {
  }

  lemma LeftMissing(channels: map<string, Channel>, done: set<string>, k: string, member: string)
    requires k !in channels
    ensures k !in LeftBehind(channels, done, member)
    ensures LeftBehind(channels, done + {k}, member) == LeftBehind(channels, done, member)
  {
  }

  lemma NoneYet(channels: map<string, Channel>, was: string, name: string, id: Id)
    ensures RenamedIn(channels, {}, was, name, id) == channels && LeftBehind(channels, {}, was) == channels
  {
  }

  /** The budget of a client does not depend on the rooms. */
  lemma UpdateElsewhere(c: Config, s: State, rooms: map<string, Channel>, id: Id, now: real, keys: map<string,
          string>, updates: map<string, string>)
    requires id in s.connections
    ensures var t := s.(channels := rooms);
            && UpdateKeys(c, t, id, now, keys, updates).0 == UpdateKeys(c, s, id, now, keys, updates).0.(channels := rooms)
            && UpdateKeys(c, t, id, now, keys, updates).1 == UpdateKeys(c, s, id, now, keys, updates).1
  {
    hide Charge, Fresh;
  }

  lemma PutTwice(m: map<string, Channel>, k: string, a: Channel, b: Channel)
    ensures m[k := a][k := b] == m[k := b]
  {
  }

  lemma WithKeysHas(ch: Channel, member: string, keys: map<string, string>)
    ensures member in WithKeysOf(ch, member, keys).clientKeys
    ensures WithKeysOf(ch, member, keys).clientKeys[member] == keys
  {
  }

  lemma SpendKeepsFace(c: Config, s: State, id: Id, now: real, cost: nat)
    requires id in s.connections
    ensures var t := Spend(c, s, id, now, cost);
            t.connections[id] == s.connections[id].(creations := t.connections[id].creations)
  {
    hide Charge;
  }

  class PeerChatServer {
    const config: Config
    var clients: map<string, Id>
    var channels: map<string, Channel>
    var connections: map<Id, Client>

    ghost function Value(): State
      reads this
    {
      State(clients, channels, connections)
    }

    constructor (config: Config)
      ensures this.config == config && Value() == EMPTY
    {
      this.config := config;
      clients, channels, connections := map[], map[], map[];
    }

    /** `handle`, up to the read loop. */
    method Connect(id: Id, now: real)
      requires id !in connections
      modifies this
      ensures Value() == Step(config, old(Value()), Event.Connect(id, now))
    {
      connections := connections[id := Newcomer(config, now)];
    }

    /** `_consume_state_creation_budget`. */
    method ConsumeStateCreationBudget(id: Id, now: real, cost: nat) returns (ok: bool)
      requires id in connections
      modifies `connections
      ensures ok == Affords(config, old(connections[id]), now, cost)
      ensures Value() == Spend(config, old(Value()), id, now, cost)
    {
      if cost == 0 {
        return true;
      }
      var cl := connections[id];
      ok := Accepts(config.creationLimits, cl.creations, now, cost as real);
      connections := connections[id := cl.(creations := Charge(config.creationLimits, cl.creations, now, cost as real))];
    }

    /** `_welcome`. */
    method Welcome(id: Id)
      requires id in connections
      modifies `connections
      ensures Value() == PeerChat.Welcome(old(Value()), id)
    {
      var cl := connections[id];
      if cl.welcomed || cl.nick == "" || cl.user == "" {
        return;
      }
      connections := connections[id := cl.(welcomed := true)];
    }

    /** The loop of `cmd_nick` over the client's own rooms. */
    method RenameInRooms(joined: set<string>, was: string, name: string, id: Id)
      requires joined <= channels.Keys
      modifies `channels
      ensures channels == RenamedIn(old(channels), joined, was, name, id)
    {
      var todo := joined;
      ghost var done: set<string> := {};
      NoneYet(channels, was, name, id);
      while todo != {}
        invariant todo + done == joined && todo !! done
        invariant channels == RenamedIn(old(channels), done, was, name, id)
      {
        var k :| k in todo;
        RenamedNext(old(channels), done, k, was, name, id);
        var channel := channels[k];
        channel := channel.(users := (channel.users - {was})[name := id]);
        var keys := if was in channel.clientKeys then channel.clientKeys[was] else map[];
        channel := channel.(clientKeys := (channel.clientKeys - {was})[name := keys]);
        if was in channel.operators {
          channel := channel.(operators := channel.operators - {was} + {name});
        }
        channels := channels[k := channel];
        todo, done := todo - {k}, done + {k};
      }
      assert done == joined;
    }

    /** `cmd_nick`. */
    method SetNick(id: Id, now: real, nick: string) returns (reply: Reply)
      requires Coherent(config, Value()) && id in connections && !connections[id].closed
      modifies this
      ensures Outcome(Value(), reply) == PeerChat.SetNick(config, old(Value()), id, now, nick)
    {
      hide Coherent;
      if nick == "" || |nick| > 31 {
        return Refused(432);
      }
      var was, name := config.fold(connections[id].nick), config.fold(nick);
      if name in clients && clients[name] != id {
        return Refused(433);
      }
      ListedRooms(config, Value(), id);
      if was != name {
        var ok := ConsumeStateCreationBudget(id, now, 1);
        if !ok {
          return Refused(263);
        }
      }
      var cl := connections[id];
      if cl.nick != "" {
        clients := clients - {was};
      }
      connections := connections[id := cl.(nick := nick)];
      clients := clients[name := id];
      if cl.nick != "" {
        RenameInRooms(cl.channels, was, name, id);
      }
      Welcome(id);
      return Done;
    }

    /** `cmd_user`. */
    method SetUser(id: Id, user: string)
      requires id in connections
      modifies `connections
      ensures Value() == PeerChat.SetUser(old(Value()), id, user)
    {
      var cl := connections[id];
      connections := connections[id := cl.(user := user, userKeys := cl.userKeys["username" := user])];
      Welcome(id);
    }

    /** `cmd_join`. */
    method Join(id: Id, now: real, name: string) returns (reply: Reply)
      requires id in connections
      modifies this
      ensures Outcome(Value(), reply) == PeerChat.Join(config, old(Value()), id, now, name)
      ensures old(Coherent(config, Value()) && !connections[id].closed) ==>
                (id in connections
                 && (IsMember(config, Value(), id, config.fold(name))
                     <==> old(IsMember(config, Value(), id, config.fold(name))) || reply.Done?))
    {
      hide Accepts, Charge, Entered, Spend, Affords, Coherent;
      if Coherent(config, Value()) && !connections[id].closed {
        PeerChatSafety.JoinSucceedsIff(config, Value(), id, now, name);
      }
      var cl := connections[id];
      if !cl.welcomed {
        return Refused(451);
      }
      if name == "" {
        return Refused(461);
      }
      var k, f := config.fold(name), config.fold(cl.nick);
      var member := k in channels && f in channels[k].users;
      if !member && |cl.channels| >= config.roomsPerClient {
        return Refused(405);
      } else if k !in channels && |channels| >= config.rooms {
        return Refused(405);
      }
      if k in channels && !member && channels[k].limit.Some? && |channels[k].users| >= channels[k].limit.value {
        return Refused(471);
      }
      var cost := if member then 0 else if k in channels then 1 else 2;
      SpendKeepsFace(config, Value(), id, now, cost);
      var ok := ConsumeStateCreationBudget(id, now, cost);
      if !ok {
        return Refused(263);
      }
      EnterRoom(id, name);
      return Done;
    }

    /** The end of `cmd_join`: the room if it is new, the user, its keys, its rank. */
    method EnterRoom(id: Id, name: string)
      requires id in connections
      modifies this
      ensures Value() == Enter(config, old(Value()), id, name)
    {
      var cl := connections[id];
      var k, f := config.fold(name), config.fold(cl.nick);
      ghost var before := channels;
      if k !in channels {
        channels := channels[k := NewRoom(config, name)];
      }
      var channel := channels[k];
      var first := channel.users == map[];
      channel := channel.(users := channel.users[f := id]);
      if f !in channel.clientKeys {
        channel := channel.(clientKeys := channel.clientKeys[f := map[]]);
      }
      if first {
        channel := channel.(operators := channel.operators + {f});
      }
      PutTwice(before, k, NewRoom(config, name), channel);
      channels := channels[k := channel];
      connections := connections[id := cl.(channels := cl.channels + {k})];
    }

    /** `_leave_channel`. */
    method LeaveChannel(id: Id, name: string) returns (reply: Reply)
      requires id in connections
      modifies this
      ensures Outcome(Value(), reply) == Part(config, old(Value()), id, name)
    {
      var cl := connections[id];
      var k, f := config.fold(name), config.fold(cl.nick);
      if k !in channels || f !in channels[k].users {
        return Ignored;
      }
      var channel := Without(channels[k], f);
      channels := channels[k := channel];
      connections := connections[id := cl.(channels := cl.channels - {config.fold(channel.name)})];
      if channel.users == map[] {
        channels := channels - {config.fold(channel.name)};
      }
      return Done;
    }

    /** `_update_key_collection`: the collection as it shall be, or None. */
    method UpdateKeyCollection(id: Id, now: real, collection: map<string, string>, updates: map<string, string>)
      returns (updated: Option<map<string, string>>)
      requires id in connections
      modifies `connections
      ensures (Value(), updated) == UpdateKeys(config, old(Value()), id, now, collection, updates)
      ensures updated.Some? <==>
                |collection + updates| <= config.keysPerCollection
                && old(Affords(config, connections[id], now, |collection + updates| - |collection|))
      ensures updated.Some? ==> forall k :: k in collection || k in updates ==>
                k in updated.value && updated.value[k] == if k in updates then updates[k] else collection[k]
    {
      PeerChatSafety.UpdatesLand(config, Value(), id, now, collection, updates);
      var requestedNew := |updates.Keys - collection.Keys|;
      if |collection| + requestedNew > config.keysPerCollection {
        return None;
      }
      var ok := ConsumeStateCreationBudget(id, now, requestedNew);
      return if ok then Some(collection + updates) else None;
    }

    /** `cmd_setkey`. */
    method SetKey(id: Id, now: real, updates: map<string, string>) returns (reply: Reply)
      requires id in connections
      modifies `connections
      ensures Outcome(Value(), reply) == PeerChat.SetKey(config, old(Value()), id, now, updates)
    {
      var updated := UpdateKeyCollection(id, now, connections[id].userKeys, updates);
      if updated.None? {
        return Refused(263);
      }
      connections := connections[id := connections[id].(userKeys := updated.value)];
      return Done;
    }

    /** `cmd_setchankey`. */
    method SetChanKey(id: Id, now: real, name: string, updates: map<string, string>) returns (reply: Reply)
      requires id in connections
      modifies this
      ensures Outcome(Value(), reply) == PeerChat.SetChanKey(config, old(Value()), id, now, name, updates)
    {
      var k := config.fold(name);
      if k !in channels {
        return Ignored;
      }
      var updated := UpdateKeyCollection(id, now, channels[k].keys, updates);
      if updated.None? {
        return Refused(263);
      }
      channels := channels[k := channels[k].(keys := updated.value)];
      return Done;
    }

    /** `cmd_setckey`. */
    method SetCKey(id: Id, now: real, name: string, nick: string, updates: map<string, string>) returns (reply: Reply)
      requires id in connections
      modifies this
      ensures Outcome(Value(), reply) == PeerChat.SetCKey(config, old(Value()), id, now, name, nick, updates)
    {
      hide UpdateKeys, WithKeysOf, KeysOf;
      var k := config.fold(name);
      if k !in channels || config.fold(nick) !in clients || clients[config.fold(nick)] !in connections {
        return Ignored;
      }
      var member := config.fold(connections[clients[config.fold(nick)]].nick);
      if member !in channels[k].users {
        return Ignored;
      }
      ghost var s := Value();
      WithKeysHas(channels[k], member, KeysOf(channels[k], member));
      var channel := WithKeysOf(channels[k], member, KeysOf(channels[k], member));
      channels := channels[k := channel];
      UpdateElsewhere(config, s, channels, id, now, channel.clientKeys[member], updates);
      var updated := UpdateKeyCollection(id, now, channel.clientKeys[member], updates);
      if updated.None? {
        return Refused(263);
      }
      PutTwice(s.channels, k, channel, WithKeysOf(channel, member, updated.value));
      channels := channels[k := WithKeysOf(channel, member, updated.value)];
      return Done;
    }

    /** `cmd_mode` with +o or -o. */
    method SetMode(id: Id, now: real, name: string, grant: bool, nick: string) returns (reply: Reply)
      requires id in connections
      modifies this
      ensures Outcome(Value(), reply) == PeerChat.SetMode(config, old(Value()), id, now, name, grant, nick)
    {
      var k, operator := config.fold(name), config.fold(nick);
      if k !in channels {
        return Ignored;
      }
      if grant {
        if operator !in channels[k].users {
          return Refused(441);
        }
        if operator !in channels[k].operators {
          var ok := ConsumeStateCreationBudget(id, now, 1);
          if !ok {
            return Refused(263);
          }
        }
        channels := channels[k := channels[k].(operators := channels[k].operators + {operator})];
      } else {
        channels := channels[k := channels[k].(operators := channels[k].operators - {operator})];
      }
      return Done;
    }

    /** `disconnect`. */
    method Disconnect(id: Id)
      requires id in connections
      modifies this
      ensures Value() == PeerChat.Disconnect(config, old(Value()), id)
    {
      var cl := connections[id];
      if cl.closed {
        return;
      }
      connections := connections[id := cl.(closed := true)];
      var f := config.fold(cl.nick);
      var todo := cl.channels;
      ghost var done: set<string> := {};
      NoneYet(channels, f, f, id);
      while todo != {}
        invariant todo + done == cl.channels && todo !! done
        invariant channels == LeftBehind(old(channels), done, f)
        invariant clients == old(clients) && connections == old(connections)[id := cl.(closed := true)]
      {
        var k :| k in todo;
        if k in old(channels) {
          LeftNext(old(channels), done, k, f);
        } else {
          LeftMissing(old(channels), done, k, f);
        }
        if k in channels {
          var channel := Without(channels[k], f);
          channels := channels[k := channel];
          if channel.users == map[] {
            channels := channels - {k};
          }
        }
        todo, done := todo - {k}, done + {k};
      }
      assert done == cl.channels;
      if cl.nick != "" {
        clients := clients - {f};
      }
    }

    /** `command`: one line of an open connection. */
    method Command(id: Id, now: real, command: PeerChat.Command) returns (reply: Reply)
      requires config.Valid() && Coherent(config, Value()) && id in connections && !connections[id].closed
      modifies this
      ensures Outcome(Value(), reply) == Receive(config, old(Value()), id, now, command)
      ensures Coherent(config, Value())
    {
      hide Coherent, Charge, Accepts, PeerChat.Disconnect, PeerChat.SetNick, PeerChat.SetUser, PeerChat.Join, PeerChat.Part,
        PeerChat.SetKey, PeerChat.SetChanKey, PeerChat.SetCKey, PeerChat.SetMode;
      StepKeeps(config, Value(), Line(id, now, command));
      ChargeCommandKeeps(config, Value(), id, now);
      var cl := connections[id];
      var ok := Accepts(config.commandLimits, cl.commands, now, 1.0);
      connections := connections[id := cl.(commands := Charge(config.commandLimits, cl.commands, now, 1.0))];
      if !ok {
        Disconnect(id);
        return Ignored;
      }
      match command {
        case Nick(nick) => reply := SetNick(id, now, nick);
        case User(user) => SetUser(id, user); reply := Done;
        case JoinRoom(name) => reply := Join(id, now, name);
        case PartRoom(name) => reply := LeaveChannel(id, name);
        case Key(updates) => reply := SetKey(id, now, updates);
        case ChanKey(name, updates) => reply := SetChanKey(id, now, name, updates);
        case CKey(name, nick, updates) => reply := SetCKey(id, now, name, nick, updates);
        case Mode(name, grant, nick) => reply := SetMode(id, now, name, grant, nick);
        case Topic(name, topic) =>
          var k := config.fold(name);
          if k !in channels || topic == "" {
            return Ignored;
          }
          channels := channels[k := channels[k].(topic := topic)];
          reply := Done;
        case Quit => Disconnect(id); reply := Done;
        case Query => reply := Done;
      }
    }
  }

  lemma ListedRooms(c: Config, s: State, id: Id)
    requires Coherent(c, s) && id in s.connections && !s.connections[id].closed
    ensures s.connections[id].channels <= s.channels.Keys
  {
    assert RoomsSound(c, s, id);
  }
}
