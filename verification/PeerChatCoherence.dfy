/**
 * The maps of the PeerChat server agree with each other after every run.
 */
module PeerChatCoherence {
  import opened Wrappers
  import opened Collections
  import opened TokenBuckets
  import opened PeerChat

  // --------------------------------------------------------------- invariant

  /** An open connection that bears the folded nick `f`. */
  predicate Bears(c: Config, s: State, id: Id, f: string) {
    && id in s.connections && !s.connections[id].closed
    && s.connections[id].nick != "" && c.fold(s.connections[id].nick) == f
  }

  /** `clients` maps each folded nick to the open connection that bears it, and lists them all. */
  ghost predicate NicksSound(c: Config, s: State) {
    && (forall f :: f in s.clients ==> Bears(c, s, s.clients[f], f))
    && (forall id, f :: Bears(c, s, id, f) ==> f in s.clients && s.clients[f] == id)
  }

  /** Every user of a room bears that nick and has the room in its own list. */
  ghost predicate UsersSound(c: Config, s: State, k: string)
    requires k in s.channels
  {
    forall f :: f in s.channels[k].users ==>
      && Bears(c, s, s.channels[k].users[f], f)
      && k in s.connections[s.channels[k].users[f]].channels
  }

  ghost predicate RoomSound(c: Config, k: string, ch: Channel) {
    && c.fold(ch.name) == k && ch.users != map[]
    && ch.operators <= ch.users.Keys && ch.clientKeys.Keys == ch.users.Keys
    && |ch.keys| <= c.keysPerCollection && (forall f :: f in ch.clientKeys ==> |ch.clientKeys[f]| <= c.keysPerCollection)
    && ch.limit == ParticipantLimit(c, k) && (ch.limit.Some? ==> |ch.users| <= ch.limit.value)
  }

  /** A room on an open connection's list has that connection among its users. */
  ghost predicate RoomsSound(c: Config, s: State, id: Id)
    requires id in s.connections
  {
    var cl := s.connections[id];
    forall k :: k in cl.channels ==>
      && cl.nick != "" && k in s.channels
      && c.fold(cl.nick) in s.channels[k].users && s.channels[k].users[c.fold(cl.nick)] == id
  }

  ghost predicate ClientSound(c: Config, cl: Client) {
    && (cl.welcomed ==> cl.nick != "")
    && "username" in cl.userKeys && |cl.userKeys| <= c.keysPerCollection
    && |cl.channels| <= c.roomsPerClient
  }

  ghost predicate Coherent(c: Config, s: State) {
    && NicksSound(c, s) && |s.channels| <= c.rooms
    && (forall k :: k in s.channels ==> RoomSound(c, k, s.channels[k]) && UsersSound(c, s, k))
    && (forall id :: id in s.connections ==> ClientSound(c, s.connections[id]))
    && (forall id :: id in s.connections && !s.connections[id].closed ==> RoomsSound(c, s, id))
  }

  // ------------------------------------------- steps that move nobody around

  /** Two records of a connection that differ in budgets, keys, user name and welcome only. */
  predicate SameFace(a: Client, b: Client) {
    a.nick == b.nick && a.closed == b.closed && a.channels == b.channels
  }

  lemma FacesKeep(c: Config, s: State, t: State)
    requires Coherent(c, s) && t.clients == s.clients && t.channels == s.channels
    requires t.connections.Keys == s.connections.Keys
    requires forall id :: id in s.connections ==> SameFace(t.connections[id], s.connections[id]) && ClientSound(c, t.connections[id])
    ensures Coherent(c, t)
  {
    hide ClientSound, RoomSound;
    assert forall id, f :: Bears(c, t, id, f) <==> Bears(c, s, id, f);
    forall k | k in t.channels
      ensures UsersSound(c, t, k)
    {
      assert UsersSound(c, s, k);
    }
    forall id | id in t.connections && !t.connections[id].closed
      ensures RoomsSound(c, t, id)
    {
      assert RoomsSound(c, s, id);
    }
  }

  lemma SpendKeeps(c: Config, s: State, id: Id, now: real, cost: nat)
    requires Coherent(c, s) && id in s.connections
    ensures Coherent(c, Spend(c, s, id, now, cost))
    ensures SameFace(Spend(c, s, id, now, cost).connections[id], s.connections[id])
    ensures Spend(c, s, id, now, cost).connections[id].userKeys == s.connections[id].userKeys
    ensures Spend(c, s, id, now, cost).connections[id].welcomed == s.connections[id].welcomed
  {
    hide Coherent, Charge, ClientSound;
    SoundClients(c, s);
    BudgetsAside(c, s, id, Spend(c, s, id, now, cost).connections[id].commands, Spend(c, s, id, now,
        cost).connections[id].creations);
    FacesKeep(c, s, Spend(c, s, id, now, cost));
  }

  lemma BudgetsAside(c: Config, s: State, id: Id, commands: Bucket, creations: Bucket)
    requires Coherent(c, s) && id in s.connections
    ensures ClientSound(c, s.connections[id].(commands := commands, creations := creations))
  {
    hide RoomSound, NicksSound, UsersSound, RoomsSound;
  }

  lemma SoundClients(c: Config, s: State)
    requires Coherent(c, s)
    ensures forall id :: id in s.connections ==> ClientSound(c, s.connections[id])
  {
  }

  lemma WelcomeKeepsFaces(c: Config, s: State, id: Id)
    requires id in s.connections
    ensures var t := Welcome(s, id);
            && t.clients == s.clients && t.channels == s.channels && t.connections.Keys == s.connections.Keys
            && forall j :: j in s.connections ==>
                 SameFace(t.connections[j], s.connections[j]) && (ClientSound(c, s.connections[j]) ==> ClientSound(c, t.connections[j]))
  {
  }

  lemma WelcomeKeeps(c: Config, s: State, id: Id)
    requires Coherent(c, s) && id in s.connections
    ensures Coherent(c, Welcome(s, id))
  {
    hide Coherent, ClientSound;
    SoundClients(c, s);
    WelcomeKeepsFaces(c, s, id);
    FacesKeep(c, s, Welcome(s, id));
  }

  lemma SetUserKeeps(c: Config, s: State, id: Id, user: string)
    requires Coherent(c, s) && id in s.connections
    ensures Coherent(c, SetUser(s, id, user))
  {
    hide Coherent;
    SoundClients(c, s);
    var cl := s.connections[id];
    assert cl.userKeys["username" := user].Keys == cl.userKeys.Keys;
    SameSize(cl.userKeys["username" := user], cl.userKeys);
    var t := s.(connections := s.connections[id := cl.(user := user, userKeys := cl.userKeys["username" := user])]);
    FacesKeep(c, s, t);
    WelcomeKeeps(c, t, id);
  }

  lemma SameSize<K, V, W>(a: map<K, V>, b: map<K, W>)
    requires a.Keys == b.Keys
    ensures |a| == |b|
  {
    assert |a| == |a.Keys| && |b| == |b.Keys|;
  }

  // -------------------------------------- steps that change one room's records

  lemma RoomChangeKeeps(c: Config, s: State, k: string, ch: Channel)
    requires Coherent(c, s) && k in s.channels
    requires ch.users == s.channels[k].users && RoomSound(c, k, ch)
    ensures Coherent(c, s.(channels := s.channels[k := ch]))
  {
    hide ClientSound, RoomSound;
    var t := s.(channels := s.channels[k := ch]);
    SameKeys(s.channels, k, ch);
    assert forall id, f :: Bears(c, t, id, f) <==> Bears(c, s, id, f);
    forall j | j in t.channels
      ensures UsersSound(c, t, j) && RoomSound(c, j, t.channels[j])
    {
      assert UsersSound(c, s, j) && RoomSound(c, j, s.channels[j]);
    }
    forall id | id in t.connections && !t.connections[id].closed
      ensures RoomsSound(c, t, id)
    {
      assert RoomsSound(c, s, id);
    }
  }

  lemma SameKeys<V>(m: map<string, V>, k: string, v: V)
    requires k in m
    ensures |m[k := v]| == |m|
  {
    assert m[k := v].Keys == m.Keys;
    SameSize(m[k := v], m);
  }

  /** Updating a collection adds exactly its added keys. */
  lemma UpdatedSize(collection: map<string, string>, updates: map<string, string>)
    ensures |collection + updates| == |collection| + Fresh(collection, updates)
  {
    var added := updates.Keys - collection.Keys;
    assert (collection + updates).Keys == collection.Keys + added;
    assert |collection.Keys + added| == |collection.Keys| + |added|;
    assert |collection| == |collection.Keys| && |collection + updates| == |(collection + updates).Keys|;
  }

  lemma UserKeysKeep(c: Config, s: State, id: Id, keys: map<string, string>)
    requires Coherent(c, s) && id in s.connections && |keys| <= c.keysPerCollection && "username" in keys
    ensures Coherent(c, s.(connections := s.connections[id := s.connections[id].(userKeys := keys)]))
  {
    hide Coherent;
    SoundClients(c, s);
    FacesKeep(c, s, s.(connections := s.connections[id := s.connections[id].(userKeys := keys)]));
  }

  lemma SoundClient(c: Config, s: State, id: Id)
    requires Coherent(c, s) && id in s.connections
    ensures ClientSound(c, s.connections[id])
  {
  }

  lemma SetKeyKeeps(c: Config, s: State, id: Id, now: real, updates: map<string, string>)
    requires Coherent(c, s) && id in s.connections
    ensures Coherent(c, SetKey(c, s, id, now, updates).state)
  {
    hide Coherent, Spend, Affords, Fresh, SameFace;
    var r := UpdateKeys(c, s, id, now, s.connections[id].userKeys, updates);
    SpendKeeps(c, s, id, now, Fresh(s.connections[id].userKeys, updates));
    UpdatedSize(s.connections[id].userKeys, updates);
    SoundClient(c, s, id);
    if r.1.Some? {
      UserKeysKeep(c, r.0, id, r.1.value);
    }
  }

  lemma SoundRoom(c: Config, s: State, k: string)
    requires Coherent(c, s) && k in s.channels
    ensures RoomSound(c, k, s.channels[k])
  {
  }

  lemma SetChanKeyKeeps(c: Config, s: State, id: Id, now: real, name: string, updates: map<string, string>)
    requires Coherent(c, s) && id in s.connections
    ensures Coherent(c, SetChanKey(c, s, id, now, name, updates).state)
  {
    hide Coherent, Spend, Affords;
    var k := c.fold(name);
    if k in s.channels {
      var r := UpdateKeys(c, s, id, now, s.channels[k].keys, updates);
      SpendKeeps(c, s, id, now, Fresh(s.channels[k].keys, updates));
      UpdatedSize(s.channels[k].keys, updates);
      SoundRoom(c, s, k);
      if r.1.Some? {
        RoomChangeKeeps(c, r.0, k, s.channels[k].(keys := r.1.value));
      }
    }
  }

  lemma KeysChangeKeeps(c: Config, s: State, k: string, member: string, keys: map<string, string>)
    requires Coherent(c, s) && k in s.channels && member in s.channels[k].users && |keys| <= c.keysPerCollection
    ensures Coherent(c, s.(channels := s.channels[k := WithKeysOf(s.channels[k], member, keys)]))
  {
    hide Coherent;
    SoundRoom(c, s, k);
    var ch := WithKeysOf(s.channels[k], member, keys);
    assert ch.clientKeys.Keys == s.channels[k].clientKeys.Keys;
    RoomChangeKeeps(c, s, k, ch);
  }

  lemma SetCKeyKeeps(c: Config, s: State, id: Id, now: real, name: string, nick: string, updates: map<string, string>)
    requires Coherent(c, s) && id in s.connections
    ensures Coherent(c, SetCKey(c, s, id, now, name, nick, updates).state)
  {
    hide Coherent, Spend, Affords, RoomSound, UpdateKeys, KeysOf, WithKeysOf;
    var k := c.fold(name);
    if k in s.channels && c.fold(nick) in s.clients && s.clients[c.fold(nick)] in s.connections {
      var member := c.fold(s.connections[s.clients[c.fold(nick)]].nick);
      if member in s.channels[k].users {
        MemberKeysKeep(c, s, id, now, k, member, updates);
      }
    }
  }

  lemma MemberKeysKeep(c: Config, s: State, id: Id, now: real, k: string, member: string, updates: map<string, string>)
    requires Coherent(c, s) && id in s.connections && k in s.channels && member in s.channels[k].users
    ensures var ch := WithKeysOf(s.channels[k], member, KeysOf(s.channels[k], member));
            && member in ch.clientKeys && ch.clientKeys[member] == KeysOf(s.channels[k], member)
            && var r := UpdateKeys(c, s, id, now, ch.clientKeys[member], updates);
               && (r.1.None? ==> Coherent(c, r.0.(channels := s.channels[k := ch])))
               && (r.1.Some? ==> Coherent(c, r.0.(channels := s.channels[k := WithKeysOf(ch, member, r.1.value)])))
  {
    hide Coherent, Spend, Affords, RoomSound, KeysOf, Fresh;
    var keys := KeysOf(s.channels[k], member);
    KeysFit(c, s, k, member);
    UpdatedSize(keys, updates);
    SpendKeeps(c, s, id, now, Fresh(keys, updates));
    WithKeysTwice(s.channels[k], member, keys, keys + updates);
    var r := UpdateKeys(c, s, id, now, keys, updates);
    KeysChangeKeeps(c, r.0, k, member, if r.1.Some? then r.1.value else keys);
  }

  lemma WithKeysTwice(ch: Channel, member: string, a: map<string, string>, b: map<string, string>)
    ensures WithKeysOf(WithKeysOf(ch, member, a), member, b) == WithKeysOf(ch, member, b)
  {
    assert ch.clientKeys[member := a][member := b] == ch.clientKeys[member := b];
  }

  lemma KeysFit(c: Config, s: State, k: string, member: string)
    requires Coherent(c, s) && k in s.channels
    ensures |KeysOf(s.channels[k], member)| <= c.keysPerCollection
  {
    hide Coherent;
    SoundRoom(c, s, k);
  }

  lemma SetModeKeeps(c: Config, s: State, id: Id, now: real, name: string, grant: bool, nick: string)
    requires Coherent(c, s) && id in s.connections
    ensures Coherent(c, SetMode(c, s, id, now, name, grant, nick).state)
  {
    hide Coherent, Spend, Affords;
    var k := c.fold(name);
    var operator := c.fold(nick);
    if k in s.channels {
      var ch := s.channels[k];
      SoundRoom(c, s, k);
      if !grant {
        RoomChangeKeeps(c, s, k, ch.(operators := ch.operators - {operator}));
      } else if operator in ch.users {
        var cost := if operator in ch.operators then 0 else 1;
        SpendKeeps(c, s, id, now, cost);
        RoomChangeKeeps(c, Spend(c, s, id, now, cost), k, ch.(operators := ch.operators + {operator}));
      }
    }
  }

  lemma SetTopicKeeps(c: Config, s: State, name: string, topic: string)
    requires Coherent(c, s)
    ensures Coherent(c, SetTopic(c, s, name, topic).state)
  {
    hide Coherent;
    var k := c.fold(name);
    if k in s.channels && topic != "" {
      SoundRoom(c, s, k);
      RoomChangeKeeps(c, s, k, s.channels[k].(topic := topic));
    }
  }

  // ---------------------------------------------------- steps that move people

  /** Two open connections with one folded nick are one connection. */
  lemma NickIsUnique(c: Config, s: State, a: Id, b: Id, f: string)
    requires NicksSound(c, s) && Bears(c, s, a, f) && Bears(c, s, b, f)
    ensures a == b && f in s.clients && s.clients[f] == a
  {
  }

  /** A room lists an open connection's nick exactly when the connection lists the room. */
  lemma MemberIffListed(c: Config, s: State, id: Id, k: string)
    requires Coherent(c, s) && id in s.connections && !s.connections[id].closed && s.connections[id].nick != ""
    ensures k in s.connections[id].channels <==> IsMember(c, s, id, k)
    ensures IsMember(c, s, id, k) ==> s.channels[k].users[c.fold(s.connections[id].nick)] == id
  {
    hide RoomSound, ClientSound;
    var f := c.fold(s.connections[id].nick);
    assert Bears(c, s, id, f);
    assert RoomsSound(c, s, id);
    if IsMember(c, s, id, k) {
      assert UsersSound(c, s, k);
      NickIsUnique(c, s, id, s.channels[k].users[f], f);
    }
  }

  lemma AddedSize<V>(m: map<string, V>, k: string, v: V)
    ensures |m[k := v]| == if k in m then |m| else |m| + 1
  {
    assert m[k := v].Keys == m.Keys + {k};
    assert |m[k := v]| == |m[k := v].Keys| && |m| == |m.Keys|;
  }

  lemma EnteredIsSound(c: Config, k: string, ch: Channel, member: string, id: Id)
    requires c.fold(ch.name) == k && ch.limit == ParticipantLimit(c, k)
    requires RoomSound(c, k, ch) || (ch.users == map[] && ch.clientKeys == map[] && ch.keys == map[] && ch.operators == {})
    requires member !in ch.users && ch.limit.Some? ==> |ch.users| < ch.limit.value
    ensures RoomSound(c, k, Entered(ch, member, id))
  {
    hide ParticipantLimit;
    AddedSize(ch.users, member, id);
    if ch.users == map[] {
      FirstIsSound(c, k, ch, member, id);
    } else {
      NextIsSound(c, k, ch, member, id);
    }
  }

  lemma FirstIsSound(c: Config, k: string, ch: Channel, member: string, id: Id)
    requires c.fold(ch.name) == k && ch.limit == ParticipantLimit(c, k)
    requires ch.users == map[] && ch.clientKeys == map[] && ch.keys == map[] && ch.operators == {}
    requires ch.limit.Some? ==> 0 < ch.limit.value
    ensures RoomSound(c, k, Entered(ch, member, id))
  {
    hide ParticipantLimit;
    assert member in Entered(ch, member, id).users;
  }

  lemma NextIsSound(c: Config, k: string, ch: Channel, member: string, id: Id)
    requires RoomSound(c, k, ch) && ch.users != map[]
    requires ch.limit.Some? ==> |ch.users[member := id]| <= ch.limit.value
    ensures RoomSound(c, k, Entered(ch, member, id))
  {
    hide ParticipantLimit;
    var e := Entered(ch, member, id);
    assert e.users.Keys == ch.users.Keys + {member} && e.clientKeys.Keys == ch.clientKeys.Keys + {member};
    assert member in e.users;
  }

  lemma EnterKeepsRoom(c: Config, s: State, id: Id, name: string)
    requires Coherent(c, s) && id in s.connections && !s.connections[id].closed && JoinRefusal(c, s, id, name) == 0
    ensures RoomSound(c, c.fold(name), Enter(c, s, id, name).channels[c.fold(name)])
  {
    hide Coherent, RoomSound, Entered;
    var cl := s.connections[id];
    var k := c.fold(name);
    var ch := if k in s.channels then s.channels[k] else NewRoom(c, name);
    if k in s.channels {
      SoundRoom(c, s, k);
      RoomFacts(c, k, ch);
    }
    EnteredIsSound(c, k, ch, c.fold(cl.nick), id);
  }

  lemma RoomFacts(c: Config, k: string, ch: Channel)
    requires RoomSound(c, k, ch)
    ensures c.fold(ch.name) == k && ch.limit == ParticipantLimit(c, k)
  {
  }

  lemma EnterKeepsCaps(c: Config, s: State, id: Id, name: string)
    requires Coherent(c, s) && id in s.connections && !s.connections[id].closed && JoinRefusal(c, s, id, name) == 0
    ensures |Enter(c, s, id, name).channels| <= c.rooms && ClientSound(c, Enter(c, s, id, name).connections[id])
  {
    hide NicksSound, UsersSound, RoomsSound, RoomSound, Entered;
    var cl := s.connections[id];
    var k := c.fold(name);
    SoundClient(c, s, id);
    MemberIffListed(c, s, id, k);
    AddedSize(s.channels, k, Enter(c, s, id, name).channels[k]);
    assert k in cl.channels ==> cl.channels + {k} == cl.channels;
  }

  lemma EnterKeepsUsers(c: Config, s: State, id: Id, name: string, k: string)
    requires id in s.connections && !s.connections[id].closed && s.connections[id].nick != ""
    requires k in s.channels ==> UsersSound(c, s, k)
    requires k in Enter(c, s, id, name).channels
    ensures UsersSound(c, Enter(c, s, id, name), k)
  {
  }

  lemma EnterKeepsRooms(c: Config, s: State, id: Id, name: string, j: Id)
    requires id in s.connections && !s.connections[id].closed && s.connections[id].nick != ""
    requires NicksSound(c, s) && j in s.connections && !s.connections[j].closed && RoomsSound(c, s, j)
    ensures RoomsSound(c, Enter(c, s, id, name), j)
  {
    hide NicksSound;
    if j != id && s.connections[j].nick != "" {
      Distinct(c, s, id, j);
    }
  }

  lemma EnterFrame(c: Config, s: State, id: Id, name: string)
    requires id in s.connections
    ensures var t := Enter(c, s, id, name);
            && t.clients == s.clients && t.connections.Keys == s.connections.Keys
            && (forall j :: j in s.connections && j != id ==> t.connections[j] == s.connections[j])
            && (forall j :: j in s.connections ==>
                  t.connections[j].nick == s.connections[j].nick && t.connections[j].closed == s.connections[j].closed)
            && t.channels.Keys == s.channels.Keys + {c.fold(name)}
            && (forall k :: k in s.channels && k != c.fold(name) ==> t.channels[k] == s.channels[k])
  {
  }

  lemma EnterKeepsNicks(c: Config, s: State, id: Id, name: string)
    requires NicksSound(c, s) && id in s.connections
    ensures NicksSound(c, Enter(c, s, id, name))
  {
    hide Enter;
    EnterFrame(c, s, id, name);
    assert forall j, g :: Bears(c, Enter(c, s, id, name), j, g) <==> Bears(c, s, j, g);
  }

  lemma EnterKeepsEachRoom(c: Config, s: State, id: Id, name: string, k: string)
    requires Coherent(c, s) && id in s.connections && !s.connections[id].closed && JoinRefusal(c, s, id, name) == 0
    requires k in Enter(c, s, id, name).channels
    ensures RoomSound(c, k, Enter(c, s, id, name).channels[k]) && UsersSound(c, Enter(c, s, id, name), k)
  {
    hide RoomSound, ClientSound, UsersSound, RoomsSound, NicksSound, Enter;
    EnterFrame(c, s, id, name);
    EnterKeepsRoom(c, s, id, name);
    NamedWhenWelcomed(c, s.connections[id]);
    EnterKeepsUsers(c, s, id, name, k);
  }

  lemma EnterKeeps(c: Config, s: State, id: Id, name: string)
    requires Coherent(c, s) && id in s.connections && !s.connections[id].closed && JoinRefusal(c, s, id, name) == 0
    ensures Coherent(c, Enter(c, s, id, name))
  {
    hide RoomSound, ClientSound, UsersSound, RoomsSound, NicksSound, Enter;
    EnterFrame(c, s, id, name);
    var t := Enter(c, s, id, name);
    EnterKeepsNicks(c, s, id, name);
    EnterKeepsCaps(c, s, id, name);
    NamedWhenWelcomed(c, s.connections[id]);
    forall k | k in t.channels
      ensures RoomSound(c, k, t.channels[k]) && UsersSound(c, t, k)
    {
      EnterKeepsEachRoom(c, s, id, name, k);
    }
    forall j | j in t.connections && !t.connections[j].closed
      ensures RoomsSound(c, t, j)
    {
      EnterKeepsRooms(c, s, id, name, j);
    }
  }

  lemma NamedWhenWelcomed(c: Config, cl: Client)
    requires ClientSound(c, cl)
    ensures cl.welcomed ==> cl.nick != ""
  {
  }

  lemma Distinct(c: Config, s: State, a: Id, b: Id)
    requires NicksSound(c, s) && a in s.connections && b in s.connections && a != b
    requires !s.connections[a].closed && !s.connections[b].closed
    requires s.connections[a].nick != "" && s.connections[b].nick != ""
    ensures c.fold(s.connections[a].nick) != c.fold(s.connections[b].nick)
  {
    assert Bears(c, s, a, c.fold(s.connections[a].nick)) && Bears(c, s, b, c.fold(s.connections[b].nick));
  }

  /** What a join spends does not change whether a limit stands in its way. */
  lemma JoinKeeps(c: Config, s: State, id: Id, now: real, name: string)
    requires Coherent(c, s) && id in s.connections && !s.connections[id].closed
    ensures Coherent(c, Join(c, s, id, now, name).state)
  {
    hide Coherent, Enter, Affords;
    if JoinRefusal(c, s, id, name) == 0 {
      var cost := JoinCost(c, s, id, c.fold(name));
      SpendKeeps(c, s, id, now, cost);
      if Affords(c, s.connections[id], now, cost) {
        EnterKeeps(c, Spend(c, s, id, now, cost), id, name);
      }
    }
  }

  // ------------------------------------------------------- leaving rooms

  lemma WithoutIsSound(c: Config, k: string, ch: Channel, member: string)
    requires RoomSound(c, k, ch) && Without(ch, member).users != map[]
    ensures RoomSound(c, k, Without(ch, member))
  {
    var w := Without(ch, member);
    assert w.users.Keys == ch.users.Keys - {member} && w.clientKeys.Keys == ch.clientKeys.Keys - {member};
    FewerKeys(w.users, ch.users);
  }

  lemma FewerKeys<V, W>(a: map<string, V>, b: map<string, W>)
    requires a.Keys <= b.Keys
    ensures |a| <= |b|
  {
    assert |a| == |a.Keys| && |b| == |b.Keys|;
    SubsetSize(a.Keys, b.Keys);
  }

  lemma LeftRoomsSound(c: Config, channels: map<string, Channel>, joined: set<string>, member: string)
    requires forall k :: k in channels ==> RoomSound(c, k, channels[k])
    ensures var left := LeftBehind(channels, joined, member);
            && |left| <= |channels| && (forall k :: k in left ==> RoomSound(c, k, left[k]))
  {
    hide RoomSound;
    var left := LeftBehind(channels, joined, member);
    FewerKeys(left, channels);
    forall k | k in left
      ensures RoomSound(c, k, left[k])
    {
      if k in joined {
        WithoutIsSound(c, k, channels[k], member);
      }
    }
  }

  /** `id` is open, named `f` when folded, and leaves the rooms in `gone`, all of which it lists. */
  ghost predicate Leaves(c: Config, s: State, id: Id, gone: set<string>, t: State) {
    && Coherent(c, s) && id in s.connections && !s.connections[id].closed && gone <= s.connections[id].channels
    && t.connections.Keys == s.connections.Keys
    && t.channels == LeftBehind(s.channels, gone, c.fold(s.connections[id].nick))
    && (forall j :: j in s.connections && j != id ==> t.connections[j] == s.connections[j])
    && t.connections[id].nick == s.connections[id].nick
    && t.connections[id].channels == s.connections[id].channels - (if t.connections[id].closed then {} else gone)
    && (t.connections[id].closed ==> gone == s.connections[id].channels)
  }

  lemma LeavesUsers(c: Config, s: State, id: Id, gone: set<string>, t: State, k: string)
    requires Leaves(c, s, id, gone, t) && k in t.channels
    ensures UsersSound(c, t, k)
  {
    hide RoomSound, ClientSound;
    assert UsersSound(c, s, k) && RoomsSound(c, s, id);
    var f := c.fold(s.connections[id].nick);
    forall g | g in t.channels[k].users
      ensures Bears(c, t, t.channels[k].users[g], g) && k in t.connections[t.channels[k].users[g]].channels
    {
      var j := s.channels[k].users[g];
      assert Bears(c, s, j, g);
      if j == id {
        assert k !in gone;
      }
    }
  }

  lemma LeavesRooms(c: Config, s: State, id: Id, gone: set<string>, t: State, j: Id)
    requires Leaves(c, s, id, gone, t) && j in t.connections && !t.connections[j].closed
    ensures RoomsSound(c, t, j)
  {
    hide RoomSound, ClientSound, UsersSound;
    assert RoomsSound(c, s, j) && RoomsSound(c, s, id);
    if j != id && s.connections[j].nick != "" && s.connections[id].nick != "" {
      Distinct(c, s, id, j);
    }
    forall k | k in t.connections[j].channels
      ensures k in t.channels && c.fold(t.connections[j].nick) in t.channels[k].users
              && t.channels[k].users[c.fold(t.connections[j].nick)] == j
    {
      if k in gone {
        assert c.fold(s.connections[j].nick) in Without(s.channels[k], c.fold(s.connections[id].nick)).users;
      }
    }
  }

  lemma LeavesKeeps(c: Config, s: State, id: Id, gone: set<string>, t: State)
    requires Leaves(c, s, id, gone, t) && NicksSound(c, t)
    requires ClientSound(c, t.connections[id])
    ensures Coherent(c, t)
  {
    hide RoomSound, ClientSound, UsersSound, RoomsSound, NicksSound, LeftBehind;
    LeftRoomsSound(c, s.channels, gone, c.fold(s.connections[id].nick));
    forall k | k in t.channels
      ensures UsersSound(c, t, k)
    {
      LeavesUsers(c, s, id, gone, t, k);
    }
    forall j | j in t.connections && !t.connections[j].closed
      ensures RoomsSound(c, t, j)
    {
      LeavesRooms(c, s, id, gone, t, j);
    }
  }

  /** Nobody is in a room without a name. */
  lemma MembersAreNamed(c: Config, s: State, id: Id, k: string)
    requires c.Valid() && Coherent(c, s) && id in s.connections && IsMember(c, s, id, k)
    ensures s.connections[id].nick != ""
  {
    assert UsersSound(c, s, k);
    var f := c.fold(s.connections[id].nick);
    assert Bears(c, s, s.channels[k].users[f], f);
  }

  lemma PartRooms(c: Config, s: State, id: Id, name: string)
    requires id in s.connections && IsMember(c, s, id, c.fold(name))
    requires c.fold(s.channels[c.fold(name)].name) == c.fold(name)
    ensures Part(c, s, id, name).state.channels == LeftBehind(s.channels, {c.fold(name)}, c.fold(s.connections[id].nick))
  {
  }

  lemma PartFrame(c: Config, s: State, id: Id, name: string)
    requires id in s.connections && IsMember(c, s, id, c.fold(name))
    requires c.fold(s.channels[c.fold(name)].name) == c.fold(name)
    ensures var t := Part(c, s, id, name).state;
            && t.clients == s.clients && t.connections.Keys == s.connections.Keys
            && (forall j :: j in s.connections && j != id ==> t.connections[j] == s.connections[j])
            && t.connections[id] == s.connections[id].(channels := s.connections[id].channels - {c.fold(name)})
  {
  }

  lemma PartIsLeaving(c: Config, s: State, id: Id, name: string)
    requires c.Valid() && Coherent(c, s) && id in s.connections && !s.connections[id].closed
    requires IsMember(c, s, id, c.fold(name))
    ensures Leaves(c, s, id, {c.fold(name)}, Part(c, s, id, name).state)
    ensures s.connections[id].nick != "" && Part(c, s, id, name).state.clients == s.clients
    ensures !Part(c, s, id, name).state.connections[id].closed
    ensures ClientSound(c, Part(c, s, id, name).state.connections[id])
  {
    hide Coherent, Part, LeftBehind, Without, IsMember;
    var k := c.fold(name);
    MembersAreNamed(c, s, id, k);
    MemberIffListed(c, s, id, k);
    ListedRoomExists(c, s, id, k);
    SoundRoom(c, s, k);
    SoundClient(c, s, id);
    PartRooms(c, s, id, name);
    PartFrame(c, s, id, name);
    SubsetSize(s.connections[id].channels - {k}, s.connections[id].channels);
  }

  lemma ListedRoomExists(c: Config, s: State, id: Id, k: string)
    requires id in s.connections && IsMember(c, s, id, k)
    ensures k in s.channels
  {
  }

  lemma SameBearers(c: Config, s: State, t: State)
    requires NicksSound(c, s) && t.clients == s.clients && t.connections.Keys == s.connections.Keys
    requires forall j :: j in s.connections ==>
               t.connections[j].nick == s.connections[j].nick && t.connections[j].closed == s.connections[j].closed
    ensures NicksSound(c, t)
  {
    assert forall j, g :: Bears(c, t, j, g) <==> Bears(c, s, j, g);
  }

  lemma PartKeeps(c: Config, s: State, id: Id, name: string)
    requires c.Valid() && Coherent(c, s) && id in s.connections && !s.connections[id].closed
    ensures Coherent(c, Part(c, s, id, name).state)
  {
    hide Part, NicksSound, LeftBehind, RoomSound, ClientSound, UsersSound, RoomsSound;
    if IsMember(c, s, id, c.fold(name)) {
      var t := Part(c, s, id, name).state;
      PartIsLeaving(c, s, id, name);
      SameBearers(c, s, t);
      LeavesKeeps(c, s, id, {c.fold(name)}, t);
    } else {
      PartIgnored(c, s, id, name);
    }
  }

  lemma PartIgnored(c: Config, s: State, id: Id, name: string)
    requires id in s.connections && !IsMember(c, s, id, c.fold(name))
    ensures Part(c, s, id, name).state == s
  {
  }

  lemma DisconnectIsLeaving(c: Config, s: State, id: Id)
    requires Coherent(c, s) && id in s.connections && !s.connections[id].closed
    ensures var t := Disconnect(c, s, id);
            && Leaves(c, s, id, s.connections[id].channels, t) && t.connections[id].closed
            && ClientSound(c, t.connections[id])
  {
    hide NicksSound, RoomSound, UsersSound, RoomsSound, LeftBehind;
    SoundClient(c, s, id);
  }

  lemma DisconnectBears(c: Config, s: State, id: Id, j: Id, f: string)
    requires id in s.connections && !s.connections[id].closed
    ensures Bears(c, Disconnect(c, s, id), j, f) <==> Bears(c, s, j, f) && j != id
  {
    hide LeftBehind;
  }

  lemma DisconnectClients(c: Config, s: State, id: Id, f: string)
    requires NicksSound(c, s) && id in s.connections && !s.connections[id].closed
    ensures f in Disconnect(c, s, id).clients <==> f in s.clients && s.clients[f] != id
    ensures f in Disconnect(c, s, id).clients ==> Disconnect(c, s, id).clients[f] == s.clients[f]
  {
    hide LeftBehind;
    var own := c.fold(s.connections[id].nick);
    assert s.connections[id].nick != "" ==> Bears(c, s, id, own);
  }

  lemma DisconnectNicks(c: Config, s: State, id: Id)
    requires Coherent(c, s) && id in s.connections && !s.connections[id].closed
    ensures NicksSound(c, Disconnect(c, s, id))
  {
    hide RoomSound, UsersSound, RoomsSound, ClientSound, Disconnect, Bears;
    var t := Disconnect(c, s, id);
    forall f | f in t.clients
      ensures Bears(c, t, t.clients[f], f)
    {
      DisconnectClients(c, s, id, f);
      DisconnectBears(c, s, id, t.clients[f], f);
    }
    forall j, f | Bears(c, t, j, f)
      ensures f in t.clients && t.clients[f] == j
    {
      DisconnectBears(c, s, id, j, f);
      DisconnectClients(c, s, id, f);
    }
  }

  lemma DisconnectKeeps(c: Config, s: State, id: Id)
    requires Coherent(c, s) && id in s.connections
    ensures Coherent(c, Disconnect(c, s, id))
  {
    hide NicksSound, LeftBehind, RoomSound, ClientSound, UsersSound, RoomsSound;
    if !s.connections[id].closed {
      DisconnectIsLeaving(c, s, id);
      DisconnectNicks(c, s, id);
      LeavesKeeps(c, s, id, s.connections[id].channels, Disconnect(c, s, id));
    }
  }

  // ---------------------------------------------------------------- renaming

  ghost predicate MayRename(c: Config, s: State, id: Id, nick: string) {
    Coherent(c, s) && id in s.connections && !s.connections[id].closed && nick != "" && !NickInUse(c, s, id, nick)
  }

  /** No other open connection bears the new nick. */
  lemma FreeNick(c: Config, s: State, id: Id, nick: string, j: Id)
    requires MayRename(c, s, id, nick) && Bears(c, s, j, c.fold(nick))
    ensures j == id
  {
    hide RoomSound, UsersSound, RoomsSound, ClientSound;
  }

  lemma RenameFrame(c: Config, s: State, id: Id, nick: string)
    requires id in s.connections
    ensures var t := Rename(c, s, id, nick);
            && t.connections == s.connections[id := s.connections[id].(nick := nick)]
            && t.channels.Keys == s.channels.Keys
            && (forall k :: k in s.channels ==>
                  t.channels[k] == if s.connections[id].nick != "" && k in s.connections[id].channels
                                   then Renamed(s.channels[k], c.fold(s.connections[id].nick), c.fold(nick), id)
                                   else s.channels[k])
  {
  }

  lemma RenameNicks(c: Config, s: State, id: Id, nick: string)
    requires MayRename(c, s, id, nick)
    ensures NicksSound(c, Rename(c, s, id, nick))
  {
    hide RoomSound, UsersSound, RoomsSound, ClientSound, RenamedIn;
    var t := Rename(c, s, id, nick);
    var cl := s.connections[id];
    assert cl.nick != "" ==> Bears(c, s, id, c.fold(cl.nick));
    forall j, g
      ensures Bears(c, t, j, g) <==> if j == id then g == c.fold(nick) else Bears(c, s, j, g)
    {
    }
    forall j, g | Bears(c, t, j, g)
      ensures g in t.clients && t.clients[g] == j
    {
      if j != id && g == c.fold(nick) {
        FreeNick(c, s, id, nick, j);
      }
    }
  }

  lemma RekeyedSize<V>(m: map<string, V>, was: string, name: string, v: V)
    requires was in m && (name in m ==> name == was)
    ensures (m - {was})[name := v].Keys == m.Keys - {was} + {name}
    ensures |(m - {was})[name := v]| == |m|
  {
    var r := (m - {was})[name := v];
    assert r.Keys == m.Keys - {was} + {name};
    assert |m.Keys - {was}| == |m.Keys| - 1;
    assert |r.Keys| == |m.Keys - {was}| + 1;
    assert |r| == |r.Keys| && |m| == |m.Keys|;
  }

  lemma RenamedKeysFit(c: Config, ch: Channel, was: string, name: string, id: Id)
    requires was in ch.users && ch.clientKeys.Keys == ch.users.Keys && ch.operators <= ch.users.Keys
    requires forall f :: f in ch.clientKeys ==> |ch.clientKeys[f]| <= c.keysPerCollection
    ensures var r := Renamed(ch, was, name, id);
            && r.clientKeys.Keys == r.users.Keys && r.operators <= r.users.Keys
            && forall f :: f in r.clientKeys ==> |r.clientKeys[f]| <= c.keysPerCollection
  {
    var r := Renamed(ch, was, name, id);
    assert r.users.Keys == ch.users.Keys - {was} + {name};
    assert r.clientKeys.Keys == ch.clientKeys.Keys - {was} + {name};
  }

  lemma RenamedIsSound(c: Config, k: string, ch: Channel, was: string, name: string, id: Id)
    requires RoomSound(c, k, ch) && was in ch.users && (name in ch.users ==> name == was)
    ensures RoomSound(c, k, Renamed(ch, was, name, id))
  {
    hide ParticipantLimit;
    RekeyedSize(ch.users, was, name, id);
    RenamedKeysFit(c, ch, was, name, id);
    assert name in Renamed(ch, was, name, id).users;
  }

  lemma RenameRoom(c: Config, s: State, id: Id, nick: string, k: string)
    requires MayRename(c, s, id, nick) && k in s.channels
    ensures RoomSound(c, k, Rename(c, s, id, nick).channels[k])
  {
    hide RoomSound, ClientSound, NicksSound, Rename, Renamed, NickInUse;
    RenameFrame(c, s, id, nick);
    var cl := s.connections[id];
    if cl.nick != "" && k in cl.channels {
      assert RoomsSound(c, s, id) && UsersSound(c, s, k);
      if c.fold(nick) in s.channels[k].users {
        FreeNick(c, s, id, nick, s.channels[k].users[c.fold(nick)]);
      }
      RenamedIsSound(c, k, s.channels[k], c.fold(cl.nick), c.fold(nick), id);
    }
  }

  lemma RenameUsers(c: Config, s: State, id: Id, nick: string, k: string)
    requires MayRename(c, s, id, nick) && k in s.channels
    ensures UsersSound(c, Rename(c, s, id, nick), k)
  {
    hide RoomSound, ClientSound, NicksSound, Rename, NickInUse;
    RenameFrame(c, s, id, nick);
    assert RoomsSound(c, s, id) && UsersSound(c, s, k);
    var t := Rename(c, s, id, nick);
    forall g | g in t.channels[k].users
      ensures Bears(c, t, t.channels[k].users[g], g) && k in t.connections[t.channels[k].users[g]].channels
    {
      var j := t.channels[k].users[g];
      if j != id {
        assert g in s.channels[k].users && Bears(c, s, j, g);
      } else if g in s.channels[k].users && s.channels[k].users[g] == id {
        assert Bears(c, s, id, g);
      }
    }
  }

  lemma RenameRooms(c: Config, s: State, id: Id, nick: string, j: Id)
    requires MayRename(c, s, id, nick) && j in s.connections && !s.connections[j].closed
    ensures RoomsSound(c, Rename(c, s, id, nick), j)
  {
    hide RoomSound, ClientSound, UsersSound, Rename, NickInUse;
    RenameFrame(c, s, id, nick);
    assert RoomsSound(c, s, id) && RoomsSound(c, s, j);
    var cl := s.connections[j];
    if j != id && cl.nick != "" {
      assert Bears(c, s, j, c.fold(cl.nick));
      if c.fold(cl.nick) == c.fold(nick) {
        FreeNick(c, s, id, nick, j);
      }
      if s.connections[id].nick != "" {
        Distinct(c, s, id, j);
      }
    }
  }

  lemma RenameKeeps(c: Config, s: State, id: Id, nick: string)
    requires MayRename(c, s, id, nick)
    ensures Coherent(c, Rename(c, s, id, nick))
  {
    hide NicksSound, RoomSound, UsersSound, RoomsSound, Rename, NickInUse;
    RenameFrame(c, s, id, nick);
    RenameNicks(c, s, id, nick);
    var t := Rename(c, s, id, nick);
    SameSize(t.channels, s.channels);
    forall k | k in t.channels
      ensures RoomSound(c, k, t.channels[k]) && UsersSound(c, t, k)
    {
      RenameRoom(c, s, id, nick, k);
      RenameUsers(c, s, id, nick, k);
    }
    forall j | j in t.connections && !t.connections[j].closed
      ensures RoomsSound(c, t, j)
    {
      RenameRooms(c, s, id, nick, j);
    }
  }

  lemma SetNickKeeps(c: Config, s: State, id: Id, now: real, nick: string)
    requires Coherent(c, s) && id in s.connections && !s.connections[id].closed
    ensures Coherent(c, SetNick(c, s, id, now, nick).state)
  {
    hide Coherent, Rename, Affords, NickCost, Spend, Welcome;
    var cost := NickCost(c, s.connections[id], nick);
    SpendKeeps(c, s, id, now, cost);
    var spent := Spend(c, s, id, now, cost);
    if nick != "" && !NickInUse(c, s, id, nick) {
      assert MayRename(c, spent, id, nick);
      RenameKeeps(c, spent, id, nick);
      RenameFrame(c, spent, id, nick);
      WelcomeKeeps(c, Rename(c, spent, id, nick), id);
    }
  }

  // -------------------------------------------------------------------- runs

  lemma HandleKeeps(c: Config, s: State, id: Id, now: real, command: Command)
    requires c.Valid() && Coherent(c, s) && id in s.connections && !s.connections[id].closed
    ensures Coherent(c, Handle(c, s, id, now, command).state)
  {
    hide Coherent, SetNick, SetUser, Join, Part, SetKey, SetChanKey, SetCKey, SetMode, SetTopic, Disconnect;
    match command {
      case Nick(nick) => SetNickKeeps(c, s, id, now, nick);
      case User(user) => SetUserKeeps(c, s, id, user);
      case JoinRoom(name) => JoinKeeps(c, s, id, now, name);
      case PartRoom(name) => PartKeeps(c, s, id, name);
      case Key(updates) => SetKeyKeeps(c, s, id, now, updates);
      case ChanKey(name, updates) => SetChanKeyKeeps(c, s, id, now, name, updates);
      case CKey(name, nick, updates) => SetCKeyKeeps(c, s, id, now, name, nick, updates);
      case Mode(name, grant, nick) => SetModeKeeps(c, s, id, now, name, grant, nick);
      case Topic(name, topic) => SetTopicKeeps(c, s, name, topic);
      case Quit => DisconnectKeeps(c, s, id);
      case Query =>
    }
  }

  lemma ChargeCommandKeeps(c: Config, s: State, id: Id, now: real)
    requires Coherent(c, s) && id in s.connections
    ensures Coherent(c, ChargeCommand(c, s, id, now))
  {
    hide Coherent, Charge;
    SoundClients(c, s);
    FacesKeep(c, s, ChargeCommand(c, s, id, now));
  }

  lemma ConnectKeeps(c: Config, s: State, id: Id, now: real)
    requires c.Valid() && Coherent(c, s) && id !in s.connections
    ensures Coherent(c, Step(c, s, Connect(id, now)))
  {
    hide RoomSound, Receive, Disconnect, RoomsSound, UsersSound, Full;
    var t := Step(c, s, Connect(id, now));
    NewcomerNicks(c, s, id, now);
    forall k | k in t.channels
      ensures UsersSound(c, t, k)
    {
      NewcomerUsers(c, s, id, now, k);
    }
    forall j | j in t.connections && !t.connections[j].closed
      ensures RoomsSound(c, t, j)
    {
      NewcomerRooms(c, s, id, now, j);
    }
  }

  lemma NewcomerNicks(c: Config, s: State, id: Id, now: real)
    requires NicksSound(c, s) && id !in s.connections
    ensures NicksSound(c, Step(c, s, Connect(id, now)))
  {
    hide Receive, Disconnect, Full;
    var t := Step(c, s, Connect(id, now));
    assert forall j, g :: Bears(c, t, j, g) <==> Bears(c, s, j, g);
  }

  lemma NewcomerUsers(c: Config, s: State, id: Id, now: real, k: string)
    requires k in s.channels && UsersSound(c, s, k) && id !in s.connections
    ensures UsersSound(c, Step(c, s, Connect(id, now)), k)
  {
    hide Receive, Disconnect, Full;
  }

  lemma NewcomerRooms(c: Config, s: State, id: Id, now: real, j: Id)
    requires id !in s.connections && (j in s.connections && !s.connections[j].closed ==> RoomsSound(c, s, j))
    requires j == id || (j in s.connections && !s.connections[j].closed)
    ensures j in Step(c, s, Connect(id, now)).connections && RoomsSound(c, Step(c, s, Connect(id, now)), j)
  {
    hide Receive, Disconnect, Full;
  }

  /** Every event keeps the maps coherent. */
  lemma StepKeeps(c: Config, s: State, e: Event)
    requires c.Valid() && Coherent(c, s)
    ensures Coherent(c, Step(c, s, e))
  {
    hide Coherent, Handle, Disconnect, Accepts;
    match e {
      case Connect(id, now) =>
        if id !in s.connections {
          ConnectKeeps(c, s, id, now);
        }
      case Line(id, now, command) =>
        if id in s.connections && !s.connections[id].closed {
          ChargeCommandKeeps(c, s, id, now);
          DisconnectKeeps(c, ChargeCommand(c, s, id, now), id);
          HandleKeeps(c, ChargeCommand(c, s, id, now), id, now, command);
        }
      case Drop(id) =>
        if id in s.connections {
          DisconnectKeeps(c, s, id);
        }
    }
  }

  /** And so does every run from the start. */
  lemma {:induction false} RunKeeps(c: Config, events: seq<Event>)
    requires c.Valid()
    ensures Coherent(c, Run(c, events))
  {
    hide Step;
    if events != [] {
      RunKeeps(c, events[..|events| - 1]);
      StepKeeps(c, Run(c, events[..|events| - 1]), events[|events| - 1]);
    }
  }
}
