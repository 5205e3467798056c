/**
 * What coherence buys: membership is mutual, refusals change nothing, a rename carries a member's
 * rank and keys along and can be undone, a part undoes a join, a disconnect leaves no trace.
 */
module PeerChatSafety {
  import opened Wrappers
  import opened TokenBuckets
  import opened PeerChat
  import opened PeerChatCoherence

  // -------------------------------------------------------------- membership

  /** In every reachable state: an open connection lists a room exactly when it is one of its users, once. */
  lemma MembershipIsMutual(c: Config, events: seq<Event>, id: Id, k: string)
    requires c.Valid()
    ensures var s := Run(c, events);
            id in s.connections && !s.connections[id].closed ==>
              && (k in s.connections[id].channels <==>
                    k in s.channels && exists f :: f in s.channels[k].users && s.channels[k].users[f] == id)
              && (k in s.channels ==>
                    forall f :: f in s.channels[k].users && s.channels[k].users[f] == id ==> f == c.fold(s.connections[id].nick))
  {
    hide Run, RoomSound, ClientSound, NicksSound;
    RunKeeps(c, events);
    var s := Run(c, events);
    if id in s.connections && !s.connections[id].closed {
      assert RoomsSound(c, s, id);
      if k in s.channels {
        assert UsersSound(c, s, k);
        forall f | f in s.channels[k].users && s.channels[k].users[f] == id
          ensures f == c.fold(s.connections[id].nick) && k in s.connections[id].channels
        {
          assert Bears(c, s, id, f);
        }
      }
    }
  }

  /** Open, and with a nick. */
  predicate Registered(s: State, id: Id) {
    id in s.connections && !s.connections[id].closed && s.connections[id].nick != ""
  }

  /** In every reachable state: nicks are unique up to case, and the limits hold. */
  lemma LimitsHold(c: Config, events: seq<Event>)
    requires c.Valid()
    ensures var s := Run(c, events);
            && (forall a, b :: Registered(s, a) && Registered(s, b) && a != b ==>
                  c.fold(s.connections[a].nick) != c.fold(s.connections[b].nick))
            && |s.channels| <= c.rooms
            && (forall k :: k in s.channels ==>
                  && s.channels[k].users != map[] && s.channels[k].operators <= s.channels[k].users.Keys
                  && s.channels[k].clientKeys.Keys == s.channels[k].users.Keys
                  && (c.staging <= k ==> |s.channels[k].users| <= 2) && |s.channels[k].keys| <= c.keysPerCollection
                  && forall f :: f in s.channels[k].clientKeys ==> |s.channels[k].clientKeys[f]| <= c.keysPerCollection)
            && (forall id :: id in s.connections ==>
                  |s.connections[id].channels| <= c.roomsPerClient && |s.connections[id].userKeys| <= c.keysPerCollection)
  {
    hide Run, UsersSound, RoomsSound, NicksSound;
    RunKeeps(c, events);
    var s := Run(c, events);
    forall a, b | Registered(s, a) && Registered(s, b) && a != b
      ensures c.fold(s.connections[a].nick) != c.fold(s.connections[b].nick)
    {
      Distinct(c, s, a, b);
    }
    forall k | k in s.channels
      ensures RoomSound(c, k, s.channels[k])
    {
    }
    forall id | id in s.connections
      ensures ClientSound(c, s.connections[id])
    {
    }
  }

  // ---------------------------------------------------------------- refusals

  /** Nothing but the budgets of `id` differs. */
  ghost predicate OnlyBudgets(s: State, t: State, id: Id) {
    && id in s.connections && id in t.connections && t.clients == s.clients && t.channels == s.channels
    && t.connections == s.connections[id := s.connections[id].(commands := t.connections[id].commands,
                                                               creations := t.connections[id].creations)]
  }

  lemma SpendIsBudget(c: Config, s: State, id: Id, now: real, cost: nat)
    requires id in s.connections
    ensures OnlyBudgets(s, Spend(c, s, id, now, cost), id)
  {
    hide Charge;
    assert s.connections[id := s.connections[id]] == s.connections;
  }

  lemma NothingIsBudget(s: State, id: Id)
    requires id in s.connections
    ensures OnlyBudgets(s, s, id)
  {
    assert s.connections[id := s.connections[id]] == s.connections;
  }

  lemma SameCKeys(c: Config, s: State, k: string, member: string)
    requires Coherent(c, s) && k in s.channels && member in s.channels[k].users
    ensures WithKeysOf(s.channels[k], member, KeysOf(s.channels[k], member)) == s.channels[k]
    ensures s.channels[k := s.channels[k]] == s.channels
  {
    hide Coherent;
    SoundRoom(c, s, k);
    var ch := s.channels[k];
    assert ch.clientKeys[member := KeysOf(ch, member)] == ch.clientKeys;
  }

  lemma CKeyRefused(c: Config, s: State, id: Id, now: real, name: string, nick: string, updates: map<string, string>)
    requires Coherent(c, s) && id in s.connections && SetCKey(c, s, id, now, name, nick, updates).reply.Refused?
    ensures OnlyBudgets(s, SetCKey(c, s, id, now, name, nick, updates).state, id)
  {
    hide Coherent, OnlyBudgets, Spend, Affords, Fresh, Overflows, KeysOf;
    var k := c.fold(name);
    var member := c.fold(s.connections[s.clients[c.fold(nick)]].nick);
    SameCKeys(c, s, k, member);
    SpendIsBudget(c, s, id, now, Fresh(KeysOf(s.channels[k], member), updates));
    NothingIsBudget(s, id);
  }

  /** A refused command leaves every room, every nick and every key as it was. */
  lemma RefusalsChangeNothing(c: Config, s: State, id: Id, now: real, command: Command)
    requires Coherent(c, s) && id in s.connections
    requires Handle(c, s, id, now, command).reply.Refused?
    ensures OnlyBudgets(s, Handle(c, s, id, now, command).state, id)
  {
    hide Coherent, OnlyBudgets, Spend, Affords, Fresh, Overflows, SetCKey, SetUser, Disconnect, Enter, Rename, Welcome;
    NothingIsBudget(s, id);
    match command {
      case Nick(nick) => SpendIsBudget(c, s, id, now, NickCost(c, s.connections[id], nick));
      case JoinRoom(name) => SpendIsBudget(c, s, id, now, JoinCost(c, s, id, c.fold(name)));
      case Key(updates) => SpendIsBudget(c, s, id, now, Fresh(s.connections[id].userKeys, updates));
      case ChanKey(name, updates) => SpendIsBudget(c, s, id, now, Fresh(s.channels[c.fold(name)].keys, updates));
      case CKey(name, nick, updates) => CKeyRefused(c, s, id, now, name, nick, updates);
      case Mode(name, grant, nick) =>
        SpendIsBudget(c, s, id, now, 1);
        SpendIsBudget(c, s, id, now, 0);
      case _ =>
    }
  }

  /** A join makes a member exactly when no limit stands in its way and the budget allows it. */
  lemma JoinSucceedsIff(c: Config, s: State, id: Id, now: real, name: string)
    requires Coherent(c, s) && id in s.connections && !s.connections[id].closed
    ensures var k := c.fold(name);
            && id in Join(c, s, id, now, name).state.connections
            && (IsMember(c, Join(c, s, id, now, name).state, id, k)
                <==> IsMember(c, s, id, k)
                     || (JoinRefusal(c, s, id, name) == 0 && Affords(c, s.connections[id], now, JoinCost(c, s, id, k))))
  {
    hide Coherent, Affords, Charge;
  }

  // ---------------------------------------------------------- keys and ranks

  /**
   * A key collection is updated if and only if the result fits the cap and the budget affords its
   * growth; then every update lands and every other key stays.
   */
  lemma UpdatesLand(c: Config, s: State, id: Id, now: real, collection: map<string, string>, updates: map<string, string>)
    requires id in s.connections
    ensures var r := UpdateKeys(c, s, id, now, collection, updates).1;
            && |collection| <= |collection + updates|
            && (r.Some? <==> |collection + updates| <= c.keysPerCollection
                             && Affords(c, s.connections[id], now, |collection + updates| - |collection|))
            && (r.Some? ==> forall k ::
                  && (k in r.value <==> k in collection || k in updates)
                  && (k in r.value ==> r.value[k] == if k in updates then updates[k] else collection[k]))
  {
    hide Affords, Spend, Fresh;
    UpdatedSize(collection, updates);
  }

  /** A rank change that goes through sets the rank of its target and of nobody else, and moves nobody. */
  lemma ModeSetsRank(c: Config, s: State, id: Id, now: real, name: string, grant: bool, nick: string,
        k: string, f: string)
    requires Coherent(c, s) && id in s.connections && k in s.channels
    requires SetMode(c, s, id, now, name, grant, nick).reply.Done?
    ensures var t := SetMode(c, s, id, now, name, grant, nick).state;
            && t.channels.Keys == s.channels.Keys && t.clients == s.clients
            && t.channels[k].users == s.channels[k].users
            && (f in s.channels[k].users ==>
                  StandingOf(t.channels[k], f)
                  == if k == c.fold(name) && f == c.fold(nick) then StandingOf(s.channels[k], f).(operator := grant)
                     else StandingOf(s.channels[k], f))
  {
    hide Coherent, Spend, Affords;
    assert s.channels.Keys + {c.fold(name)} == s.channels.Keys;
  }

  // ---------------------------------------------------------------- renaming

  /** The standing of the user listed as `f` in a room. */
  datatype Standing = Standing(id: Id, operator: bool, keys: map<string, string>)

  function StandingOf(ch: Channel, f: string): Standing
    requires f in ch.users
  {
    Standing(ch.users[f], f in ch.operators, KeysOf(ch, f))
  }

  /**
   * A rename leaves the set of rooms, takes the renamed member along in each of its rooms with the
   * same rank and keys, and changes nobody else's standing.
   */
  lemma RenameCarriesStanding(c: Config, s: State, id: Id, nick: string, k: string)
    requires MayRename(c, s, id, nick) && s.connections[id].nick != "" && k in s.channels
    ensures var t := Rename(c, s, id, nick);
            var f := c.fold(s.connections[id].nick); var g := c.fold(nick);
            && t.channels.Keys == s.channels.Keys
            && (f in s.channels[k].users <==> g in t.channels[k].users)
            && (f in s.channels[k].users ==> StandingOf(t.channels[k], g) == StandingOf(s.channels[k], f))
            && (forall h :: h != f && h != g ==>
                  && (h in t.channels[k].users <==> h in s.channels[k].users)
                  && (h in s.channels[k].users ==> StandingOf(t.channels[k], h) == StandingOf(s.channels[k], h)))
            && (f != g ==> f !in t.channels[k].users)
  {
    hide Coherent, Bears, Rename, Renamed, NickInUse, IsMember, StandingOf;
    RenameFrame(c, s, id, nick);
    SoundRoom(c, s, k);
    RoomKeysMatch(c, k, s.channels[k]);
    OwnEntry(c, s, id, k);
    NewNickIsFree(c, s, id, nick, k);
    MemberListed(c, s, id, k);
    if k in s.connections[id].channels {
      RenamedStanding(s.channels[k], c.fold(s.connections[id].nick), c.fold(nick), id);
    }
  }

  lemma MemberListed(c: Config, s: State, id: Id, k: string)
    requires Coherent(c, s) && id in s.connections && !s.connections[id].closed && s.connections[id].nick != "" && k in s.channels
    ensures k in s.connections[id].channels <==> c.fold(s.connections[id].nick) in s.channels[k].users
    ensures k in s.connections[id].channels ==> s.channels[k].users[c.fold(s.connections[id].nick)] == id
  {
    hide Coherent;
    MemberIffListed(c, s, id, k);
  }

  lemma NewNickIsFree(c: Config, s: State, id: Id, nick: string, k: string)
    requires MayRename(c, s, id, nick) && k in s.channels
    ensures c.fold(nick) in s.channels[k].users ==> s.channels[k].users[c.fold(nick)] == id
  {
    hide RoomSound, ClientSound, NicksSound, RoomsSound, NickInUse;
    assert UsersSound(c, s, k);
    if c.fold(nick) in s.channels[k].users {
      FreeNick(c, s, id, nick, s.channels[k].users[c.fold(nick)]);
    }
  }

  lemma RenamedStanding(ch: Channel, f: string, g: string, id: Id)
    requires f in ch.users && ch.users[f] == id && (g in ch.users ==> g == f)
    requires ch.operators <= ch.users.Keys && ch.clientKeys.Keys == ch.users.Keys
    ensures var r := Renamed(ch, f, g, id);
            && g in r.users && StandingOf(r, g) == StandingOf(ch, f) && (f != g ==> f !in r.users)
            && (forall h :: h != f && h != g ==>
                  && (h in r.users <==> h in ch.users) && (h in ch.users ==> StandingOf(r, h) == StandingOf(ch, h)))
  {
  }

  lemma RoomKeysMatch(c: Config, k: string, ch: Channel)
    requires RoomSound(c, k, ch)
    ensures ch.operators <= ch.users.Keys && ch.clientKeys.Keys == ch.users.Keys && c.fold(ch.name) == k
  {
  }

  lemma RenamedBack(ch: Channel, f: string, g: string, id: Id)
    requires f in ch.users && ch.users[f] == id && (g in ch.users ==> g == f)
    requires ch.operators <= ch.users.Keys && ch.clientKeys.Keys == ch.users.Keys
    ensures Renamed(Renamed(ch, f, g, id), g, f, id) == ch
  {
    var r := Renamed(Renamed(ch, f, g, id), g, f, id);
    assert r.users == ch.users;
    assert r.clientKeys == ch.clientKeys;
    assert r.operators == ch.operators;
  }

  lemma RekeyedBack<V>(m: map<string, V>, f: string, g: string, v: V)
    requires f in m && m[f] == v && (g in m ==> g == f)
    ensures ((m - {f})[g := v] - {g})[f := v] == m
  {
  }

  /** Renaming back restores the whole state. */
  lemma RenameCanBeUndone(c: Config, s: State, id: Id, nick: string)
    requires MayRename(c, s, id, nick) && s.connections[id].nick != ""
    ensures Rename(c, Rename(c, s, id, nick), id, s.connections[id].nick) == s
  {
    hide RoomSound, ClientSound, UsersSound, RoomsSound;
    var f, g := c.fold(s.connections[id].nick), c.fold(nick);
    var t := Rename(c, s, id, nick);
    var u := Rename(c, t, id, s.connections[id].nick);
    assert Bears(c, s, id, f);
    if g in s.clients {
      FreeNick(c, s, id, nick, s.clients[g]);
    }
    RekeyedBack(s.clients, f, g, id);
    forall k | k in s.channels
      ensures u.channels[k] == s.channels[k]
    {
      RenamedBackIn(c, s, id, nick, k);
    }
    assert u.channels == s.channels && u.connections == s.connections && u.clients == s.clients;
  }

  lemma RenamedBackIn(c: Config, s: State, id: Id, nick: string, k: string)
    requires MayRename(c, s, id, nick) && s.connections[id].nick != "" && k in s.channels
    ensures Rename(c, Rename(c, s, id, nick), id, s.connections[id].nick).channels[k] == s.channels[k]
  {
    hide RoomSound, ClientSound, NicksSound, Rename, Renamed, NickInUse;
    var f, g := c.fold(s.connections[id].nick), c.fold(nick);
    RenameFrame(c, s, id, nick);
    RenameFrame(c, Rename(c, s, id, nick), id, s.connections[id].nick);
    MemberIffListed(c, s, id, k);
    if k in s.connections[id].channels {
      SoundRoom(c, s, k);
      RoomKeysMatch(c, k, s.channels[k]);
      if g in s.channels[k].users {
        assert UsersSound(c, s, k);
        FreeNick(c, s, id, nick, s.channels[k].users[g]);
      }
      RenamedBack(s.channels[k], f, g, id);
    }
  }

  // ------------------------------------------------------ joining and leaving

  lemma EnteredWithout(ch: Channel, f: string, id: Id)
    requires f !in ch.users && f !in ch.clientKeys && f !in ch.operators
    ensures ch.users != map[] ==> Without(Entered(ch, f, id), f) == ch
    ensures ch.users == map[] <==> Without(Entered(ch, f, id), f).users == map[]
  {
    var w := Without(Entered(ch, f, id), f);
    assert w.users == ch.users && w.clientKeys == ch.clientKeys;
    assert ch.users != map[] ==> w.operators == ch.operators;
  }

  lemma EnterThenPartRooms(c: Config, s: State, id: Id, name: string)
    requires Coherent(c, s) && id in s.connections && !IsMember(c, s, id, c.fold(name))
    ensures Part(c, Enter(c, s, id, name), id, name).state.channels == s.channels
  {
    hide Coherent, Entered, Without, ParticipantLimit;
    var k, f := c.fold(name), c.fold(s.connections[id].nick);
    var ch := if k in s.channels then s.channels[k] else NewRoom(c, name);
    if k in s.channels {
      SoundRoom(c, s, k);
      RoomKeysMatch(c, k, ch);
      RoomInUse(c, k, ch);
    }
    EnteredWithout(ch, f, id);
    EnteredHas(ch, f, id);
    BackToBefore(s.channels, k, Entered(ch, f, id), Without(Entered(ch, f, id), f));
  }

  lemma RoomInUse(c: Config, k: string, ch: Channel)
    requires RoomSound(c, k, ch)
    ensures ch.users != map[]
  {
  }

  lemma EnteredHas(ch: Channel, f: string, id: Id)
    ensures f in Entered(ch, f, id).users && Entered(ch, f, id).name == ch.name
  {
  }

  lemma BackToBefore(m: map<string, Channel>, k: string, a: Channel, b: Channel)
    ensures k in m && m[k] == b ==> m[k := a][k := b] == m
    ensures k !in m ==> m[k := a][k := b] - {k} == m
  {
  }

  /** A part undoes a join, rooms created included. */
  lemma PartUndoesJoin(c: Config, s: State, id: Id, name: string)
    requires Coherent(c, s) && id in s.connections && !s.connections[id].closed
    requires JoinRefusal(c, s, id, name) == 0 && !IsMember(c, s, id, c.fold(name))
    ensures Part(c, Enter(c, s, id, name), id, name).state == s
  {
    hide Coherent, ParticipantLimit;
    var k := c.fold(name);
    SoundClient(c, s, id);
    MemberIffListed(c, s, id, k);
    EnterThenPartRooms(c, s, id, name);
    EnteredName(c, s, id, name);
    assert s.connections[id].channels + {k} - {k} == s.connections[id].channels;
    assert Part(c, Enter(c, s, id, name), id, name).state.connections == s.connections;
  }

  lemma EnteredName(c: Config, s: State, id: Id, name: string)
    requires Coherent(c, s) && id in s.connections
    ensures c.fold(Enter(c, s, id, name).channels[c.fold(name)].name) == c.fold(name)
  {
    hide Coherent;
    if c.fold(name) in s.channels {
      SoundRoom(c, s, c.fold(name));
    }
  }

  /**
   * A disconnect leaves no trace of the connection in any room or among the nicks, dissolves exactly
   * the rooms it was alone in, and changes nobody else's standing.
   */
  lemma DisconnectLeavesNoTrace(c: Config, s: State, id: Id, k: string)
    requires Coherent(c, s) && id in s.connections && !s.connections[id].closed
    ensures var t := Disconnect(c, s, id);
            && (forall f :: f in t.clients ==> t.clients[f] != id)
            && (k in t.channels <==> k in s.channels && exists f :: f in s.channels[k].users && s.channels[k].users[f] != id)
            && (k in t.channels ==>
                  && (forall f :: f in t.channels[k].users <==> f in s.channels[k].users && s.channels[k].users[f] != id)
                  && (forall f :: f in t.channels[k].users ==> StandingOf(t.channels[k], f) == StandingOf(s.channels[k], f)))
  {
    hide ClientSound;
    DisconnectKeeps(c, s, id);
    var t := Disconnect(c, s, id);
    forall f | f in t.clients
      ensures t.clients[f] != id
    {
      assert Bears(c, t, t.clients[f], f);
    }
    if k in s.channels {
      RoomAfterDisconnect(c, s, id, k);
    }
  }

  /** In a room, exactly the entry under the own nick is one's own. */
  lemma OwnEntry(c: Config, s: State, id: Id, k: string)
    requires Coherent(c, s) && id in s.connections && !s.connections[id].closed && k in s.channels
    ensures forall f :: f in s.channels[k].users ==>
              (s.channels[k].users[f] == id <==> k in s.connections[id].channels && f == c.fold(s.connections[id].nick))
  {
    hide RoomSound, ClientSound, NicksSound;
    assert UsersSound(c, s, k) && RoomsSound(c, s, id);
    forall f | f in s.channels[k].users
      ensures s.channels[k].users[f] == id <==> k in s.connections[id].channels && f == c.fold(s.connections[id].nick)
    {
      assert Bears(c, s, s.channels[k].users[f], f);
    }
  }

  lemma RoomAfterDisconnect(c: Config, s: State, id: Id, k: string)
    requires Coherent(c, s) && id in s.connections && !s.connections[id].closed && k in s.channels
    ensures var t := Disconnect(c, s, id);
            && (k in t.channels <==> exists f :: f in s.channels[k].users && s.channels[k].users[f] != id)
            && (k in t.channels ==>
                  && (forall f :: f in t.channels[k].users <==> f in s.channels[k].users && s.channels[k].users[f] != id)
                  && (forall f :: f in t.channels[k].users ==> StandingOf(t.channels[k], f) == StandingOf(s.channels[k], f)))
  {
    hide Coherent, KeysOf;
    SoundRoom(c, s, k);
    RoomKeysMatch(c, k, s.channels[k]);
    OwnEntry(c, s, id, k);
    var users := s.channels[k].users;
    var left := Without(s.channels[k], c.fold(s.connections[id].nick));
    if left.users != map[] {
      var f :| f in left.users;
      assert f in users && (k in s.connections[id].channels ==> users[f] != id);
    }
    if k in s.connections[id].channels {
      assert (exists f :: f in users && users[f] != id) ==> exists f :: f in left.users;
      KeysLeft(s.channels[k], c.fold(s.connections[id].nick));
    } else {
      assert exists f :: f in users;
    }
  }

  lemma KeysLeft(ch: Channel, member: string)
    ensures forall f :: f in Without(ch, member).users ==> KeysOf(Without(ch, member), f) == KeysOf(ch, f)
  {
  }
}
