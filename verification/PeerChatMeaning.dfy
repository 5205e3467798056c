/**
 * What the PeerChat commands do, told room by room and user by user: which conditions let a command
 * through, what it costs, whose standing it changes, and that it leaves everything else as it was.
 */
module PeerChatMeaning {
  import opened Wrappers
  import opened TokenBuckets
  import opened PeerChat
  import opened PeerChatCoherence
  import opened PeerChatSafety

  // ----------------------------------------------------------------- budgets

  /** Nothing costs nothing; whatever has a price must be in the budget. */
  predicate CanPay(c: Config, cl: Client, now: real, price: nat) {
    price == 0 || price as real <= Refill(c.creationLimits, cl.creations, now)
  }

  function Paid(c: Config, cl: Client, now: real, price: nat): Bucket {
    if price == 0 then cl.creations else Bucket(Refill(c.creationLimits, cl.creations, now) - price as real, now)
  }

  lemma Pays(c: Config, s: State, id: Id, now: real, price: nat)
    requires id in s.connections
    ensures Affords(c, s.connections[id], now, price) <==> CanPay(c, s.connections[id], now, price)
    ensures CanPay(c, s.connections[id], now, price) ==>
              Spend(c, s, id, now, price).connections
              == s.connections[id := s.connections[id].(creations := Paid(c, s.connections[id], now, price))]
  {
    assert s.connections[id := s.connections[id]] == s.connections;
  }

  // ---------------------------------------------------------- what may change

  predicate Listed(s: State, k: string, f: string) {
    k in s.channels && f in s.channels[k].users
  }

  predicate Open(s: State, id: Id) {
    id in s.connections && !s.connections[id].closed
  }

  predicate SameRoom(s: State, t: State, k: string) {
    (k in s.channels <==> k in t.channels) && (k in s.channels ==> t.channels[k] == s.channels[k])
  }

  /** `f` is a user of room `k` in both states or in neither, with the same connection, rank and keys. */
  predicate SameStanding(s: State, t: State, k: string, f: string) {
    && (Listed(s, k, f) <==> Listed(t, k, f))
    && (Listed(s, k, f) ==> StandingOf(t.channels[k], f) == StandingOf(s.channels[k], f))
  }

  /** What a room has besides its users, their ranks and their keys. */
  predicate SameHead(a: Channel, b: Channel) {
    a.name == b.name && a.keys == b.keys && a.topic == b.topic && a.limit == b.limit
  }

  /** No connection but that of `id` differs, which is now `cl`. */
  predicate OnlyBecomes(s: State, t: State, id: Id, cl: Client)
    requires id in s.connections
  {
    t.connections == s.connections[id := cl]
  }

  // ----------------------------------------------------------------- joining

  /** A room new to the server costs two, one that exists costs one, one's own costs nothing. */
  function JoinPrice(c: Config, s: State, id: Id, k: string): nat
    requires id in s.connections
  {
    if Listed(s, k, c.fold(s.connections[id].nick)) then 0 else if k in s.channels then 1 else 2
  }

  /** A room has space: for two in a staging room; the server, if the room is not there yet. */
  predicate HasSpace(c: Config, s: State, k: string) {
    if k in s.channels then c.staging <= k ==> |s.channels[k].users| < 2 else |s.channels| < c.rooms
  }

  /** In a sound state: which answer a join gets. */
  lemma JoinAnswers(c: Config, s: State, id: Id, now: real, name: string)
    requires Coherent(c, s) && id in s.connections
    ensures var cl, k := s.connections[id], c.fold(name);
            var member := Listed(s, k, c.fold(cl.nick));
            var free := |cl.channels| < c.roomsPerClient;
            var reply := Join(c, s, id, now, name).reply;
            && (reply == Refused(451) <==> !cl.welcomed)
            && (reply == Refused(461) <==> cl.welcomed && name == "")
            && (reply == Refused(405) <==> cl.welcomed && name != "" && !member
                                           && (!free || (k !in s.channels && c.rooms <= |s.channels|)))
            && (reply == Refused(471) <==> cl.welcomed && name != "" && !member && free
                                           && k in s.channels && c.staging <= k && 2 <= |s.channels[k].users|)
            && (reply == Done <==> cl.welcomed && name != "" && (member || (free && HasSpace(c, s, k)))
                                   && CanPay(c, cl, now, JoinPrice(c, s, id, k)))
            && (reply == Done || reply in {Refused(451), Refused(461), Refused(405), Refused(471), Refused(263)})
  {
    hide Coherent, Affords, Spend, Enter, Refill, CanPay;
    Pays(c, s, id, now, JoinCost(c, s, id, c.fold(name)));
    if c.fold(name) in s.channels {
      SoundRoom(c, s, c.fold(name));
    }
  }

  lemma JoinIs(c: Config, s: State, id: Id, now: real, name: string, t: State)
    requires id in s.connections && Join(c, s, id, now, name) == Outcome(t, Done)
    ensures var k, spent := c.fold(name), Spend(c, s, id, now, JoinCost(c, s, id, c.fold(name)));
            && t == Enter(c, spent, id, name) && JoinRefusal(c, s, id, name) == 0
            && spent.channels == s.channels && spent.clients == s.clients
            && spent.connections[id].nick == s.connections[id].nick
            && spent.connections[id].channels == s.connections[id].channels
            && spent.connections
               == s.connections[id := s.connections[id].(creations := Paid(c, s.connections[id], now, JoinPrice(c, s, id, k)))]
  {
    hide JoinRefusal, Affords, Spend, Refill, CanPay, Enter, Paid;
    Pays(c, s, id, now, JoinCost(c, s, id, c.fold(name)));
  }

  /** A join touches one room, one connection and no nick. */
  lemma JoinTouches(c: Config, s: State, id: Id, now: real, name: string, t: State)
    requires Coherent(c, s) && id in s.connections && Join(c, s, id, now, name) == Outcome(t, Done)
    ensures var cl, k := s.connections[id], c.fold(name);
            && t.clients == s.clients && t.channels.Keys == s.channels.Keys + {k}
            && OnlyBecomes(s, t, id, cl.(channels := cl.channels + {k}, creations := Paid(c, cl, now, JoinPrice(c, s, id, k))))
  {
    hide Coherent, Spend, Join, Paid, JoinPrice, Entered, JoinRefusal, JoinCost;
    JoinIs(c, s, id, now, name, t);
  }

  /** What a join leaves of the room as it was, and what a room begins with. */
  lemma JoinKeepsHead(c: Config, s: State, id: Id, now: real, name: string, t: State)
    requires Coherent(c, s) && id in s.connections && Join(c, s, id, now, name) == Outcome(t, Done)
    ensures var k := c.fold(name);
            && k in t.channels
            && (k in s.channels ==> SameHead(t.channels[k], s.channels[k]))
            && (k !in s.channels ==> t.channels[k].name == name && t.channels[k].keys == map[] && t.channels[k].topic == "")
  {
    hide Coherent, Spend, Join, Paid, JoinPrice, JoinRefusal, JoinCost;
    JoinIs(c, s, id, now, name, t);
  }

  lemma EnteredStanding(ch: Channel, me: string, id: Id, f: string)
    requires ch.operators <= ch.users.Keys && ch.clientKeys.Keys == ch.users.Keys
    ensures var e := Entered(ch, me, id);
            && me in e.users && (f != me ==> (f in e.users <==> f in ch.users))
            && (f in ch.users && (f != me || ch.users[me] == id) && ch.users != map[] ==> StandingOf(e, f) == StandingOf(ch, f))
            && (me !in ch.users ==> StandingOf(e, me) == Standing(id, ch.users == map[], map[]))
  {
  }

  /**
   * A join sets the standing of the joiner and of nobody else.  One who is in the room already keeps
   * it; a new member has no keys, and is an operator exactly if the room was not there before.
   */
  lemma JoinSetsStanding(c: Config, s: State, id: Id, now: real, name: string, t: State, k: string, f: string)
    requires Coherent(c, s) && Open(s, id) && Join(c, s, id, now, name) == Outcome(t, Done)
    ensures var me := c.fold(s.connections[id].nick);
            && (k != c.fold(name) ==> SameRoom(s, t, k))
            && (f != me || Listed(s, k, me) ==> SameStanding(s, t, k, f))
            && (k == c.fold(name) && !Listed(s, k, me) ==>
                  Listed(t, k, me) && StandingOf(t.channels[k], me) == Standing(id, k !in s.channels, map[]))
  {
    hide Coherent, Spend, Join, Paid, JoinPrice, JoinCost, ParticipantLimit, Entered, StandingOf;
    JoinIs(c, s, id, now, name, t);
    var me := c.fold(s.connections[id].nick);
    if k == c.fold(name) && k in s.channels {
      SoundRoom(c, s, k);
      RoomKeysMatch(c, k, s.channels[k]);
      RoomInUse(c, k, s.channels[k]);
      SoundClient(c, s, id);
      MemberListed(c, s, id, k);
      EnteredStanding(s.channels[k], me, id, f);
      EnteredStanding(s.channels[k], me, id, me);
    } else if k == c.fold(name) {
      EnteredStanding(NewRoom(c, name), me, id, f);
      EnteredStanding(NewRoom(c, name), me, id, me);
    }
  }

  // ---------------------------------------------------------------- the rest

  /** In a sound state: which answer a change of nick gets. */
  lemma NickAnswers(c: Config, s: State, id: Id, now: real, nick: string)
    requires Coherent(c, s) && Open(s, id)
    ensures var cl, g := s.connections[id], c.fold(nick);
            var legal := 1 <= |nick| <= 31;
            var taken := exists j :: j != id && Bears(c, s, j, g);
            var reply := SetNick(c, s, id, now, nick).reply;
            && (reply == Refused(432) <==> !legal)
            && (reply == Refused(433) <==> legal && taken)
            && (reply == Done <==> legal && !taken && CanPay(c, cl, now, if g == c.fold(cl.nick) then 0 else 1))
            && (reply == Done || reply in {Refused(432), Refused(433), Refused(263)})
  {
    hide RoomSound, UsersSound, ClientSound, RoomsSound, Affords, CanPay, Spend, Rename, Welcome;
    Pays(c, s, id, now, NickCost(c, s.connections[id], nick));
    var g := c.fold(nick);
    if g in s.clients {
      assert Bears(c, s, s.clients[g], g);
    }
  }

  /** A new nick replaces the old one among the nicks, and completes the registration of one with a user name. */
  lemma NickTakes(c: Config, s: State, id: Id, now: real, nick: string, t: State)
    requires Coherent(c, s) && Open(s, id) && SetNick(c, s, id, now, nick) == Outcome(t, Done)
    ensures var cl, g := s.connections[id], c.fold(nick);
            && (forall f :: f in t.clients <==> f == g || (f in s.clients && (cl.nick == "" || f != c.fold(cl.nick))))
            && (forall f :: f in t.clients ==> t.clients[f] == if f == g then id else s.clients[f])
            && OnlyBecomes(s, t, id, cl.(nick := nick, welcomed := cl.welcomed || cl.user != "",
                                         creations := Paid(c, cl, now, if g == c.fold(cl.nick) then 0 else 1)))
  {
    hide Coherent, Affords, Spend, CanPay, RenamedIn;
    Pays(c, s, id, now, NickCost(c, s.connections[id], nick));
  }

  /** A change of nick takes the standing of its user along in every room, and leaves everybody else's. */
  lemma NickCarriesStanding(c: Config, s: State, id: Id, now: real, nick: string, t: State, k: string, h: string)
    requires Coherent(c, s) && Open(s, id) && SetNick(c, s, id, now, nick) == Outcome(t, Done)
    ensures var f, g := c.fold(s.connections[id].nick), c.fold(nick);
            && t.channels.Keys == s.channels.Keys
            && (s.connections[id].nick == "" ==> t.channels == s.channels)
            && (h != f && h != g ==> SameStanding(s, t, k, h))
            && (s.connections[id].nick != "" ==>
                  && (Listed(s, k, f) <==> Listed(t, k, g))
                  && (Listed(s, k, f) ==> StandingOf(t.channels[k], g) == StandingOf(s.channels[k], f))
                  && (f != g ==> !Listed(t, k, f)))
  {
    hide Coherent, Affords, Spend, StandingOf, RenamedIn;
    SameRenamed(c, s, id, now, nick);
    if s.connections[id].nick != "" && k in s.channels {
      RenameCarriesStanding(c, s, id, nick, k);
    }
  }

  lemma SameRenamed(c: Config, s: State, id: Id, now: real, nick: string)
    requires id in s.connections && SetNick(c, s, id, now, nick).reply.Done?
    ensures SetNick(c, s, id, now, nick).state.channels == Rename(c, s, id, nick).channels
    ensures Rename(c, s, id, nick).channels.Keys == s.channels.Keys
    ensures nick != "" && !NickInUse(c, s, id, nick)
  {
    hide Affords, Charge, Renamed;
  }

  /** A user name is taken over as it is, and completes the registration of one with a nick. */
  lemma UserSets(s: State, id: Id, user: string)
    requires id in s.connections
    ensures var cl, t := s.connections[id], SetUser(s, id, user);
            && t.clients == s.clients && t.channels == s.channels
            && OnlyBecomes(s, t, id, cl.(user := user, userKeys := cl.userKeys["username" := user],
                                         welcomed := cl.welcomed || (cl.nick != "" && user != "")))
  {
    var cl := s.connections[id];
    assert s.connections[id := cl.(user := user)][id := cl] == s.connections[id := cl];
  }

  lemma PartIs(c: Config, s: State, id: Id, name: string)
    requires Coherent(c, s) && id in s.connections
    ensures var k, cl, out := c.fold(name), s.connections[id], Part(c, s, id, name);
            && (!Listed(s, k, c.fold(cl.nick)) ==> out == Outcome(s, Ignored))
            && (Listed(s, k, c.fold(cl.nick)) ==>
                  var left := Without(s.channels[k], c.fold(cl.nick));
                  && out.reply == Done && out.state.clients == s.clients
                  && out.state.channels == (if left.users == map[] then s.channels - {k} else s.channels[k := left])
                  && OnlyBecomes(s, out.state, id, cl.(channels := cl.channels - {k})))
  {
    hide Coherent, Without;
    var k, me := c.fold(name), c.fold(s.connections[id].nick);
    if Listed(s, k, me) {
      SoundRoom(c, s, k);
      RoomKeysMatch(c, k, s.channels[k]);
      assert s.channels[k := Without(s.channels[k], me)] - {k} == s.channels - {k};
    }
  }

  /** A part is carried out exactly for a user of the room; it takes the room from that user's list. */
  lemma PartAnswers(c: Config, s: State, id: Id, name: string)
    requires Coherent(c, s) && id in s.connections
    ensures var k, cl, out := c.fold(name), s.connections[id], Part(c, s, id, name);
            && (out.reply == Done <==> Listed(s, k, c.fold(cl.nick)))
            && (out.reply == Done || out == Outcome(s, Ignored))
            && (out.reply == Done ==>
                  out.state.clients == s.clients && OnlyBecomes(s, out.state, id, cl.(channels := cl.channels - {k})))
  {
    hide Coherent, Part, Without, OnlyBecomes;
    PartIs(c, s, id, name);
  }

  /**
   * A part takes the user from the room, with rank and keys, and the room from the server exactly if
   * nobody else is in it.  Everybody else's standing and every other room stay.
   */
  lemma PartTakesOnlyOneself(c: Config, s: State, id: Id, name: string, t: State, k: string, f: string)
    requires Coherent(c, s) && id in s.connections && Part(c, s, id, name) == Outcome(t, Done)
    ensures var me := c.fold(s.connections[id].nick);
            && (k != c.fold(name) ==> SameRoom(s, t, k))
            && (f != me ==> SameStanding(s, t, k, f))
            && (k == c.fold(name) ==>
                  && !Listed(t, k, me) && (k in t.channels <==> exists h :: h != me && Listed(s, k, h))
                  && (k in t.channels ==> me !in t.channels[k].operators && me !in t.channels[k].clientKeys
                                          && SameHead(t.channels[k], s.channels[k])))
  {
    hide Coherent, Part, OnlyBecomes;
    PartIs(c, s, id, name);
    var me := c.fold(s.connections[id].nick);
    if k == c.fold(name) {
      var left := Without(s.channels[k], me);
      KeysLeft(s.channels[k], me);
      assert forall h :: h in left.users <==> h != me && Listed(s, k, h);
      if left.users != map[] {
        var h :| h in left.users;
      }
    }
  }

  // -------------------------------------------------------------------- keys

  /** What setting `updates` costs: one for each key that the collection did not have. */
  function Growth(keys: map<string, string>, updates: map<string, string>): (n: nat)
    ensures n == |keys + updates| - |keys|
  {
    UpdatedSize(keys, updates);
    |keys + updates| - |keys|
  }

  /** The updated collection fits the cap, and the budget holds one token for every new key. */
  predicate MayUpdate(c: Config, cl: Client, now: real, keys: map<string, string>, updates: map<string, string>) {
    |keys + updates| <= c.keysPerCollection && CanPay(c, cl, now, Growth(keys, updates))
  }

  lemma GrowthIsFresh(keys: map<string, string>, updates: map<string, string>)
    ensures Growth(keys, updates) == Fresh(keys, updates) && |keys + updates| == |keys| + Fresh(keys, updates)
  {
    UpdatedSize(keys, updates);
  }

  lemma UpdateIs(c: Config, s: State, id: Id, now: real, keys: map<string, string>, updates: map<string, string>)
    requires id in s.connections
    ensures var r, cl := UpdateKeys(c, s, id, now, keys, updates), s.connections[id];
            && r.1 == (if MayUpdate(c, cl, now, keys, updates) then Some(keys + updates) else None)
            && (MayUpdate(c, cl, now, keys, updates) ==>
                  r.0.connections == s.connections[id := cl.(creations := Paid(c, cl, now, Growth(keys, updates)))])
  {
    hide Affords, CanPay, Refill, Spend, Paid, Growth, Fresh;
    GrowthIsFresh(keys, updates);
    Pays(c, s, id, now, Fresh(keys, updates));
  }

  /** Keys of one's own: all updates or none, and nothing but one's own record changes. */
  lemma KeySets(c: Config, s: State, id: Id, now: real, updates: map<string, string>)
    requires id in s.connections
    ensures var cl, out := s.connections[id], SetKey(c, s, id, now, updates);
            && out.reply == (if MayUpdate(c, cl, now, cl.userKeys, updates) then Done else Refused(263))
            && out.state.clients == s.clients && out.state.channels == s.channels
            && (out.reply == Done ==>
                  OnlyBecomes(s, out.state, id, cl.(userKeys := cl.userKeys + updates,
                                                    creations := Paid(c, cl, now, Growth(cl.userKeys, updates)))))
  {
    hide UpdateKeys, MayUpdate, Paid;
    UpdateIs(c, s, id, now, s.connections[id].userKeys, updates);
  }

  /** Keys of a room, which anybody may set: all updates or none, and nothing else of any room changes. */
  lemma ChanKeySets(c: Config, s: State, id: Id, now: real, name: string, updates: map<string, string>, j: string)
    requires id in s.connections
    ensures var cl, k, out := s.connections[id], c.fold(name), SetChanKey(c, s, id, now, name, updates);
            && (k !in s.channels ==> out == Outcome(s, Ignored))
            && (k in s.channels ==>
                  out.reply == (if MayUpdate(c, cl, now, s.channels[k].keys, updates) then Done else Refused(263)))
            && out.state.clients == s.clients && (j != k || out.reply != Done ==> SameRoom(s, out.state, j))
            && (out.reply == Done ==>
                  && k in out.state.channels
                  && out.state.channels[k] == s.channels[k].(keys := s.channels[k].keys + updates)
                  && OnlyBecomes(s, out.state, id, cl.(creations := Paid(c, cl, now, Growth(s.channels[k].keys, updates)))))
  {
    hide UpdateKeys, MayUpdate, Paid;
    if c.fold(name) in s.channels {
      UpdateIs(c, s, id, now, s.channels[c.fold(name)].keys, updates);
    }
  }

  /** Keys of a user in a room: set for one who is in it, all updates or none, and refused without a trace. */
  lemma CKeyAnswers(c: Config, s: State, id: Id, now: real, name: string, nick: string, updates: map<string, string>)
    requires Coherent(c, s) && id in s.connections
    ensures var cl, k, g := s.connections[id], c.fold(name), c.fold(nick);
            var out := SetCKey(c, s, id, now, name, nick, updates);
            && (!Listed(s, k, g) ==> out == Outcome(s, Ignored))
            && (Listed(s, k, g) ==>
                  && out.reply == (if MayUpdate(c, cl, now, KeysOf(s.channels[k], g), updates) then Done else Refused(263))
                  && (out.reply != Done ==> out.state.channels == s.channels && out.state.clients == s.clients))
  {
    hide Coherent, UpdateKeys, MayUpdate, Paid, SameHead;
    var k, g := c.fold(name), c.fold(nick);
    NamedIs(c, s, g);
    if Listed(s, k, g) {
      ListedIsNamed(c, s, k, g);
      SameCKeys(c, s, k, g);
      UpdateIs(c, s, id, now, KeysOf(s.channels[k], g), updates);
    }
  }

  lemma CKeyIs(c: Config, s: State, id: Id, now: real, name: string, nick: string, updates: map<string, string>, t: State)
    requires Coherent(c, s) && id in s.connections && SetCKey(c, s, id, now, name, nick, updates) == Outcome(t, Done)
    ensures var cl, k, g := s.connections[id], c.fold(name), c.fold(nick);
            && Listed(s, k, g) && t.clients == s.clients
            && t.channels == s.channels[k := WithKeysOf(s.channels[k], g, KeysOf(s.channels[k], g) + updates)]
            && OnlyBecomes(s, t, id, cl.(creations := Paid(c, cl, now, Growth(KeysOf(s.channels[k], g), updates))))
  {
    hide Coherent, UpdateKeys, MayUpdate, Paid;
    var k, g := c.fold(name), c.fold(nick);
    NamedIs(c, s, g);
    if Listed(s, k, g) {
      ListedIsNamed(c, s, k, g);
      SameCKeys(c, s, k, g);
      UpdateIs(c, s, id, now, KeysOf(s.channels[k], g), updates);
    }
  }

  /** They change only the keys of the user named, and nobody's rank. */
  lemma CKeySets(c: Config, s: State, id: Id, now: real, name: string, nick: string, updates: map<string, string>,
        t: State, j: string, f: string)
    requires Coherent(c, s) && id in s.connections && SetCKey(c, s, id, now, name, nick, updates) == Outcome(t, Done)
    ensures var cl, k, g := s.connections[id], c.fold(name), c.fold(nick);
            && Listed(s, k, g) && Listed(t, k, g) && SameHead(t.channels[k], s.channels[k])
            && (j != k ==> SameRoom(s, t, j)) && (f != g ==> SameStanding(s, t, k, f))
            && StandingOf(t.channels[k], g) == StandingOf(s.channels[k], g).(keys := KeysOf(s.channels[k], g) + updates)
            && OnlyBecomes(s, t, id, cl.(creations := Paid(c, cl, now, Growth(KeysOf(s.channels[k], g), updates))))
  {
    hide Coherent, SetCKey, Paid, Growth;
    CKeyIs(c, s, id, now, name, nick, updates, t);
  }

  lemma NamedIs(c: Config, s: State, g: string)
    requires Coherent(c, s)
    ensures g in s.clients ==> Bears(c, s, s.clients[g], g)
  {
  }

  lemma ListedIsNamed(c: Config, s: State, k: string, g: string)
    requires Coherent(c, s) && Listed(s, k, g)
    ensures g in s.clients
  {
    assert UsersSound(c, s, k);
    assert Bears(c, s, s.channels[k].users[g], g);
  }

  // ---------------------------------------------------------- ranks and topics

  /** Which answer a rank change gets, and what it costs; `ModeSetsRank` says whose rank it changes. */
  lemma ModeAnswers(c: Config, s: State, id: Id, now: real, name: string, grant: bool, nick: string, j: string)
    requires id in s.connections
    ensures var cl, k, g := s.connections[id], c.fold(name), c.fold(nick);
            var out := SetMode(c, s, id, now, name, grant, nick);
            var price := if grant && k in s.channels && g !in s.channels[k].operators then 1 else 0;
            && (out.reply == Ignored <==> k !in s.channels)
            && (out.reply == Refused(441) <==> k in s.channels && grant && !Listed(s, k, g))
            && (out.reply == Done <==> k in s.channels && (grant ==> Listed(s, k, g) && CanPay(c, cl, now, price)))
            && (out.reply in {Done, Ignored, Refused(441), Refused(263)})
            && (j != k || out.reply != Done ==> SameRoom(s, out.state, j))
            && (out.reply == Done ==>
                  && k in out.state.channels && SameHead(out.state.channels[k], s.channels[k])
                  && OnlyBecomes(s, out.state, id, cl.(creations := Paid(c, cl, now, price))))
  {
    hide Affords, CanPay, Refill, Spend;
    Pays(c, s, id, now, 1);
    Pays(c, s, id, now, 0);
  }

  /** A topic that is not empty becomes the topic of a room that is there, and changes nothing else. */
  lemma TopicSets(c: Config, s: State, name: string, topic: string, j: string)
    ensures var k, out := c.fold(name), SetTopic(c, s, name, topic);
            && (out.reply == Done <==> k in s.channels && topic != "")
            && (out.reply != Done ==> out == Outcome(s, Ignored))
            && out.state.clients == s.clients && out.state.connections == s.connections
            && (j != k ==> SameRoom(s, out.state, j))
            && (out.reply == Done ==>
                  k in out.state.channels && out.state.channels[k] == s.channels[k].(topic := topic))
  {
  }

  // ------------------------------------------------------------- the connection

  /** A new connection is nobody yet, in no room, with both its budgets full. */
  lemma ConnectionStarts(c: Config, s: State, id: Id, now: real)
    requires id !in s.connections
    ensures var t := Step(c, s, Connect(id, now));
            && t.clients == s.clients && t.channels == s.channels && t.connections.Keys == s.connections.Keys + {id}
            && (forall j :: j in s.connections ==> t.connections[j] == s.connections[j])
            && t.connections[id] == Client("", "", false, false, map["username" := ""], {},
                                           Bucket(c.commandLimits.burst, now), Bucket(c.creationLimits.burst, now))
  {
  }

  /**
   * A line from an open connection is carried out exactly if the command budget holds one token, which it
   * then costs; otherwise the connection is closed.  A closed connection is not heard.
   */
  lemma LineIsHeardIff(c: Config, s: State, id: Id, now: real, command: Command)
    requires id in s.connections
    ensures var cl, out := s.connections[id], Receive(c, s, id, now, command);
            var level := Refill(c.commandLimits, cl.commands, now);
            && (cl.closed ==> out == Outcome(s, Ignored))
            && (!cl.closed && level < 1.0 ==> id in out.state.connections && out.state.connections[id].closed)
            && (!cl.closed && 1.0 <= level ==>
                  out == Handle(c, s.(connections := s.connections[id := cl.(commands := Bucket(level - 1.0, now))]),
                                id, now, command))
  {
    hide Handle, LeftBehind;
  }

  /** A disconnect leaves the names, topics, keys and limits of the rooms that stay, and every other connection. */
  lemma DisconnectKeepsTheRest(c: Config, s: State, id: Id, k: string)
    requires Coherent(c, s) && Open(s, id)
    ensures var t := Disconnect(c, s, id);
            && OnlyBecomes(s, t, id, s.connections[id].(closed := true))
            && (k in t.channels ==> k in s.channels && SameHead(t.channels[k], s.channels[k]))
            && (forall f :: f in t.clients <==> f in s.clients && s.clients[f] != id)
            && (forall f :: f in t.clients ==> t.clients[f] == s.clients[f])
  {
    hide RoomSound, UsersSound, ClientSound, RoomsSound;
    var cl := s.connections[id];
    forall f | f in s.clients
      ensures s.clients[f] == id <==> cl.nick != "" && f == c.fold(cl.nick)
    {
      assert Bears(c, s, s.clients[f], f);
      if cl.nick != "" && f == c.fold(cl.nick) {
        assert Bears(c, s, id, f);
      }
    }
  }
}
