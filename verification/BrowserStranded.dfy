/**
 * A subscriber left behind: connect, subscribe, a heartbeat, its registration, one round of the push
 * task.  Two heartbeats that config.py's bound on datagrams admits and that end the push task so.
 */
module BrowserStranded {
  import opened Wrappers
  import opened Bytes
  import opened ServerKeys
  import opened ServerEntries
  import opened Browser
  import opened BrowserTracking
  import opened BrowserTasks

  function Story(c: Settings, a: Address, data: seq<u8>, now: real): seq<Event> {
    [Connected(0), Subscribed(0, c.game, "", now), HeartbeatReceived(a, data, now), Registered(a, now), Flushed(0, now, [], [a])]
  }

  /** The push task has ended; the event is clear; the server is listed, and neither known nor shown. */
  ghost predicate Stranded(c: Settings, s: State, a: Address) {
    && 0 in s.subscriptions && 0 in s.registry.events && 0 in s.replicas
    && 0 !in s.pushing && !s.registry.events[0]
    && Listed(c, s.subscriptions[0].query, s.subscriptions[0].text, s.registry.servers) == {a}
    && s.subscriptions[0].known == map[] && s.replicas[0] == map[]
  }

  /** A heartbeat that makes the server `a` one that a subscriber to everything is to see. */
  ghost predicate Announces(c: Settings, data: seq<u8>) {
    && ReadHeartbeat(c, data).Status?
    && Get(ReadHeartbeat(c, data).keys, "gamename", "") == c.game
    && c.matches(AsMap(ReadHeartbeat(c, data).keys), "")
    && 1 <= c.capacity && 0.0 <= c.ttl
  }

  function Alone(data: seq<u8>, keys: Keys, registered: bool, now: real): Server
    requires 7 <= |data|
  {
    Server(data[1..5], keys, registered, now, if registered then now else 0.0)
  }

  const ONE_SUBSCRIBER := map[0 := map[]]

  function Subscribed0(c: Settings): map<nat, Subscription> {
    map[0 := Subscription(c.game, "", map[])]
  }

  lemma NobodyListed(c: Settings)
    ensures Entries(c, c.game, "", map[]) == map[] && !EntriesRaise(c, c.game, "", map[])
  {
    assert c.game != c.game + "am";
  }

  lemma ReachSubscribed(c: Settings, now: real)
    ensures Run(c, [Connected(0), Subscribed(0, c.game, "", now)])
            == State(Registry(map[], map[0 := false]), Subscribed0(c), {0}, ONE_SUBSCRIBER)
  {
    hide Entries, EntriesRaise;
    var events := [Connected(0), Subscribed(0, c.game, "", now)];
    NobodyListed(c);
    assert events[..1] == [Connected(0)] && [Connected(0)][..0] == [];
    var s := State(Registry(map[], map[0 := false]), map[], {0}, map[]);
    assert Run(c, [Connected(0)]) == s;
    assert Expire(c, s.registry, now) == s.registry;
  }

  lemma FirstReport(c: Settings, a: Address, data: seq<u8>, now: real)
    requires Announces(c, data)
    ensures Heartbeat(c, Registry(map[], map[0 := false]), a, data, now)
            == Registry(map[a := Alone(data, ReadHeartbeat(c, data).keys, false, now)], map[0 := false])
  {
    hide AsMap, ParseFrom, Fresh, Get;
    var r := Registry(map[], map[0 := false]);
    GetIsLookup(ReadHeartbeat(c, data).keys, "statechanged", "");
    assert Expire(c, r, now) == r;
  }

  lemma ReachDue(c: Settings, a: Address, data: seq<u8>, now: real)
    requires Announces(c, data)
    ensures var story := Story(c, a, data, now);
            Run(c, story[..4])
            == State(Registry(map[a := Alone(data, ReadHeartbeat(c, data).keys, true, now)], map[0 := true]),
                     Subscribed0(c), {0}, ONE_SUBSCRIBER)
  {
    hide Heartbeat, Announces, ReadHeartbeat;
    var story := Story(c, a, data, now);
    assert story[..4][..3] == story[..3] && story[..3][..2] == story[..2];
    assert story[..2] == [Connected(0), Subscribed(0, c.game, "", now)];
    ReachSubscribed(c, now);
    FirstReport(c, a, data, now);
  }

  lemma OnlyListed(c: Settings, a: Address, data: seq<u8>, now: real)
    requires Announces(c, data)
    ensures Listed(c, c.game, "", map[a := Alone(data, ReadHeartbeat(c, data).keys, true, now)]) == {a}
  {
    hide AsMap, ReadHeartbeat;
    var keys := ReadHeartbeat(c, data).keys;
    var servers := map[a := Alone(data, keys, true, now)];
    GetIsLookup(keys, "gamename", "");
    HasGame(c, data);
    assert c.game != c.game + "am";
    assert Matching(c, c.game, "", servers[a]);
  }

  lemma HasGame(c: Settings, data: seq<u8>)
    requires ReadHeartbeat(c, data).Status?
    ensures "gamename" in AsMap(ReadHeartbeat(c, data).keys)
  {
    hide ParseFrom, Get;
    FreshIsOut(ReadHeartbeat(c, data).keys, "gamename");
  }

  lemma {:induction false} FreshIsOut(keys: Keys, k: string)
    ensures Fresh(keys, k) <==> k !in AsMap(keys)
  {
    if keys != [] {
      FreshIsOut(keys[1..], k);
      assert Fresh(keys, k) <==> keys[0].0 != k && Fresh(keys[1..], k) by {
        assert forall i :: 0 < i < |keys| ==> keys[i] == keys[1..][i - 1];
      }
    }
  }

  lemma SweepKeepsAll(c: Settings, a: Address, s: Server, now: real)
    requires Retained(c, s, now)
    ensures Expire(c, Registry(map[a := s], map[0 := false]), now) == Registry(map[a := s], map[0 := false])
  {
  }

  lemma AloneBreaksIff(c: Settings, a: Address, data: seq<u8>, now: real)
    requires Announces(c, data)
    ensures var keys := ReadHeartbeat(c, data).keys;
            Breaks(c, Subscription(c.game, "", map[]), map[a := Alone(data, keys, true, now)])
            <==> PortTooLong(c.entry, keys) || EntryLength(c.entry, a, keys) > MAX_ENTRY
  {
    hide Listed, PortTooLong, EntryLength, ReadHeartbeat, Get, AsMap;
    OnlyListed(c, a, data, now);
    assert c.game != c.game + "am";
    var keys := ReadHeartbeat(c, data).keys;
    var servers := map[a := Alone(data, keys, true, now)];
    assert Unsendable(c, Subscription(c.game, "", map[]), a, servers[a])
        <==> PortTooLong(c.entry, keys) || EntryLength(c.entry, a, keys) > MAX_ENTRY;
  }

  lemma OneToPush(c: Settings, a: Address, data: seq<u8>, now: real)
    requires Announces(c, data)
    ensures Orders(map[], Entries(c, c.game, "", map[a := Alone(data, ReadHeartbeat(c, data).keys, true, now)]), [], [a])
  {
    hide Listed, Announces, Entry, ReadHeartbeat;
    OnlyListed(c, a, data, now);
  }

  /**
   * After any heartbeat that announces a server, the subscriber is stranded if and only if the entry
   * cannot be built or is too long for a frame; otherwise the client holds it.
   */
  lemma StrandedIff(c: Settings, a: Address, data: seq<u8>, now: real)
    requires c.Valid() && Announces(c, data)
    ensures var s, keys := Run(c, Story(c, a, data, now)), ReadHeartbeat(c, data).keys;
            && (Stranded(c, s, a) <==> PortTooLong(c.entry, keys) || EntryLength(c.entry, a, keys) > MAX_ENTRY)
            && (!Stranded(c, s, a) ==> 0 in s.replicas && s.replicas[0] == map[a := Entry(c.entry, a, keys)])
  {
    hide Listed, Entry, EntryLength, PortTooLong, Breaks, Expire, Orders, RoundFrames, ApplyFrames, EntriesRaise,
      ReadHeartbeat, AllBrought, Get, AsMap, Tracks;
    var story, keys := Story(c, a, data, now), ReadHeartbeat(c, data).keys;
    var server := Alone(data, keys, true, now);
    var s := Run(c, story[..4]);
    ReachDue(c, a, data, now);
    OnlyListed(c, a, data, now);
    AloneBreaksIff(c, a, data, now);
    OneToPush(c, a, data, now);
    RetainedNow(c, server, data, now);
    SweepKeepsAll(c, a, server, now);
    SweepIgnoresEvents(c, s.registry, 0, now);
    assert Cleared(s.registry, 0) == Registry(map[a := server], map[0 := false]);
    FlushRaisesIff(c, s, 0, now, [], [a]);
    RunKeeps(c, story);
  }

  lemma RetainedNow(c: Settings, s: Server, data: seq<u8>, now: real)
    requires Announces(c, data) && s.lastSeen == now
    ensures Retained(c, s, now)
  {
  }

  // -------------------------------------------------------------- heartbeats

  /** A heartbeat with the game's name and one more key, its value given as bytes. */
  function Beat(c: Settings, k: string, value: seq<u8>): seq<u8> {
    var e := c.entry.codec.encode;
    [3, 0, 0, 0, 0] + (e("gamename") + [0] + (e(c.game) + [0] + (e(k) + [0] + (value + [0] + []))))
  }

  lemma BeatParses(c: Settings, k: string, value: seq<u8>)
    requires c.Valid() && Plain(c.game) && k != "" && k != "gamename" && Plain(k) && 0 !in value
    ensures ParseFrom(c.entry.codec, Beat(c, k, value)[KEYS_OFFSET..], [])
            == Some([("gamename", c.game), (k, c.entry.codec.decode(value))])
  {
    hide ParseRound;
    var codec := c.entry.codec;
    var second := codec.encode(k) + [0] + (value + [0] + []);
    assert Beat(c, k, value)[KEYS_OFFSET..] == codec.encode("gamename") + [0] + (codec.encode(c.game) + [0] + second);
    RoundOnPair(codec, "gamename", c.game, second);
    RoundOnBytes(codec, k, value, []);
    var one := [("gamename", c.game)];
    assert Put([], "gamename", c.game) == one;
    PutAppends(one, k, codec.decode(value));
    var both := [("gamename", c.game), (k, codec.decode(value))];
    assert one + [(k, codec.decode(value))] == both;
    assert ParseFrom(codec, second, one) == ParseFrom(codec, [], both) == Some(both);
  }

  lemma BeatReads(c: Settings, k: string, value: seq<u8>)
    requires c.Valid() && Plain(c.game) && k != "" && k != "gamename" && k != "statechanged" && Plain(k) && 0 !in value
    requires |Beat(c, k, value)| <= c.packetBytes
    ensures ReadHeartbeat(c, Beat(c, k, value)) == Status([("gamename", c.game), (k, c.entry.codec.decode(value))])
  {
    hide ParseFrom;
    BeatParses(c, k, value);
    var keys := [("gamename", c.game), (k, c.entry.codec.decode(value))];
    assert keys[1..] == [(k, c.entry.codec.decode(value))];
    assert Get(keys[1..], "statechanged", "") == "";
    assert !Fresh(keys, "gamename") by {
      assert keys[0].0 == "gamename";
    }
  }

  function Run255(n: nat): seq<u8> {
    seq(n, i => 255)
  }

  /**
   * 21845 bytes 255 in one value: each is read as U+FFFD and written as three bytes, so the entry is
   * longer than a frame, although the datagram is a third as long.
   */
  lemma ReplacedBytesStrand(c: Settings, a: Address, now: real)
    requires c.Valid() && Plain(c.game) && 1 <= c.capacity && 0.0 <= c.ttl
    requires forall keys, text :: c.matches(keys, text)
    requires |c.entry.codec.encode(c.entry.codec.decode(Run255(21845)))| == 3 * 21845
    requires |Beat(c, "x", Run255(21845))| <= c.packetBytes
    ensures Stranded(c, Run(c, Story(c, a, Beat(c, "x", Run255(21845)), now)), a)
  {
    hide Run, Stranded, ReadHeartbeat, LocalPort, PrivateHost, AsMap, Listed, Story;
    var value := Run255(21845);
    var keys := [("gamename", c.game), ("x", c.entry.codec.decode(value))];
    BeatReads(c, "x", value);
    SecondIsSerialised(c.entry.codec, keys);
    assert c.matches(AsMap(keys), "");
    StrandedIff(c, a, Beat(c, "x", value), now);
  }

  lemma SecondIsSerialised(codec: Codec, keys: Keys)
    requires |keys| == 2
    ensures |codec.encode(keys[1].1)| <= |Rules(codec, keys)|
  {
    assert keys[1..][0] == keys[1];
  }

  /** More than 4300 digits for the private port: isdecimal() passes them, int() does not. */
  lemma LongPortStrands(c: Settings, a: Address, digits: string, now: real)
    requires c.Valid() && Plain(c.game) && 1 <= c.capacity && 0.0 <= c.ttl
    requires forall keys, text :: c.matches(keys, text)
    requires c.entry.isDecimal(digits) && |digits| > MAX_DIGITS && Plain(digits)
    requires |Beat(c, "localport", c.entry.codec.encode(digits))| <= c.packetBytes
    ensures Stranded(c, Run(c, Story(c, a, Beat(c, "localport", c.entry.codec.encode(digits)), now)), a)
  {
    hide Run, Stranded, ReadHeartbeat, Rules, EntryLength, AsMap, Listed, Story;
    var keys := [("gamename", c.game), ("localport", digits)];
    BeatReads(c, "localport", c.entry.codec.encode(digits));
    assert keys[1..] == [("localport", digits)];
    assert Get(keys[1..], "localport", "") == digits;
    assert c.matches(AsMap(keys), "");
    StrandedIff(c, a, Beat(c, "localport", c.entry.codec.encode(digits)), now);
  }
}
