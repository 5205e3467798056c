/**
 * The full-rules server entry of the Server Browser: its encoder, and a reader that recovers all of
 * it, with the heartbeat's own parser for the keys.
 */
module ServerEntries {
  import opened Wrappers
  import opened Bytes
  import opened ServerKeys

  type Host = h: seq<u8> | |h| == 4 witness [0, 0, 0, 0]

  datatype Address = Address(host: Host, port: u16)

  /**
   * `aton` stands for socket.inet_aton, None where it raises; `isDecimal` for isdecimal(), and
   * `value` for the number that such a text denotes.
   */
  datatype Config = Config(
    codec: Codec,
    queryPort: u16,
    aton: string -> Option<Host>,
    isDecimal: string -> bool,
    value: string -> nat)

  /** How many digits int() converts by default; on more it raises. */
  const MAX_DIGITS: nat := 4300

  datatype Decimal = NotDecimal | TooLong | Number(value: nat)

  /** isdecimal(), and int() where it holds. */
  function ReadInt(c: Config, text: string): Decimal {
    if !c.isDecimal(text) then NotDecimal
    else if |text| > MAX_DIGITS then TooLong
    else Number(c.value(text))
  }

  const FULL_RULES: u8 := 128
  const NEGOTIATE: u8 := 4
  const NONSTANDARD_PORT: u8 := 16
  const PRIVATE_IP: u8 := 2
  const NONSTANDARD_PRIVATE_PORT: u8 := 32

  predicate Negotiates(keys: Keys) {
    Get(keys, "natneg", "0") != "0"
  }

  function PrivateHost(c: Config, keys: Keys): Option<Host> {
    var text := Get(keys, "localip0", "");
    if text == "" then None else c.aton(text)
  }

  /** The private port's text makes int() raise. */
  predicate PortTooLong(c: Config, keys: Keys) {
    ReadInt(c, Get(keys, "localport", "")).TooLong?
  }

  /** The private port, where its text can be read. */
  function LocalPort(c: Config, a: Address, keys: Keys): u16 {
    match ReadInt(c, Get(keys, "localport", ""))
    case Number(port) => if 1 <= port <= 65535 then port else a.port
    case _ => a.port
  }

  function Bit(on: bool, flag: u8): u8 {
    if on then flag else 0
  }

  /** Each flag is or-ed in at most once, so the or is a sum. */
  function Flags(negotiates: bool, port: bool, private: bool, local: bool): u8 {
    FULL_RULES + Bit(negotiates, NEGOTIATE) + Bit(port, NONSTANDARD_PORT) + Bit(private, PRIVATE_IP)
    + Bit(local, NONSTANDARD_PRIVATE_PORT)
  }

  /** struct.pack(">H", v). */
  function Big16(v: u16): (r: seq<u8>)
    ensures |r| == 2
  {
    [v / 0x100, v % 0x100]
  }

  function FromBig16(b: seq<u8>): u16
    requires |b| == 2
  {
    (b[0] as int) * 0x100 + b[1] as int
  }

  function Optional(on: bool, b: seq<u8>): seq<u8> {
    if on then b else []
  }

  /** What stands before the keys. */
  function Head(c: Config, a: Address, keys: Keys): seq<u8> {
    var private := PrivateHost(c, keys);
    var local := LocalPort(c, a, keys);
    [Flags(Negotiates(keys), a.port != c.queryPort, private.Some?, local != c.queryPort)]
    + a.host
    + Optional(a.port != c.queryPort, Big16(a.port))
    + (if private.Some? then private.value else [])
    + Optional(local != c.queryPort, Big16(local))
  }

  /** The full-rules entry of a server whose private port can be read. */
  function Entry(c: Config, a: Address, keys: Keys): seq<u8> {
    Head(c, a, keys) + Rules(c.codec, keys) + [0]
  }

  /** `_server_entry` with full rules as it runs; None where it raises. */
  method ServerEntry(c: Config, a: Address, keys: Keys) returns (r: Option<seq<u8>>)
    ensures r == if PortTooLong(c, keys) then None else Some(Entry(c, a, keys))
  {
    hide Get, Flags;
    var output: seq<u8>;
    var flags: int := FULL_RULES;
    if Get(keys, "natneg", "0") != "0" {
      flags := flags + NEGOTIATE;
    }
    if a.port != c.queryPort {
      flags := flags + NONSTANDARD_PORT;
    }
    var text := Get(keys, "localip0", "");
    var private := if text == "" then None else c.aton(text);
    if private.Some? {
      flags := flags + PRIVATE_IP;
    }
    var parsed := ReadInt(c, Get(keys, "localport", ""));
    if parsed.TooLong? {
      return None;
    }
    var local: int := if parsed.Number? then parsed.value else a.port;
    if !(1 <= local <= 65535) {
      local := a.port;
    }
    if local != c.queryPort {
      flags := flags + NONSTANDARD_PRIVATE_PORT;
    }
    FlagSum(Negotiates(keys), a.port != c.queryPort, private.Some?, local != c.queryPort);
    output := [flags] + a.host;
    if a.port != c.queryPort {
      output := output + Big16(a.port);
    }
    if private.Some? {
      output := output + private.value;
    }
    if local != c.queryPort {
      output := output + Big16(local);
    }
    assert output == Head(c, a, keys);
    ghost var head := output;
    for i := 0 to |keys|
      invariant output + Rules(c.codec, keys[i..]) == head + Rules(c.codec, keys)
    {
      var pair := keys[i];
      assert keys[i..][0] == pair && keys[i..][1..] == keys[i + 1..];
      assert output + (c.codec.encode(pair.0) + [0] + c.codec.encode(pair.1) + [0] + Rules(c.codec, keys[i + 1..]))
          == output + c.codec.encode(pair.0) + [0] + c.codec.encode(pair.1) + [0] + Rules(c.codec, keys[i + 1..]);
      output := output + c.codec.encode(pair.0) + [0] + c.codec.encode(pair.1) + [0];
    }
    assert output == head + Rules(c.codec, keys);
    return Some(output + [0]);
  }

  lemma FlagSum(negotiates: bool, port: bool, private: bool, local: bool)
    ensures Flags(negotiates, port, private, local) as int
            == FULL_RULES as int + (if negotiates then NEGOTIATE else 0) as int + (if port then NONSTANDARD_PORT else 0) as int
               + (if private then PRIVATE_IP else 0) as int + (if local then NONSTANDARD_PRIVATE_PORT else 0) as int
  {
  }

  // ----------------------------------------------------------------- reading

  predicate Has(flags: u8, flag: u8) {
    And(flags, flag) != 0
  }

  /** Testing one bit. */
  lemma {:induction false} AndBit(x: nat, n: nat)
    ensures And(x, Pow2(n)) == if x / Pow2(n) % 2 == 1 then Pow2(n) else 0
  {
    if x == 0 {
    } else if n == 0 {
      assert And(x / 2, 0) == 0;
    } else {
      AndBit(x / 2, n - 1);
      HalvedTwice(x, Pow2(n - 1));
      assert And(x, Pow2(n)) == 2 * And(x / 2, Pow2(n - 1));
    }
  }

  lemma HalvedTwice(x: nat, p: nat)
    requires 0 < p
    ensures x / (2 * p) == x / 2 / p
  {
    ModHalves(x, p);
    ModUnique(x, 2 * p, x / 2 / p, x % 2 + 2 * (x / 2 % p));
  }

  /** Each flag of an entry can be read back. */
  lemma FlagsReadBack(negotiates: bool, port: bool, private: bool, local: bool)
    ensures var flags := Flags(negotiates, port, private, local);
            && Has(flags, FULL_RULES) && (Has(flags, NEGOTIATE) <==> negotiates)
            && (Has(flags, NONSTANDARD_PORT) <==> port) && (Has(flags, PRIVATE_IP) <==> private)
            && (Has(flags, NONSTANDARD_PRIVATE_PORT) <==> local)
  {
    hide And;
    var flags := Flags(negotiates, port, private, local);
    assert Pow2(1) == 2 && Pow2(2) == 4 && Pow2(4) == 16 && Pow2(5) == 32 && Pow2(7) == 128 by {
      assert Pow2(3) == 8 && Pow2(6) == 64;
    }
    AndBit(flags, 1);
    AndBit(flags, 2);
    AndBit(flags, 4);
    AndBit(flags, 5);
    AndBit(flags, 7);
  }

  lemma Big16ReadsBack(v: u16)
    ensures FromBig16(Big16(v)) == v
  {
  }

  /** What an entry says: `private` and `localPort` as the client sees them. */
  datatype Parsed = Parsed(source: Address, negotiates: bool, private: Option<Host>, localPort: u16, keys: Keys)

  datatype Cursor<+T> = Short | Read(value: T, rest: seq<u8>)

  function ReadHost(b: seq<u8>): Cursor<Host> {
    if |b| < 4 then Short
    else
      var host: Host := b[..4];
      Read(host, b[4..])
  }

  function ReadPort(b: seq<u8>, present: bool, default: u16): Cursor<u16> {
    if !present then Read(default, b) else if |b| < 2 then Short else Read(FromBig16(b[..2]), b[2..])
  }

  function ReadPrivate(b: seq<u8>, present: bool): Cursor<Option<Host>> {
    if !present then Read(None, b)
    else if |b| < 4 then Short
    else
      var host: Host := b[..4];
      Read(Some(host), b[4..])
  }

  /** A reader for full-rules entries; None for one that is cut short. */
  function ParseEntry(c: Config, b: seq<u8>): Option<Parsed> {
    if b == [] || !Has(b[0], FULL_RULES) then None
    else
      var host := ReadHost(b[1..]);
      if host.Short? then None
      else
        var port := ReadPort(host.rest, Has(b[0], NONSTANDARD_PORT), c.queryPort);
        if port.Short? then None
        else
          var private := ReadPrivate(port.rest, Has(b[0], PRIVATE_IP));
          if private.Short? then None
          else
            var local := ReadPort(private.rest, Has(b[0], NONSTANDARD_PRIVATE_PORT), c.queryPort);
            if local.Short? then None
            else
              var keys := ParseFrom(c.codec, local.rest, []);
              if keys.None? then None
              else Some(Parsed(Address(host.value, port.value), Has(b[0], NEGOTIATE), private.value, local.value, keys.value))
  }

  lemma HostReadsBack(h: Host, rest: seq<u8>)
    ensures ReadHost(h + rest) == Read(h, rest)
  {
  }

  lemma PortReadsBack(v: u16, default: u16, rest: seq<u8>)
    ensures ReadPort(Optional(v != default, Big16(v)) + rest, v != default, default) == Read(v, rest)
  {
    hide FromBig16, Big16;
    Big16ReadsBack(v);
    var b := Optional(v != default, Big16(v)) + rest;
    if v != default {
      assert b[..2] == Big16(v) && b[2..] == rest;
    } else {
      assert b == rest;
    }
  }

  lemma PrivateReadsBack(h: Option<Host>, rest: seq<u8>)
    ensures ReadPrivate((if h.Some? then h.value else []) + rest, h.Some?) == Read(h, rest)
  {
    var b := (if h.Some? then h.value else []) + rest;
    if h.Some? {
      assert b[..4] == h.value && b[4..] == rest;
    } else {
      assert b == rest;
    }
  }

  function AfterPrivate(c: Config, a: Address, keys: Keys): seq<u8> {
    Optional(LocalPort(c, a, keys) != c.queryPort, Big16(LocalPort(c, a, keys))) + (Rules(c.codec, keys) + [0] + [])
  }

  function AfterPort(c: Config, a: Address, keys: Keys): seq<u8> {
    (if PrivateHost(c, keys).Some? then PrivateHost(c, keys).value else []) + AfterPrivate(c, a, keys)
  }

  function AfterHost(c: Config, a: Address, keys: Keys): seq<u8> {
    Optional(a.port != c.queryPort, Big16(a.port)) + AfterPort(c, a, keys)
  }

  lemma EntryLayout(c: Config, a: Address, keys: Keys)
    ensures Entry(c, a, keys)
            == [Flags(Negotiates(keys), a.port != c.queryPort, PrivateHost(c, keys).Some?, LocalPort(c, a, keys) != c.queryPort)]
               + (a.host + AfterHost(c, a, keys))
  {
    hide Get, Flags, Big16, Rules, LocalPort, PrivateHost, Negotiates, Optional;
  }

  lemma KeysReadBack(c: Config, keys: Keys)
    requires c.codec.Valid() && WellFormed(keys)
    ensures ParseFrom(c.codec, Rules(c.codec, keys) + [0] + [], []) == Some(keys)
  {
    hide ParseFrom, Rules, WellFormed;
    assert [] + keys == keys;
    RulesParseBack(c.codec, keys, [], []);
  }

  /** For every combination of flags, an entry reads back to all that went into it. */
  lemma EntryReadsBack(c: Config, a: Address, keys: Keys)
    requires c.codec.Valid() && WellFormed(keys)
    ensures ParseEntry(c, Entry(c, a, keys))
            == Some(Parsed(a, Negotiates(keys), PrivateHost(c, keys), LocalPort(c, a, keys), keys))
  {
    hide Get, Flags, Has, Big16, FromBig16, ReadHost, ReadPort, ReadPrivate, ParseFrom, Rules, WellFormed, Entry,
      LocalPort,
      PrivateHost, Negotiates, Optional;
    var private, local := PrivateHost(c, keys), LocalPort(c, a, keys);
    EntryLayout(c, a, keys);
    FlagsReadBack(Negotiates(keys), a.port != c.queryPort, private.Some?, local != c.queryPort);
    HostReadsBack(a.host, AfterHost(c, a, keys));
    PortReadsBack(a.port, c.queryPort, AfterPort(c, a, keys));
    PrivateReadsBack(private, AfterPrivate(c, a, keys));
    PortReadsBack(local, c.queryPort, Rules(c.codec, keys) + [0] + []);
    KeysReadBack(c, keys);
  }

  /** Two servers with the same entry are at the same address, with the same keys in the same order. */
  lemma EntryIsInjective(c: Config, a: Address, keys: Keys, b: Address, others: Keys)
    requires c.codec.Valid() && WellFormed(keys) && WellFormed(others)
    ensures Entry(c, a, keys) == Entry(c, b, others) <==> a == b && keys == others
  {
    hide Entry, ParseEntry;
    EntryReadsBack(c, a, keys);
    EntryReadsBack(c, b, others);
  }

  /** How long an entry is, from its keys and flags. */
  function EntryLength(c: Config, a: Address, keys: Keys): nat {
    6 + (if a.port != c.queryPort then 2 else 0) + (if PrivateHost(c, keys).Some? then 4 else 0)
    + (if LocalPort(c, a, keys) != c.queryPort then 2 else 0) + |Rules(c.codec, keys)|
  }

  lemma EntrySize(c: Config, a: Address, keys: Keys)
    ensures |Entry(c, a, keys)| == EntryLength(c, a, keys)
  {
    hide Rules, Get, Flags, Big16, LocalPort, PrivateHost, Negotiates;
  }
}
