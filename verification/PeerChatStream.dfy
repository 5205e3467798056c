/** The PeerChat stream cipher of crypto.py. */
module PeerChatCiphers {
  import opened Wrappers
  import opened Collections
  import opened Bytes

  datatype Pack = Pack(cards: seq<u8>, first: u8, second: u8) {
    ghost predicate Valid() {
      |cards| == 256
    }
  }

  function Add(a: int, b: int): u8 {
    (a + b) % 0x100
  }

  /** The pack moved on by one byte; the data plays no part. */
  function Turn(p: Pack): (r: Pack)
    requires p.Valid()
    ensures r.Valid()
  {
    var first := Add(p.first, 1);
    var second := Add(p.second, p.cards[first]);
    Pack(p.cards[first := p.cards[second]][second := p.cards[first]], first, second)
  }

  /** The key byte for a byte met with pack `p`. */
  function Pad(p: Pack): u8
    requires p.Valid()
  {
    var t := Turn(p);
    t.cards[Add(t.cards[t.second], t.cards[t.first])]
  }

  function Transform(p: Pack, data: seq<u8>): (r: (Pack, seq<u8>))
    requires p.Valid()
    ensures r.0.Valid() && |r.1| == |data|
    decreases |data|
  {
    if data == [] then (p, [])
    else
      var (q, rest) := Transform(Turn(p), data[1..]);
      (q, [Xor(data[0], Pad(p))] + rest)
  }

  /** Two ends with equal packs undo each other's transformation and stay in step. */
  lemma {:induction false} TransformIsInvolution(p: Pack, data: seq<u8>)
    requires p.Valid()
    ensures Transform(p, Transform(p, data).1) == (Transform(p, data).0, data)
    decreases |data|
  {
    hide Turn, Pad;
    if data != [] {
      TransformIsInvolution(Turn(p), data[1..]);
      assert Transform(p, data).1[1..] == Transform(Turn(p), data[1..]).1;
      XorCancelsRight(data[0], Pad(p));
      assert [data[0]] + data[1..] == data;
    }
  }

  /** Transforming a stream in two reads is transforming it in one. */
  lemma {:induction false} TransformConcat(p: Pack, a: seq<u8>, b: seq<u8>)
    requires p.Valid()
    ensures var (q, first) := Transform(p, a);
            Transform(p, a + b) == (Transform(q, b).0, first + Transform(q, b).1)
    decreases |a|
  {
    hide Turn, Pad;
    var (q, first) := Transform(p, a);
    if a == [] {
      assert a + b == b;
      assert first + Transform(q, b).1 == Transform(q, b).1;
    } else {
      TransformConcat(Turn(p), a[1..], b);
      assert (a + b)[1..] == a[1..] + b;
      var rest := Transform(Turn(p), a[1..]).1;
      var head := [Xor(a[0], Pad(p))];
      assert head + (rest + Transform(q, b).1) == head + rest + Transform(q, b).1;
    }
  }

  /** The pack counts the bytes it has met. */
  lemma {:induction false} TransformCounts(p: Pack, data: seq<u8>)
    requires p.Valid()
    ensures Transform(p, data).0.first == Add(p.first, |data|)
    decreases |data|
  {
    hide Pad, Turn, Add;
    if data == [] {
      AddCounts(p.first, 0);
    } else {
      TransformCounts(Turn(p), data[1..]);
      TurnCounts(p);
      AddCounts(p.first, |data|);
    }
  }

  lemma TurnCounts(p: Pack)
    requires p.Valid()
    ensures Turn(p).first == Add(p.first, 1)
  {
  }

  lemma AddCounts(a: u8, n: nat)
    ensures Add(a, 0) == a
    ensures 0 < n ==> Add(Add(a, 1), n - 1) == Add(a, n)
  {
  }

  // ------------------------------------------------------------- key set-up

  function Descending(): (r: seq<u8>)
    ensures |r| == 256
  {
    seq(256, i requires 0 <= i < 256 => (255 - i) as u8)
  }

  /** The cards and the running sum after the first `n` positions have been swapped. */
  function Keyed(mixed: seq<u8>, n: nat): (r: (seq<u8>, u8))
    requires |mixed| == 16 && n <= 256
    ensures |r.0| == 256
  {
    if n == 0 then (Descending(), 0)
    else
      var (cards, acc) := Keyed(mixed, n - 1);
      var next := Add(Add(acc, mixed[(n - 1) % 16]), cards[n - 1]);
      (cards[n - 1 := cards[next]][next := cards[n - 1]], next)
  }

  function Mixed(challenge: seq<u8>, key: seq<u8>): seq<u8>
    requires |challenge| == 16 && |key| == 6
  {
    seq(16, i requires 0 <= i < 16 => Xor(challenge[i], key[i % 6]))
  }

  function FreshPack(challenge: seq<u8>, key: seq<u8>): (p: Pack)
    requires |challenge| == 16 && |key| == 6
    ensures p.Valid()
  {
    Pack(Keyed(Mixed(challenge, key), 256).0, 0, 0)
  }

  // -------------------------------------------------------------- permutation

  lemma {:induction false} KeyedPermutes(mixed: seq<u8>, n: nat)
    requires |mixed| == 16 && n <= 256
    ensures IsPermutation(Keyed(mixed, n).0, Descending())
  {
    if n != 0 {
      KeyedPermutes(mixed, n - 1);
      var (cards, acc) := Keyed(mixed, n - 1);
      SwapPermutes(cards, n - 1, Add(Add(acc, mixed[(n - 1) % 16]), cards[n - 1]));
    }
  }

  /** The pack stays a permutation through any traffic. */
  lemma {:induction false} TransformKeepsPermutation(p: Pack, data: seq<u8>)
    requires IsPermutation(p.cards, Descending())
    ensures IsPermutation(Transform(p, data).0.cards, Descending())
    decreases |data|
  {
    if data != [] {
      var first := Add(p.first, 1);
      SwapPermutes(p.cards, first, Add(p.second, p.cards[first]));
      TransformKeepsPermutation(Turn(p), data[1..]);
    }
  }

  /** A pack is a permutation from its key set-up on, whatever it transforms. */
  lemma PackIsAlwaysPermutation(challenge: seq<u8>, key: seq<u8>, data: seq<u8>)
    requires |challenge| == 16 && |key| == 6
    ensures IsPermutation(Transform(FreshPack(challenge, key), data).0.cards, Descending())
  {
    hide Transform, Keyed, IsPermutation;
    KeyedPermutes(Mixed(challenge, key), 256);
    TransformKeepsPermutation(FreshPack(challenge, key), data);
  }

  /** The source's statements for one byte are a turn and its key byte. */
  lemma TurnsBy(p: Pack, t: Pack, card: u8)
    requires p.Valid() && t.Valid()
    requires t.first == Add(p.first, 1) && t.second == Add(p.second, p.cards[t.first])
    requires t.cards == p.cards[t.first := p.cards[t.second]][t.second := p.cards[t.first]]
    requires card == Add(p.cards[t.first], t.cards[t.first])
    ensures t == Turn(p) && t.cards[card] == Pad(p)
  {
  }

  // ---------------------------------------------------------------- the class

  class PeerChatCipher {
    var cards: seq<u8>
    var first: u8
    var second: u8

    ghost predicate Valid()
      reads this
    {
      |cards| == 256
    }

    ghost function Value(): (p: Pack)
      requires Valid()
      reads this
      ensures p.Valid()
    {
      Pack(cards, first, second)
    }

    constructor (challenge: seq<u8>, key: seq<u8>)
      requires |challenge| == 16 && |key| == 6
      ensures Valid() && Value() == FreshPack(challenge, key)
    {
      var mixed := Mixed(challenge, key);
      var deck := Descending();
      var acc: u8 := 0;
      for index := 0 to 256
        invariant |deck| == 256 && (deck, acc) == Keyed(mixed, index)
      {
        acc := Add(Add(acc, mixed[index % 16]), deck[index]);
        deck := deck[index := deck[acc]][acc := deck[index]];
      }
      cards := deck;
      first, second := 0, 0;
    }

    /** The source's constructor; the failures are its ValueErrors. */
    static method Create(challenge: seq<u8>, key: seq<u8>) returns (r: Result<PeerChatCipher>)
      ensures r.Failure? <==> |challenge| != 16 || |key| != 6
      ensures r.Success? ==>
                fresh(r.value) && r.value.Valid() && r.value.Value() == FreshPack(challenge, key)
    {
      if |challenge| != 16 {
        return Failure("PeerChat challenge must be 16 bytes");
      }
      if |key| != 6 {
        return Failure("PeerChat secret must be 6 bytes");
      }
      var cipher := new PeerChatCipher(challenge, key);
      r := Success(cipher);
    }

    method TransformBytes(data: seq<u8>) returns (output: seq<u8>)
      requires Valid()
      modifies this
      ensures Valid() && (Value(), output) == Transform(old(Value()), data)
    {
      hide Turn, Pad, Transform;
      output := data;
      TransformNothing(Value(), data);
      for index := 0 to |data|
        invariant Valid() && |output| == |data|
        invariant Value() == Transform(old(Value()), data[..index]).0
        invariant output == Transform(old(Value()), data[..index]).1 + data[index..]
      {
        ghost var p := Value();
        TransformOneMore(old(Value()), data, index);
        var value := output[index];
        first := Add(first, 1);
        var card := cards[first];
        second := Add(second, card);
        cards := cards[first := cards[second]][second := card];
        card := Add(card, cards[first]);
        output := output[index := Xor(value, cards[card])];
        TurnsBy(p, Value(), card);
      }
      assert data[..|data|] == data && data[|data|..] == [];
      ghost var whole := Transform(old(Value()), data).1;
      assert output == whole + [] == whole;
    }
  }

  lemma TransformNothing(p: Pack, data: seq<u8>)
    requires p.Valid()
    ensures data[..0] == [] && Transform(p, []) == (p, []) && data == [] + data[0..]
  {
  }

  lemma TransformOne(p: Pack, v: u8)
    requires p.Valid()
    ensures Transform(p, [v]) == (Turn(p), [Xor(v, Pad(p))])
  {
    hide Turn, Pad, Xor;
    assert [v][1..] == [];
    assert Transform(Turn(p), [v][1..]) == (Turn(p), []);
    assert [Xor(v, Pad(p))] + [] == [Xor(v, Pad(p))];
  }

  /** One byte more, written over its input. */
  lemma TransformOneMore(p: Pack, data: seq<u8>, index: nat)
    requires p.Valid() && index < |data|
    ensures var q := Transform(p, data[..index]).0;
            var done := Transform(p, data[..index]).1;
            && |done| == index && (done + data[index..])[index] == data[index]
            && Transform(p, data[..index + 1]).0 == Turn(q)
            && Transform(p, data[..index + 1]).1 + data[index + 1..]
               == (done + data[index..])[index := Xor(data[index], Pad(q))]
  {
    hide Turn, Pad;
    assert data[..index + 1] == data[..index] + [data[index]];
    TransformConcat(p, data[..index], [data[index]]);
    assert data[index..] == [data[index]] + data[index + 1..];
    var q := Transform(p, data[..index]).0;
    TransformOne(q, data[index]);
  }
}

/**
 * The line framing of `PeerChatClient.run`, and CRYPT, which installs a new key in mid-stream: bytes
 * behind a CRYPT line in the same read have been decrypted with the old key already.
 */
module PeerChatFraming {
  import opened Wrappers
  import opened Collections
  import opened Bytes
  import opened PeerChatCiphers

  const NEWLINE: u8 := 10
  const RETURN: u8 := 13

  datatype Status = Open | Closed | TooLong

  /** The lines handed to `command` so far, and whether the connection still reads. */
  datatype Outcome = Outcome(lines: seq<seq<u8>>, status: Status)

  type Challenge = s: seq<u8> | |s| == 16 witness seq(16, i => 0)
  type Secret = s: seq<u8> | |s| == 6 witness [0, 0, 0, 0, 0, 0]

  /**
   * `lineBytes` is the configured limit.  From the lines delivered so far, `closes` tells whether the
   * last of them closed the connection (QUIT, or an exhausted budget), and `installs` whether it was
   * a CRYPT and with which random key.
   */
  datatype Rules = Rules(
    lineBytes: nat,
    secret: Secret,
    closes: seq<seq<u8>> -> bool,
    installs: seq<seq<u8>> -> Option<Challenge>)

  ghost predicate Sound(cipher: Option<Pack>) {
    cipher.Some? ==> cipher.value.Valid()
  }

  function NewlineAt(data: seq<u8>): (i: nat)
    ensures i <= |data| && forall k :: 0 <= k < i ==> data[k] != NEWLINE
    ensures i < |data| ==> data[i] == NEWLINE
    decreases |data|
  {
    if data == [] || data[0] == NEWLINE then 0
    else 1 + NewlineAt(data[1..])
  }

  function StripReturns(raw: seq<u8>): seq<u8> {
    if raw != [] && raw[|raw| - 1] == RETURN then StripReturns(raw[..|raw| - 1]) else raw
  }

  /** The outcome once one complete line has been taken off the buffer. */
  function TakeLine(rules: Rules, raw: seq<u8>, lines: seq<seq<u8>>): Outcome {
    if |raw| > rules.lineBytes then Outcome(lines, TooLong)
    else
      var line := StripReturns(raw);
      if line == [] then Outcome(lines, Open)
      else Outcome(lines + [line], if rules.closes(lines + [line]) then Closed else Open)
  }

  /** The line just taken was delivered and installed a key. */
  predicate Installs(rules: Rules, before: seq<seq<u8>>, after: seq<seq<u8>>) {
    after != before && rules.installs(after).Some?
  }

  /** The decryptor once the last of these lines has run. */
  function Rekeyed(rules: Rules, lines: seq<seq<u8>>, cipher: Option<Pack>): (r: Option<Pack>)
    requires Sound(cipher)
    ensures Sound(r)
  {
    match rules.installs(lines)
    case None => cipher
    case Some(key) => Some(FreshPack(key, rules.secret))
  }

  /** The decryptor behind the line just taken. */
  function NextCipher(rules: Rules, before: seq<seq<u8>>, after: seq<seq<u8>>, cipher: Option<Pack>): (r: Option<Pack>)
    requires Sound(cipher)
    ensures Sound(r)
  {
    if after == before then cipher else Rekeyed(rules, after, cipher)
  }

  datatype Parsed = Parsed(outcome: Outcome, rest: seq<u8>, cipher: Option<Pack>)

  /** Decrypted bytes, taken line by line: the outcome, the unfinished line, the decryptor by then. */
  function Parse(rules: Rules, data: seq<u8>, lines: seq<seq<u8>>, cipher: Option<Pack>): (r: Parsed)
    requires Sound(cipher)
    ensures Sound(r.cipher)
    decreases |data|
  {
    var i := NewlineAt(data);
    if i == |data| then
      Parsed(Outcome(lines, if |data| > rules.lineBytes then TooLong else Open), data, cipher)
    else
      var taken := TakeLine(rules, data[..i], lines);
      var next := NextCipher(rules, lines, taken.lines, cipher);
      if taken.status.Open? then Parse(rules, data[i + 1..], taken.lines, next)
      else Parsed(taken, data[i + 1..], next)
  }

  /** One connection: its key, its unfinished line and what has come of it. */
  datatype Reader = Reader(cipher: Option<Pack>, buffer: seq<u8>, outcome: Outcome)

  function Decode(cipher: Option<Pack>, data: seq<u8>): (r: (Option<Pack>, seq<u8>))
    requires Sound(cipher)
    ensures Sound(r.0)
  {
    if cipher.None? then (None, data)
    else (Some(Transform(cipher.value, data).0), Transform(cipher.value, data).1)
  }

  /** One read of the socket; a finished connection reads no more. */
  function Read(rules: Rules, r: Reader, chunk: seq<u8>): (r': Reader)
    requires Sound(r.cipher)
    ensures Sound(r'.cipher)
  {
    if !r.outcome.status.Open? then r
    else
      var (cipher, plain) := Decode(r.cipher, chunk);
      var parsed := Parse(rules, r.buffer + plain, r.outcome.lines, cipher);
      Reader(parsed.cipher, parsed.rest, parsed.outcome)
  }

  function ReadAll(rules: Rules, r: Reader, chunks: seq<seq<u8>>): (r': Reader)
    requires Sound(r.cipher)
    ensures Sound(r'.cipher)
  {
    if chunks == [] then r
    else Read(rules, ReadAll(rules, r, chunks[..|chunks| - 1]), chunks[|chunks| - 1])
  }

  function Fresh(cipher: Option<Pack>): Reader {
    Reader(cipher, [], Outcome([], Open))
  }

  lemma NewlineUnique(data: seq<u8>, i: nat)
    requires i < |data| && data[i] == NEWLINE && forall k :: 0 <= k < i ==> data[k] != NEWLINE
    ensures NewlineAt(data) == i
  {
  }

  /**
   * Decrypted bytes `a + b` in one go are `a` first and then `b`: the delivered lines and the status
   * agree, and while the connection is open so do the unfinished line and the decryptor.
   */
  lemma {:induction false} ParseResumes(rules: Rules, a: seq<u8>, b: seq<u8>, lines: seq<seq<u8>>, cipher: Option<Pack>)
    requires Sound(cipher)
    ensures var p := Parse(rules, a, lines, cipher);
            && (!p.outcome.status.Open? ==> Parse(rules, a + b, lines, cipher).outcome == p.outcome)
            && (p.outcome.status.Open? ==>
                  Parse(rules, a + b, lines, cipher) == Parse(rules, p.rest + b, p.outcome.lines, p.cipher))
    decreases |a|
  {
    hide TakeLine, NextCipher;
    var i := NewlineAt(a);
    if i < |a| {
      FirstLine(a, b);
      var taken := TakeLine(rules, a[..i], lines);
      if taken.status.Open? {
        ParseResumes(rules, a[i + 1..], b, taken.lines, NextCipher(rules, lines, taken.lines, cipher));
      }
    } else {
      assert a[..i] == a;
      if |a| > rules.lineBytes {
        LongStaysLong(rules, a, b, lines, cipher);
      }
    }
  }

  lemma FirstLine(a: seq<u8>, b: seq<u8>)
    requires NewlineAt(a) < |a|
    ensures var i := NewlineAt(a);
            NewlineAt(a + b) == i && (a + b)[..i] == a[..i] && (a + b)[i + 1..] == a[i + 1..] + b
  {
    NewlineUnique(a + b, NewlineAt(a));
  }

  lemma LongStaysLong(rules: Rules, a: seq<u8>, b: seq<u8>, lines: seq<seq<u8>>, cipher: Option<Pack>)
    requires Sound(cipher) && NewlineAt(a) == |a| && |a| > rules.lineBytes
    ensures Parse(rules, a + b, lines, cipher).outcome == Outcome(lines, TooLong)
  {
    assert |a| <= NewlineAt(a + b);
  }

  lemma DecodeNothing(cipher: Option<Pack>)
    requires Sound(cipher)
    ensures Decode(cipher, []) == (cipher, [])
  {
  }

  lemma DecodeConcat(cipher: Option<Pack>, a: seq<u8>, b: seq<u8>)
    requires Sound(cipher)
    ensures var (middle, first) := Decode(cipher, a);
            Decode(cipher, a + b) == (Decode(middle, b).0, first + Decode(middle, b).1)
  {
    if cipher.Some? {
      TransformConcat(cipher.value, a, b);
    }
  }

  // --------------------------------------------------------- with CRYPT lines

  /** Some line taken off these bytes installs a key. */
  predicate Switches(rules: Rules, data: seq<u8>, lines: seq<seq<u8>>)
    decreases |data|
  {
    var i := NewlineAt(data);
    i < |data|
    && var taken := TakeLine(rules, data[..i], lines);
       Installs(rules, lines, taken.lines) || (taken.status.Open? && Switches(rules, data[i + 1..], taken.lines))
  }

  /** A line that installs a key has nothing behind its newline. */
  predicate Clean(rules: Rules, data: seq<u8>, lines: seq<seq<u8>>)
    decreases |data|
  {
    var i := NewlineAt(data);
    i < |data| ==>
      var taken := TakeLine(rules, data[..i], lines);
      taken.status.Open? ==>
        (Installs(rules, lines, taken.lines) ==> data[i + 1..] == []) && Clean(rules, data[i + 1..], taken.lines)
  }

  /** A read that delivers a CRYPT line ends with that line. */
  predicate CleanRead(rules: Rules, r: Reader, chunk: seq<u8>)
    requires Sound(r.cipher)
  {
    r.outcome.status.Open? ==> Clean(rules, r.buffer + Decode(r.cipher, chunk).1, r.outcome.lines)
  }

  ghost predicate CleanReads(rules: Rules, cipher: Option<Pack>, chunks: seq<seq<u8>>)
    requires Sound(cipher)
  {
    forall n :: 0 <= n < |chunks| ==> CleanRead(rules, ReadAll(rules, Fresh(cipher), chunks[..n]), chunks[n])
  }

  /** The same to the client, and from here on. */
  ghost predicate Same(r: Reader, t: Reader) {
    r.outcome == t.outcome && (r.outcome.status.Open? ==> r == t)
  }

  /** The decryptor decides neither lines nor status; it is passed through unless a line installs one. */
  lemma {:induction false} CipherAside(rules: Rules, data: seq<u8>, lines: seq<seq<u8>>, one: Option<Pack>, other: Option<Pack>)
    requires Sound(one) && Sound(other)
    ensures var p, q := Parse(rules, data, lines, one), Parse(rules, data, lines, other);
            && p.outcome == q.outcome && p.rest == q.rest
            && (if Switches(rules, data, lines) then p.cipher == q.cipher else p.cipher == one && q.cipher == other)
    decreases |data|
  {
    hide TakeLine;
    var i := NewlineAt(data);
    if i < |data| {
      var taken := TakeLine(rules, data[..i], lines);
      var next, last := NextCipher(rules, lines, taken.lines, one), NextCipher(rules, lines, taken.lines, other);
      if taken.status.Open? {
        CipherAside(rules, data[i + 1..], taken.lines, next, last);
      }
    }
  }

  /** Clean bytes are clean up to any point, and from there on; behind a CRYPT line there is nothing. */
  lemma {:induction false} CleanSplits(rules: Rules, a: seq<u8>, b: seq<u8>, lines: seq<seq<u8>>, cipher: Option<Pack>)
    requires Sound(cipher) && Clean(rules, a + b, lines)
    ensures Clean(rules, a, lines)
    ensures Parse(rules, a, lines, cipher).outcome.status.Open? && Switches(rules, a, lines) ==> b == []
    decreases |a|
  {
    hide TakeLine, NextCipher, Installs;
    var i := NewlineAt(a);
    if i < |a| {
      FirstLine(a, b);
      var taken := TakeLine(rules, a[..i], lines);
      if taken.status.Open? {
        CleanSplits(rules, a[i + 1..], b, taken.lines, NextCipher(rules, lines, taken.lines, cipher));
      }
    }
  }

  /** A clean read of `a + b` is a read of `a` and a read of `b`. */
  lemma ReadSplits(rules: Rules, r: Reader, a: seq<u8>, b: seq<u8>)
    requires Sound(r.cipher) && r.outcome.status.Open? && CleanRead(rules, r, a + b) && b != []
    ensures CleanRead(rules, r, a) && Same(Read(rules, r, a + b), Read(rules, Read(rules, r, a), b))
  {
    hide Transform, Parse, Clean, Switches;
    var (middle, first) := Decode(r.cipher, a);
    var (after, second) := Decode(middle, b);
    DecodeConcat(r.cipher, a, b);
    DecodeSize(middle, b);
    assert r.buffer + (first + second) == r.buffer + first + second;
    CleanSplits(rules, r.buffer + first, second, r.outcome.lines, after);
    ParseResumes(rules, r.buffer + first, second, r.outcome.lines, after);
    CipherAside(rules, r.buffer + first, r.outcome.lines, middle, after);
  }

  lemma DecodeSize(cipher: Option<Pack>, data: seq<u8>)
    requires Sound(cipher)
    ensures |Decode(cipher, data).1| == |data|
  {
  }

  lemma SameReads(rules: Rules, r: Reader, t: Reader, chunk: seq<u8>)
    requires Sound(r.cipher) && Sound(t.cipher) && Same(r, t)
    ensures Same(Read(rules, r, chunk), Read(rules, t, chunk))
  {
    hide Parse, Transform;
  }

  /** The reference: one byte a read. */
  function ReadBytes(rules: Rules, r: Reader, data: seq<u8>): (r': Reader)
    requires Sound(r.cipher)
    ensures Sound(r'.cipher)
  {
    if data == [] then r else Read(rules, ReadBytes(rules, r, data[..|data| - 1]), [data[|data| - 1]])
  }

  /** Between reads the buffer holds an unfinished line within the limit. */
  ghost predicate Settled(rules: Rules, r: Reader) {
    r.outcome.status.Open? ==> NewlineAt(r.buffer) == |r.buffer| <= rules.lineBytes
  }

  lemma {:induction false} ParseSettles(rules: Rules, data: seq<u8>, lines: seq<seq<u8>>, cipher: Option<Pack>)
    requires Sound(cipher) && Parse(rules, data, lines, cipher).outcome.status.Open?
    ensures NewlineAt(Parse(rules, data, lines, cipher).rest) == |Parse(rules, data, lines, cipher).rest| <= rules.lineBytes
    decreases |data|
  {
    hide TakeLine, NextCipher;
    var i := NewlineAt(data);
    if i < |data| {
      var taken := TakeLine(rules, data[..i], lines);
      ParseSettles(rules, data[i + 1..], taken.lines, NextCipher(rules, lines, taken.lines, cipher));
    }
  }

  lemma ReadSettles(rules: Rules, r: Reader, chunk: seq<u8>)
    requires Sound(r.cipher)
    ensures Read(rules, r, chunk).outcome.status.Open? ==> Settled(rules, Read(rules, r, chunk))
  {
    hide Transform, Parse;
    if r.outcome.status.Open? {
      var (cipher, plain) := Decode(r.cipher, chunk);
      if Parse(rules, r.buffer + plain, r.outcome.lines, cipher).outcome.status.Open? {
        ParseSettles(rules, r.buffer + plain, r.outcome.lines, cipher);
      }
    }
  }

  lemma ReadNothing(rules: Rules, r: Reader)
    requires Sound(r.cipher) && Settled(rules, r)
    ensures Read(rules, r, []) == r
  {
    DecodeNothing(r.cipher);
    assert r.buffer + [] == r.buffer;
  }

  /** A clean read brings what its bytes would have brought one by one. */
  lemma {:induction false} CleanReadIsBytewise(rules: Rules, r: Reader, chunk: seq<u8>)
    requires Sound(r.cipher) && Settled(rules, r) && CleanRead(rules, r, chunk)
    ensures Same(Read(rules, r, chunk), ReadBytes(rules, r, chunk))
    decreases |chunk|
  {
    hide Read, CleanRead, Settled;
    if chunk == [] {
      ReadNothing(rules, r);
    } else {
      var init, last := chunk[..|chunk| - 1], [chunk[|chunk| - 1]];
      assert init + last == chunk;
      if r.outcome.status.Open? {
        ReadSplits(rules, r, init, last);
        CleanReadIsBytewise(rules, r, init);
        SameReads(rules, Read(rules, r, init), ReadBytes(rules, r, init), last);
      } else {
        FinishedReads(rules, r, chunk);
      }
    }
  }

  lemma {:induction false} FinishedReads(rules: Rules, r: Reader, data: seq<u8>)
    requires Sound(r.cipher) && !r.outcome.status.Open?
    ensures Read(rules, r, data) == r == ReadBytes(rules, r, data)
  {
    if data != [] {
      FinishedReads(rules, r, data[..|data| - 1]);
    }
  }

  lemma {:induction false} BytesConcat(rules: Rules, r: Reader, a: seq<u8>, b: seq<u8>)
    requires Sound(r.cipher)
    ensures ReadBytes(rules, r, a + b) == ReadBytes(rules, ReadBytes(rules, r, a), b)
    decreases |b|
  {
    hide Read;
    if b == [] {
      assert a + b == a;
    } else {
      assert (a + b)[..|a + b| - 1] == a + b[..|b| - 1];
      BytesConcat(rules, r, a, b[..|b| - 1]);
    }
  }

  lemma {:induction false} SameBytes(rules: Rules, r: Reader, t: Reader, data: seq<u8>)
    requires Sound(r.cipher) && Sound(t.cipher) && Same(r, t)
    ensures Same(ReadBytes(rules, r, data), ReadBytes(rules, t, data))
  {
    hide Read, Same;
    if data != [] {
      SameBytes(rules, r, t, data[..|data| - 1]);
      SameReads(rules, ReadBytes(rules, r, data[..|data| - 1]), ReadBytes(rules, t, data[..|data| - 1]), [data[|data| - 1]]);
    }
  }

  lemma SameTransitive(r: Reader, s: Reader, t: Reader)
    requires Same(r, s) && Same(s, t)
    ensures Same(r, t)
  {
  }

  lemma {:induction false} ReadAllSettles(rules: Rules, cipher: Option<Pack>, chunks: seq<seq<u8>>)
    requires Sound(cipher)
    ensures Settled(rules, ReadAll(rules, Fresh(cipher), chunks))
  {
    hide Read;
    if chunks != [] {
      ReadSettles(rules, ReadAll(rules, Fresh(cipher), chunks[..|chunks| - 1]), chunks[|chunks| - 1]);
    }
  }

  /** Reads that end with every CRYPT line they deliver bring what the stream brings byte by byte. */
  lemma {:induction false} CleanReadsAreBytewise(rules: Rules, cipher: Option<Pack>, chunks: seq<seq<u8>>)
    requires Sound(cipher) && CleanReads(rules, cipher, chunks)
    ensures Same(ReadAll(rules, Fresh(cipher), chunks), ReadBytes(rules, Fresh(cipher), Flatten(chunks)))
    decreases |chunks|
  {
    hide Read, CleanRead, Same, Settled;
    if chunks == [] {
      SameAsItself(Fresh(cipher));
    } else {
      var init, last := chunks[..|chunks| - 1], chunks[|chunks| - 1];
      forall n | 0 <= n < |init|
        ensures CleanRead(rules, ReadAll(rules, Fresh(cipher), init[..n]), init[n])
      {
        assert init[..n] == chunks[..n];
      }
      FlattenEnd(chunks);
      CleanReadsAreBytewise(rules, cipher, init);
      var r := ReadAll(rules, Fresh(cipher), init);
      ReadAllSettles(rules, cipher, init);
      CleanReadIsBytewise(rules, r, last);
      SameBytes(rules, r, ReadBytes(rules, Fresh(cipher), Flatten(init)), last);
      BytesConcat(rules, Fresh(cipher), Flatten(init), last);
      SameTransitive(Read(rules, r, last), ReadBytes(rules, r, last), ReadBytes(rules, Fresh(cipher), Flatten(chunks)));
    }
  }

  lemma SameAsItself(r: Reader)
    ensures Same(r, r)
  {
  }

  /**
   * Two ways of cutting one byte stream have the same outcome, and while the connection is open the
   * same reader, if in both every read that delivers a CRYPT line ends with it.
   */
  lemma ChunkingIsInvisible(rules: Rules, cipher: Option<Pack>, one: seq<seq<u8>>, other: seq<seq<u8>>)
    requires Sound(cipher) && Flatten(one) == Flatten(other)
    requires CleanReads(rules, cipher, one) && CleanReads(rules, cipher, other)
    ensures Same(ReadAll(rules, Fresh(cipher), one), ReadAll(rules, Fresh(cipher), other))
  {
    hide CleanReads, Read;
    CleanReadsAreBytewise(rules, cipher, one);
    CleanReadsAreBytewise(rules, cipher, other);
  }

  // ------------------------------------------------- what CRYPT lines decide

  lemma TakenGrows(rules: Rules, raw: seq<u8>, lines: seq<seq<u8>>)
    ensures var taken := TakeLine(rules, raw, lines);
            |lines| <= |taken.lines| <= |lines| + 1 && taken.lines[..|lines|] == lines
  {
    hide StripReturns;
  }

  /** Among the lines behind `lines`, one that installs a key is the first taken or comes later. */
  lemma FirstOrLater(rules: Rules, lines: seq<seq<u8>>, taken: seq<seq<u8>>, after: seq<seq<u8>>)
    requires |lines| <= |taken| <= |lines| + 1 && taken[..|lines|] == lines
    requires |taken| <= |after| && after[..|taken|] == taken
    ensures after[..|lines|] == lines
    ensures (exists j :: |lines| < j <= |after| && rules.installs(after[..j]).Some?)
            <==> Installs(rules, lines, taken) || exists j :: |taken| < j <= |after| && rules.installs(after[..j]).Some?
  {
    assert after[..|lines|] == after[..|taken|][..|lines|];
    assert |taken| == |lines| ==> taken == lines;
    if Installs(rules, lines, taken) {
      assert rules.installs(after[..|taken|]).Some?;
    }
  }

  /** Whether a line installs a key shows in the lines delivered. */
  lemma {:induction false} SwitchesByLines(rules: Rules, data: seq<u8>, lines: seq<seq<u8>>, cipher: Option<Pack>)
    requires Sound(cipher)
    ensures var after := Parse(rules, data, lines, cipher).outcome.lines;
            && |lines| <= |after| && after[..|lines|] == lines
            && (Switches(rules, data, lines) <==> exists j :: |lines| < j <= |after| && rules.installs(after[..j]).Some?)
    decreases |data|
  {
    hide NextCipher, TakeLine, Installs;
    var i := NewlineAt(data);
    if i < |data| {
      var taken := TakeLine(rules, data[..i], lines);
      var next := NextCipher(rules, lines, taken.lines, cipher);
      TakenGrows(rules, data[..i], lines);
      if taken.status.Open? {
        SwitchesByLines(rules, data[i + 1..], taken.lines, next);
      }
      FirstOrLater(rules, lines, taken.lines, Parse(rules, data, lines, cipher).outcome.lines);
    } else {
      assert lines[..|lines|] == lines;
    }
  }

  lemma {:induction false} SwitchesResume(rules: Rules, a: seq<u8>, b: seq<u8>, lines: seq<seq<u8>>, cipher: Option<Pack>)
    requires Sound(cipher)
    ensures var p := Parse(rules, a, lines, cipher);
            Switches(rules, a + b, lines)
            <==> Switches(rules, a, lines) || (p.outcome.status.Open? && Switches(rules, p.rest + b, p.outcome.lines))
    decreases |a|
  {
    hide NextCipher, StripReturns;
    var i := NewlineAt(a);
    if i < |a| {
      FirstLine(a, b);
      var taken := TakeLine(rules, a[..i], lines);
      if taken.status.Open? {
        SwitchesResume(rules, a[i + 1..], b, taken.lines, NextCipher(rules, lines, taken.lines, cipher));
      }
    } else if |a| > rules.lineBytes {
      assert |a| <= NewlineAt(a + b);
    }
  }

  /** The stream, decrypted with one key throughout, delivers no line that installs another. */
  predicate Quiet(rules: Rules, cipher: Option<Pack>, stream: seq<u8>)
    requires Sound(cipher)
  {
    !Switches(rules, Decode(cipher, stream).1, [])
  }

  /**
   * Where the stream delivers no CRYPT, the lines a client's reads deliver, in order, and whether the
   * limit was hit, are those of its decrypted byte stream taken as a whole.
   */
  lemma {:induction false} ReadsParseTheStream(rules: Rules, cipher: Option<Pack>, chunks: seq<seq<u8>>)
    requires Sound(cipher) && Quiet(rules, cipher, Flatten(chunks))
    ensures var r := ReadAll(rules, Fresh(cipher), chunks);
            var (decoded, plain) := Decode(cipher, Flatten(chunks));
            && r.outcome == Parse(rules, plain, [], None).outcome
            && (r.outcome.status.Open? ==> r.cipher == decoded && r.buffer == Parse(rules, plain, [], None).rest)
    decreases |chunks|
  {
    hide Transform, Switches;
    if chunks == [] {
      assert Decode(cipher, []) == (cipher, []) by { DecodeNothing(cipher); }
    } else {
      var (init, last) := (chunks[..|chunks| - 1], chunks[|chunks| - 1]);
      FlattenEnd(chunks);
      var r := ReadAll(rules, Fresh(cipher), init);
      var (decoded, plain) := Decode(cipher, Flatten(init));
      var (after, more) := Decode(decoded, last);
      DecodeConcat(cipher, Flatten(init), last);
      SwitchesResume(rules, plain, more, [], None);
      ReadsParseTheStream(rules, cipher, init);
      ParseResumes(rules, plain, more, [], None);
      CipherAside(rules, plain, [], None, None);
      CipherAside(rules, r.buffer + more, r.outcome.lines, after, None);
    }
  }

  /** Where the stream delivers no CRYPT, chunking is invisible without any condition. */
  lemma QuietChunkingIsInvisible(rules: Rules, cipher: Option<Pack>, one: seq<seq<u8>>, other: seq<seq<u8>>)
    requires Sound(cipher) && Flatten(one) == Flatten(other) && Quiet(rules, cipher, Flatten(one))
    ensures Same(ReadAll(rules, Fresh(cipher), one), ReadAll(rules, Fresh(cipher), other))
  {
    hide Quiet, Read, Decode;
    ReadsParseTheStream(rules, cipher, one);
    ReadsParseTheStream(rules, cipher, other);
  }

  /** Behind a read that delivers a CRYPT: `tail`, decrypted with the key before it, delivers no further one. */
  predicate LastCrypt(rules: Rules, r: Reader, head: seq<u8>, tail: seq<u8>)
    requires Sound(r.cipher)
  {
    var s := Read(rules, r, head);
    && r.outcome.status.Open? && s.outcome.status.Open?
    && Switches(rules, r.buffer + Decode(r.cipher, head).1, r.outcome.lines)
    && !Switches(rules, s.buffer + Decode(Decode(r.cipher, head).0, tail).1, s.outcome.lines)
  }

  /** Read together, the key that the CRYPT installs has met nothing of `tail`. */
  lemma JointReadKeepsKey(rules: Rules, r: Reader, head: seq<u8>, tail: seq<u8>)
    requires Sound(r.cipher) && LastCrypt(rules, r, head, tail)
    ensures var s, j := Read(rules, r, head), Read(rules, r, head + tail);
            && s.cipher.Some? && j.cipher == s.cipher
            && j.outcome == Parse(rules, s.buffer + Decode(Decode(r.cipher, head).0, tail).1, s.outcome.lines, s.cipher).outcome
  {
    hide Transform, Parse, Switches;
    var (middle, first) := Decode(r.cipher, head);
    var (after, second) := Decode(middle, tail);
    DecodeConcat(r.cipher, head, tail);
    assert r.buffer + (first + second) == r.buffer + first + second;
    ParseResumes(rules, r.buffer + first, second, r.outcome.lines, after);
    CipherAside(rules, r.buffer + first, r.outcome.lines, middle, after);
    InstalledKey(rules, r.buffer + first, r.outcome.lines, middle);
    var s := Read(rules, r, head);
    CipherAside(rules, s.buffer + second, s.outcome.lines, s.cipher, s.cipher);
  }

  lemma {:induction false} InstalledKey(rules: Rules, data: seq<u8>, lines: seq<seq<u8>>, cipher: Option<Pack>)
    requires Sound(cipher) && (Switches(rules, data, lines) || cipher.Some?)
    ensures Parse(rules, data, lines, cipher).cipher.Some?
    decreases |data|
  {
    hide TakeLine, FreshPack;
    var i := NewlineAt(data);
    if i < |data| {
      var taken := TakeLine(rules, data[..i], lines);
      if taken.status.Open? {
        InstalledKey(rules, data[i + 1..], taken.lines, NextCipher(rules, lines, taken.lines, cipher));
      }
    }
  }

  /** Read apart, it has met every byte of `tail`, unless a line of `tail` installs another. */
  lemma ReadApartTurnsKey(rules: Rules, s: Reader, tail: seq<u8>)
    requires s.outcome.status.Open? && s.cipher.Some? && Sound(s.cipher)
    requires !Switches(rules, s.buffer + Decode(s.cipher, tail).1, s.outcome.lines)
    ensures var t := Read(rules, s, tail);
            t.cipher.Some? && t.cipher.value.first == Add(s.cipher.value.first, |tail|)
  {
    hide Transform, Parse, Switches;
    var (after, plain) := Decode(s.cipher, tail);
    CipherAside(rules, s.buffer + plain, s.outcome.lines, after, after);
    TransformCounts(s.cipher.value, tail);
  }

  /**
   * A read that goes on behind a CRYPT line shows: whatever stands behind it, be the number of bytes no
   * multiple of 256 and the connection still open, reading on later leaves another reader.
   */
  lemma ReadBehindCryptShows(rules: Rules, r: Reader, head: seq<u8>, tail: seq<u8>)
    requires Sound(r.cipher) && LastCrypt(rules, r, head, tail) && |tail| % 256 != 0
    requires Read(rules, r, head + tail).outcome.status.Open?
    ensures !Same(Read(rules, r, head + tail), Read(rules, Read(rules, r, head), tail))
  {
    hide Transform, Parse, Switches, Read, Decode;
    var s := Read(rules, r, head);
    JointReadKeepsKey(rules, r, head, tail);
    var joint := Read(rules, r, head + tail);
    if joint.outcome == Read(rules, s, tail).outcome {
      SameLinesSwitchAlike(rules, s, Decode(Decode(r.cipher, head).0, tail).1, tail);
      ReadApartTurnsKey(rules, s, tail);
    }
  }

  /** Two tails that leave the same lines install keys alike. */
  lemma SameLinesSwitchAlike(rules: Rules, s: Reader, plain: seq<u8>, tail: seq<u8>)
    requires s.outcome.status.Open? && Sound(s.cipher) && !Switches(rules, s.buffer + plain, s.outcome.lines)
    requires Parse(rules, s.buffer + plain, s.outcome.lines, s.cipher).outcome == Read(rules, s, tail).outcome
    ensures !Switches(rules, s.buffer + Decode(s.cipher, tail).1, s.outcome.lines)
  {
    hide Transform, Parse, Switches;
    var (after, other) := Decode(s.cipher, tail);
    SwitchesByLines(rules, s.buffer + plain, s.outcome.lines, s.cipher);
    SwitchesByLines(rules, s.buffer + other, s.outcome.lines, after);
  }

  lemma {:induction false} WithoutSwitchClean(rules: Rules, data: seq<u8>, lines: seq<seq<u8>>)
    requires !Switches(rules, data, lines)
    ensures Clean(rules, data, lines)
    decreases |data|
  {
    hide TakeLine, Installs;
    var i := NewlineAt(data);
    if i < |data| {
      var taken := TakeLine(rules, data[..i], lines);
      if taken.status.Open? {
        WithoutSwitchClean(rules, data[i + 1..], taken.lines);
      }
    }
  }

  /** Some line delivered behind the first `n` installs a key. */
  ghost predicate InstalledSince(rules: Rules, lines: seq<seq<u8>>, n: nat) {
    exists j :: n < j <= |lines| && rules.installs(lines[..j]).Some?
  }

  lemma ReadExtends(rules: Rules, r: Reader, chunk: seq<u8>)
    requires Sound(r.cipher)
    ensures r.outcome.lines <= Read(rules, r, chunk).outcome.lines
  {
    hide Transform, Parse, Switches;
    if r.outcome.status.Open? {
      var (cipher, plain) := Decode(r.cipher, chunk);
      SwitchesByLines(rules, r.buffer + plain, r.outcome.lines, cipher);
    }
  }

  lemma StillNoneInstalled(rules: Rules, lines: seq<seq<u8>>, more: seq<seq<u8>>, n: nat)
    requires lines <= more && !InstalledSince(rules, more, n)
    ensures !InstalledSince(rules, lines, n)
  {
    assert forall j :: 0 <= j <= |lines| ==> lines[..j] == more[..j];
  }

  /** A read of bytes that no line has installed a key in, when they came one by one, is clean. */
  lemma {:induction false} BytewiseQuiet(rules: Rules, s: Reader, data: seq<u8>)
    requires Sound(s.cipher) && Settled(rules, s) && s.outcome.status.Open?
    requires !InstalledSince(rules, ReadBytes(rules, s, data).outcome.lines, |s.outcome.lines|)
    ensures !Switches(rules, s.buffer + Decode(s.cipher, data).1, s.outcome.lines)
    ensures Same(Read(rules, s, data), ReadBytes(rules, s, data))
    decreases |data|
  {
    hide Settled, Transform, Switches, Parse, Clean, InstalledSince;
    if data == [] {
      DecodeNothing(s.cipher);
      assert s.buffer + [] == s.buffer;
      UnfinishedIsQuiet(rules, s);
    } else {
      var init, last := data[..|data| - 1], [data[|data| - 1]];
      assert init + last == data;
      var b := ReadBytes(rules, s, init);
      ReadExtends(rules, b, last);
      StillNoneInstalled(rules, b.outcome.lines, ReadBytes(rules, s, data).outcome.lines, |s.outcome.lines|);
      BytewiseQuiet(rules, s, init);
      SameReads(rules, Read(rules, s, init), b, last);
      NextQuiet(rules, s, init, last);
    }
    WithoutSwitchClean(rules, s.buffer + Decode(s.cipher, data).1, s.outcome.lines);
    CleanReadIsBytewise(rules, s, data);
  }

  lemma UnfinishedIsQuiet(rules: Rules, s: Reader)
    requires Settled(rules, s) && s.outcome.status.Open?
    ensures !Switches(rules, s.buffer, s.outcome.lines)
  {
  }

  lemma NextQuiet(rules: Rules, s: Reader, init: seq<u8>, last: seq<u8>)
    requires Sound(s.cipher) && s.outcome.status.Open?
    requires !Switches(rules, s.buffer + Decode(s.cipher, init).1, s.outcome.lines)
    requires !InstalledSince(rules, Read(rules, Read(rules, s, init), last).outcome.lines, |s.outcome.lines|)
    ensures !Switches(rules, s.buffer + Decode(s.cipher, init + last).1, s.outcome.lines)
  {
    hide Transform, Switches, Parse;
    var (middle, first) := Decode(s.cipher, init);
    var (after, second) := Decode(middle, last);
    DecodeConcat(s.cipher, init, last);
    assert s.buffer + (first + second) == s.buffer + first + second;
    SwitchesResume(rules, s.buffer + first, second, s.outcome.lines, middle);
    CipherAside(rules, s.buffer + first, s.outcome.lines, middle, middle);
    var r := Read(rules, s, init);
    ReadExtends(rules, s, init);
    if r.outcome.status.Open? {
      SwitchesByLines(rules, r.buffer + second, r.outcome.lines, after);
    }
  }

  /**
   * The condition of `ChunkingIsInvisible` is needed, read by read: a read that delivers one CRYPT with
   * fewer than 256 bytes behind it and stays open is what its bytes are one by one if and only if it
   * ends with that line.
   */
  lemma CryptReadIsBytewiseIff(rules: Rules, r: Reader, head: seq<u8>, tail: seq<u8>)
    requires Sound(r.cipher) && Settled(rules, r) && CleanRead(rules, r, head) && LastCrypt(rules, r, head, tail)
    requires |tail| < 256 && Read(rules, r, head + tail).outcome.status.Open?
    ensures CleanRead(rules, r, head + tail) <==> tail == []
    ensures Same(Read(rules, r, head + tail), ReadBytes(rules, r, head + tail)) <==> tail == []
  {
    hide Settled, Read, Parse, Transform, Switches, CleanRead, InstalledSince;
    if tail == [] {
      assert head + tail == head;
      CleanReadIsBytewise(rules, r, head);
    } else {
      ReadBehindCryptShows(rules, r, head, tail);
      if CleanRead(rules, r, head + tail) {
        ReadSplits(rules, r, head, tail);
      }
      if Same(Read(rules, r, head + tail), ReadBytes(rules, r, head + tail)) {
        TailIsBytewise(rules, r, head, tail);
      }
    }
  }

  lemma TailIsBytewise(rules: Rules, r: Reader, head: seq<u8>, tail: seq<u8>)
    requires Sound(r.cipher) && Settled(rules, r) && CleanRead(rules, r, head) && LastCrypt(rules, r, head, tail)
    requires Read(rules, r, head + tail).outcome.status.Open?
    requires Same(Read(rules, r, head + tail), ReadBytes(rules, r, head + tail))
    ensures Same(Read(rules, r, head + tail), Read(rules, Read(rules, r, head), tail))
  {
    hide Settled, Read, Parse, Transform, Switches, CleanRead, Decode;
    var s, b := Read(rules, r, head), ReadBytes(rules, r, head);
    CleanReadIsBytewise(rules, r, head);
    assert s == b;
    BytesConcat(rules, r, head, tail);
    ReadSettles(rules, r, head);
    JointReadKeepsKey(rules, r, head, tail);
    SwitchesByLines(rules, s.buffer + Decode(Decode(r.cipher, head).0, tail).1, s.outcome.lines, s.cipher);
    BytewiseQuiet(rules, s, tail);
  }

  /** A CRYPT line in the clear, and decrypted bytes behind it. */
  lemma CryptThen(rules: Rules, crypt: seq<u8>, tail: seq<u8>)
    requires crypt != [] && NEWLINE !in crypt && crypt[|crypt| - 1] != RETURN && |crypt| <= rules.lineBytes
    requires rules.installs([crypt]).Some? && !rules.closes([crypt])
    ensures Parse(rules, crypt + [NEWLINE] + tail, [], None)
            == Parse(rules, tail, [crypt], Some(FreshPack(rules.installs([crypt]).value, rules.secret)))
  {
    hide FreshPack;
    var data := crypt + [NEWLINE] + tail;
    NewlineUnique(data, |crypt|);
    assert data[..|crypt|] == crypt && data[|crypt| + 1..] == tail;
    assert StripReturns(crypt) == crypt && [] + [crypt] == [crypt];
  }

  /** What two bytes bring: the one-byte line `x` if and only if they are that line. */
  lemma TwoBytesIff(rules: Rules, lines: seq<seq<u8>>, data: seq<u8>, x: u8, one: Option<Pack>, other: Option<Pack>)
    requires |data| == 2 && x != NEWLINE && x != RETURN && 1 <= rules.lineBytes && Sound(one) && Sound(other)
    ensures Parse(rules, data, lines, one).outcome == Parse(rules, [x, NEWLINE], lines, other).outcome <==> data == [x, NEWLINE]
  {
    hide FreshPack;
    LineOfOne(rules, lines, x, other);
    CipherAside(rules, data, lines, one, other);
    if NewlineAt(data) == 1 {
      assert data == [data[0], NEWLINE];
      if data[0] == RETURN {
        assert StripReturns([RETURN]) == [] by {
          assert [RETURN][..0] == [];
        }
        assert data[..1] == [RETURN] && data[2..] == [];
      } else {
        LineOfOne(rules, lines, data[0], other);
        assert (lines + [[data[0]]])[|lines|] == [data[0]] && (lines + [[x]])[|lines|] == [x];
      }
    } else {
      NoLine(rules, lines, data, other);
    }
  }

  lemma LineOfOne(rules: Rules, lines: seq<seq<u8>>, x: u8, cipher: Option<Pack>)
    requires x != NEWLINE && x != RETURN && 1 <= rules.lineBytes && Sound(cipher)
    ensures Parse(rules, [x, NEWLINE], lines, cipher).outcome.lines == lines + [[x]]
  {
    hide FreshPack;
    NewlineUnique([x, NEWLINE], 1);
    assert [x, NEWLINE][..1] == [x] && [x, NEWLINE][2..] == [];
    assert StripReturns([x]) == [x];
  }

  lemma NoLine(rules: Rules, lines: seq<seq<u8>>, data: seq<u8>, cipher: Option<Pack>)
    requires |data| == 2 && NewlineAt(data) != 1 && Sound(cipher)
    ensures Parse(rules, data, lines, cipher).outcome.lines == lines
  {
    hide FreshPack;
    if NewlineAt(data) == 0 {
      assert data[..0] == [] && data[1..] == [data[1]];
      assert Parse(rules, data, lines, cipher) == Parse(rules, [data[1]], lines, cipher);
      if data[1] == NEWLINE {
        assert [data[1]][..0] == [] && [data[1]][1..] == [];
        NothingBehind(rules, lines, cipher);
      }
    }
  }

  /**
   * The lines alone: a read of `head` that ends with a CRYPT, and two bytes behind it that the key before
   * decrypts to a line of one byte.  Read together or apart, they have the same outcome if and only if
   * the key installed decrypts them alike.
   */
  lemma CryptInMidReadIff(rules: Rules, r: Reader, head: seq<u8>, tail: seq<u8>, x: u8)
    requires Sound(r.cipher) && 1 <= rules.lineBytes && x != NEWLINE && x != RETURN
    requires LastCrypt(rules, r, head, tail) && Read(rules, r, head).buffer == []
    requires Decode(Decode(r.cipher, head).0, tail).1 == [x, NEWLINE]
    ensures Read(rules, r, head + tail).outcome == Read(rules, Read(rules, r, head), tail).outcome
            <==> Decode(Read(rules, r, head).cipher, tail).1 == [x, NEWLINE]
  {
    hide FreshPack, Transform, Parse, Switches;
    JointReadKeepsKey(rules, r, head, tail);
    var s := Read(rules, r, head);
    var (after, plain) := Decode(s.cipher, tail);
    DecodeSize(Decode(r.cipher, head).0, tail);
    DecodeSize(s.cipher, tail);
    assert [] + plain == plain && [] + [x, NEWLINE] == [x, NEWLINE];
    TwoBytesIff(rules, s.outcome.lines, plain, x, after, s.cipher);
  }

  /**
   * An input: the first CRYPT line of a connection and one byte `x` behind it.  Whatever the key, reading
   * them together leaves a decryptor that is one byte behind the client's.
   */
  lemma CryptAndOneByteShows(rules: Rules, crypt: seq<u8>, x: u8)
    requires crypt != [] && NEWLINE !in crypt && crypt[|crypt| - 1] != RETURN && |crypt| <= rules.lineBytes
    requires x != NEWLINE && rules.installs([crypt]).Some? && !rules.closes([crypt])
    ensures var head, tail := crypt + [NEWLINE], [x];
            !Same(ReadAll(rules, Fresh(None), [head + tail]), ReadAll(rules, Fresh(None), [head, tail]))
  {
    hide FreshPack, Transform, Parse, Read, Switches;
    var head, tail := crypt + [NEWLINE], [x];
    var pack := FreshPack(rules.installs([crypt]).value, rules.secret);
    CryptThen(rules, crypt, tail);
    CryptThen(rules, crypt, []);
    NothingBehind(rules, [crypt], Some(pack));
    OneByteBehind(rules, [crypt], x, Some(pack));
    CryptSwitches(rules, crypt);
    assert head + [] == head;
    ReadsInFull(rules, head, tail);
    assert Decode(None, head).1 == head && [] + head == head && [] + tail == tail;
    assert LastCrypt(rules, Fresh(None), head, tail);
    ReadBehindCryptShows(rules, Fresh(None), head, tail);
    ReadOneByOne(rules, head, tail);
  }

  lemma CryptSwitches(rules: Rules, crypt: seq<u8>)
    requires crypt != [] && NEWLINE !in crypt && crypt[|crypt| - 1] != RETURN && |crypt| <= rules.lineBytes
    requires rules.installs([crypt]).Some?
    ensures Switches(rules, crypt + [NEWLINE], [])
  {
    var data := crypt + [NEWLINE];
    NewlineUnique(data, |crypt|);
    assert data[..|crypt|] == crypt;
    assert StripReturns(crypt) == crypt && [] + [crypt] == [crypt];
  }

  lemma OneByteBehind(rules: Rules, lines: seq<seq<u8>>, x: u8, cipher: Option<Pack>)
    requires x != NEWLINE && 1 <= rules.lineBytes && Sound(cipher)
    ensures Parse(rules, [x], lines, cipher) == Parsed(Outcome(lines, Open), [x], cipher) && !Switches(rules, [x], lines)
  {
  }

  /** Reads in the clear, on a connection that has read nothing. */
  lemma ReadsInFull(rules: Rules, head: seq<u8>, tail: seq<u8>)
    ensures var p := Parse(rules, head, [], None);
            Read(rules, Fresh(None), head) == Reader(p.cipher, p.rest, p.outcome)
    ensures var p := Parse(rules, head + tail, [], None);
            Read(rules, Fresh(None), head + tail) == Reader(p.cipher, p.rest, p.outcome)
  {
    hide Parse;
    assert [] + head == head && [] + (head + tail) == head + tail;
  }

  lemma ReadOneByOne(rules: Rules, head: seq<u8>, tail: seq<u8>)
    ensures ReadAll(rules, Fresh(None), [head + tail]) == Read(rules, Fresh(None), head + tail)
    ensures ReadAll(rules, Fresh(None), [head, tail]) == Read(rules, Read(rules, Fresh(None), head), tail)
  {
    hide Read;
    assert [head + tail][..0] == [] && [head, tail][..1] == [head] && [head][..0] == [];
    assert ReadAll(rules, Fresh(None), [head]) == Read(rules, Fresh(None), head);
  }

  lemma NothingBehind(rules: Rules, lines: seq<seq<u8>>, cipher: Option<Pack>)
    requires Sound(cipher)
    ensures Parse(rules, [], lines, cipher) == Parsed(Outcome(lines, Open), [], cipher)
  {
  }

  // ---------------------------------------------------------------- the class

  /** One round of the loop over complete lines. */
  lemma ParseLine(rules: Rules, data: seq<u8>, lines: seq<seq<u8>>, cipher: Option<Pack>)
    requires Sound(cipher) && NewlineAt(data) < |data|
    ensures var i := NewlineAt(data);
            var rest, line := data[i + 1..], StripReturns(data[..i]);
            Parse(rules, data, lines, cipher)
            == (if i > rules.lineBytes then Parsed(Outcome(lines, TooLong), rest, cipher)
                else if line == [] then Parse(rules, rest, lines, cipher)
                else if rules.closes(lines + [line]) then
                  Parsed(Outcome(lines + [line], Closed), rest, Rekeyed(rules, lines + [line], cipher))
                else Parse(rules, rest, lines + [line], Rekeyed(rules, lines + [line], cipher)))
  {
    hide Rekeyed;
    var line := StripReturns(data[..NewlineAt(data)]);
    assert |lines + [line]| != |lines|;
  }

  lemma ParseEnd(rules: Rules, data: seq<u8>, lines: seq<seq<u8>>, cipher: Option<Pack>)
    requires Sound(cipher) && NewlineAt(data) == |data|
    ensures Parse(rules, data, lines, cipher)
            == Parsed(Outcome(lines, if |data| > rules.lineBytes then TooLong else Open), data, cipher)
  {
  }

  class LineReader {
    const rules: Rules
    var decryptor: PeerChatCipher?
    var buffer: seq<u8>
    var lines: seq<seq<u8>>
    var status: Status

    ghost predicate Valid()
      reads this, decryptor
    {
      decryptor != null ==> decryptor.Valid()
    }

    ghost function Cipher(): (r: Option<Pack>)
      requires Valid()
      reads this, decryptor
      ensures Sound(r)
    {
      if decryptor == null then None else Some(decryptor.Value())
    }

    ghost function Value(): (r: Reader)
      requires Valid()
      reads this, decryptor
      ensures Sound(r.cipher)
    {
      Reader(Cipher(), buffer, Outcome(lines, status))
    }

    constructor (rules: Rules)
      ensures Valid() && this.rules == rules && decryptor == null && Value() == Fresh(None)
    {
      this.rules := rules;
      decryptor := null;
      buffer, lines, status := [], [], Open;
    }

    /** The body of the read loop of `run`, for one chunk. */
    method Receive(chunk: seq<u8>)
      requires Valid()
      modifies this, decryptor
      ensures Valid() && (decryptor == old(decryptor) || fresh(decryptor))
      ensures Value() == Read(rules, old(Value()), chunk)
    {
      hide Transform, Rekeyed, Parse, NewlineAt, StripReturns;
      if !status.Open? {
        return;
      }
      var data := chunk;
      if decryptor != null {
        data := decryptor.TransformBytes(data);
      }
      buffer := buffer + data;
      ghost var whole, known, cipher := buffer, lines, Cipher();
      assert (cipher, data) == Decode(old(Value()).cipher, chunk);
      var i := NewlineAt(buffer);
      while i < |buffer|
        invariant Valid() && (decryptor == old(decryptor) || fresh(decryptor)) && status.Open?
        invariant i == NewlineAt(buffer)
        invariant Parse(rules, buffer, lines, Cipher()) == Parse(rules, whole, known, cipher)
        decreases |buffer|
      {
        ParseLine(rules, buffer, lines, Cipher());
        var raw := buffer[..i];
        buffer := buffer[i + 1..];
        if |raw| > rules.lineBytes {
          status := TooLong;
          return;
        }
        var line := StripReturns(raw);
        if line != [] {
          lines := lines + [line];
          Command();
          if status.Closed? {
            return;
          }
        }
        i := NewlineAt(buffer);
      }
      ParseEnd(rules, buffer, lines, Cipher());
      if |buffer| > rules.lineBytes {
        status := TooLong;
      }
    }

    /** What `command` does to the reader itself. */
    method Command()
      requires Valid() && status.Open?
      modifies this`decryptor, this`status
      ensures Valid() && (decryptor == old(decryptor) || fresh(decryptor))
      ensures Cipher() == Rekeyed(rules, lines, old(Cipher()))
      ensures status == if rules.closes(lines) then Closed else Open
    {
      var key := rules.installs(lines);
      if key.Some? {
        decryptor := new PeerChatCipher(key.value, rules.secret);
      }
      if rules.closes(lines) {
        status := Closed;
      }
    }
  }
}
