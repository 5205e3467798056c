/** The EnctypeX stream cipher of crypto.py: key set-up, encryption and decryption. */
module EnctypeXs {
  import opened Wrappers
  import opened Collections
  import opened Bytes

  /**
   * What the 261-entry state list means: a deck of 256 cards and five registers.
   * Registers 259 and 260 hold the last plain and the last encrypted byte.
   */
  datatype Deck = Deck(cards: seq<u8>, next: u8, sum: u8, third: u8, plain: u8, coded: u8) {
    ghost predicate Valid() {
      |cards| == 256
    }
  }

  function Add(a: int, b: int): u8 {
    (a + b) % 0x100
  }

  function Add3(a: int, b: int, c: int): u8 {
    (a + b + c) % 0x100
  }

  function Swap(cards: seq<u8>, i: nat, j: nat): (r: seq<u8>)
    requires i < |cards| && j < |cards|
    ensures |r| == |cards|
  {
    cards[i := cards[j]][j := cards[i]]
  }

  /**
   * One turn of the deck: `next` and `sum` move on, then the card under the last encrypted
   * byte travels by three swaps to the place of `next`.  The data byte plays no part.
   */
  function Turn(d: Deck): (r: Deck)
    requires d.Valid()
    ensures r.Valid()
  {
    var next := Add(d.next, 1);
    var sum := Add(d.sum, d.cards[d.next]);
    var cards := Swap(Swap(Swap(d.cards, d.coded, sum), sum, d.plain), d.plain, next);
    Deck(cards, next, sum, Add(d.third, cards[d.cards[d.coded]]), d.plain, d.coded)
  }

  /** The key byte a turned deck yields. */
  function Pad(d: Deck): u8
    requires d.Valid()
  {
    var k := Add3(d.cards[d.plain], d.cards[d.sum], d.cards[d.coded]);
    Xor(d.cards[d.cards[k]], d.cards[Add(d.cards[d.third], d.cards[d.next])])
  }

  function Encode(d: Deck, value: u8): u8
    requires d.Valid()
  {
    Xor(Pad(Turn(d)), value)
  }

  /** The deck after one byte, whichever way it went. */
  function Next(d: Deck, plain: u8, coded: u8): (r: Deck)
    requires d.Valid()
    ensures r.Valid()
  {
    Turn(d).(plain := plain, coded := coded)
  }

  function Encrypt(d: Deck, data: seq<u8>): (r: (Deck, seq<u8>))
    requires d.Valid()
    ensures r.0.Valid() && |r.1| == |data|
    decreases |data|
  {
    if data == [] then (d, [])
    else
      var coded := Encode(d, data[0]);
      var (e, rest) := Encrypt(Next(d, data[0], coded), data[1..]);
      (e, [coded] + rest)
  }

  function Decrypt(d: Deck, data: seq<u8>): (r: (Deck, seq<u8>))
    requires d.Valid()
    ensures r.0.Valid() && |r.1| == |data|
    decreases |data|
  {
    if data == [] then (d, [])
    else
      var plain := Encode(d, data[0]);
      var (e, rest) := Decrypt(Next(d, plain, data[0]), data[1..]);
      (e, [plain] + rest)
  }

  // ------------------------------------------------------ inverse and chunking

  /** From equal decks decryption undoes encryption, and the decks stay equal. */
  lemma {:induction false} DecryptInvertsEncrypt(d: Deck, data: seq<u8>)
    requires d.Valid()
    ensures Decrypt(d, Encrypt(d, data).1) == (Encrypt(d, data).0, data)
    decreases |data|
  {
    hide Turn, Pad;
    if data != [] {
      var coded := Encode(d, data[0]);
      var d' := Next(d, data[0], coded);
      DecryptInvertsEncrypt(d', data[1..]);
      assert Encrypt(d, data).1[1..] == Encrypt(d', data[1..]).1;
      XorCancels(Pad(Turn(d)), data[0]);
      assert [data[0]] + data[1..] == data;
    }
  }

  /** And encryption undoes decryption. */
  lemma {:induction false} EncryptInvertsDecrypt(d: Deck, data: seq<u8>)
    requires d.Valid()
    ensures Encrypt(d, Decrypt(d, data).1) == (Decrypt(d, data).0, data)
    decreases |data|
  {
    hide Turn, Pad;
    if data != [] {
      var plain := Encode(d, data[0]);
      var d' := Next(d, plain, data[0]);
      EncryptInvertsDecrypt(d', data[1..]);
      assert Decrypt(d, data).1[1..] == Decrypt(d', data[1..]).1;
      XorCancels(Pad(Turn(d)), data[0]);
      assert [data[0]] + data[1..] == data;
    }
  }

  lemma {:induction false} EncryptConcat(d: Deck, a: seq<u8>, b: seq<u8>)
    requires d.Valid()
    ensures var (e, first) := Encrypt(d, a);
            Encrypt(d, a + b) == (Encrypt(e, b).0, first + Encrypt(e, b).1)
    decreases |a|
  {
    hide Next, Encode;
    if a == [] {
      assert a + b == b;
      assert [] + Encrypt(d, b).1 == Encrypt(d, b).1;
    } else {
      var d' := Next(d, a[0], Encode(d, a[0]));
      EncryptConcat(d', a[1..], b);
      assert (a + b)[1..] == a[1..] + b;
      var (e, rest) := Encrypt(d', a[1..]);
      assert [Encode(d, a[0])] + (rest + Encrypt(e, b).1) == [Encode(d, a[0])] + rest + Encrypt(e, b).1;
    }
  }

  lemma {:induction false} DecryptConcat(d: Deck, a: seq<u8>, b: seq<u8>)
    requires d.Valid()
    ensures var (e, first) := Decrypt(d, a);
            Decrypt(d, a + b) == (Decrypt(e, b).0, first + Decrypt(e, b).1)
    decreases |a|
  {
    hide Next, Encode;
    if a == [] {
      assert a + b == b;
      assert [] + Decrypt(d, b).1 == Decrypt(d, b).1;
    } else {
      var d' := Next(d, Encode(d, a[0]), a[0]);
      DecryptConcat(d', a[1..], b);
      assert (a + b)[1..] == a[1..] + b;
      var (e, rest) := Decrypt(d', a[1..]);
      assert [Encode(d, a[0])] + (rest + Decrypt(e, b).1) == [Encode(d, a[0])] + rest + Decrypt(e, b).1;
    }
  }

  /** One `encrypt` call a frame, as the Server Browser pushes them. */
  function EncryptFrames(d: Deck, frames: seq<seq<u8>>): seq<seq<u8>>
    requires d.Valid()
    decreases |frames|
  {
    if frames == [] then []
    else
      var (e, out) := Encrypt(d, frames[0]);
      [out] + EncryptFrames(e, frames[1..])
  }

  /** One `decrypt` call a chunk. */
  function DecryptChunks(d: Deck, chunks: seq<seq<u8>>): seq<seq<u8>>
    requires d.Valid()
    decreases |chunks|
  {
    if chunks == [] then []
    else
      var (e, out) := Decrypt(d, chunks[0]);
      [out] + DecryptChunks(e, chunks[1..])
  }

  lemma {:induction false} EncryptFramesFlat(d: Deck, frames: seq<seq<u8>>)
    requires d.Valid()
    ensures Flatten(EncryptFrames(d, frames)) == Encrypt(d, Flatten(frames)).1
    decreases |frames|
  {
    if frames != [] {
      var (e, out) := Encrypt(d, frames[0]);
      EncryptFramesFlat(e, frames[1..]);
      EncryptConcat(d, frames[0], Flatten(frames[1..]));
    }
  }

  lemma {:induction false} DecryptChunksFlat(d: Deck, chunks: seq<seq<u8>>)
    requires d.Valid()
    ensures Flatten(DecryptChunks(d, chunks)) == Decrypt(d, Flatten(chunks)).1
    decreases |chunks|
  {
    if chunks != [] {
      var (e, out) := Decrypt(d, chunks[0]);
      DecryptChunksFlat(e, chunks[1..]);
      DecryptConcat(d, chunks[0], Flatten(chunks[1..]));
    }
  }

  /** Frames encrypted one by one and decrypted in any other chunking give the plaintext back. */
  lemma AnyChunkingDecrypts(d: Deck, frames: seq<seq<u8>>, chunks: seq<seq<u8>>)
    requires d.Valid()
    requires Flatten(chunks) == Flatten(EncryptFrames(d, frames))
    ensures Flatten(DecryptChunks(d, chunks)) == Flatten(frames)
  {
    EncryptFramesFlat(d, frames);
    DecryptChunksFlat(d, chunks);
    DecryptInvertsEncrypt(d, Flatten(frames));
  }

  // -------------------------------------------------------------- permutation

  function Identity(): (r: seq<u8>)
    ensures |r| == 256
  {
    seq(256, i requires 0 <= i < 256 => i as u8)
  }

  lemma TurnPermutes(d: Deck)
    requires d.Valid()
    ensures multiset(Turn(d).cards) == multiset(d.cards)
  {
    var next := Add(d.next, 1);
    var sum := Add(d.sum, d.cards[d.next]);
    SwapPermutes(d.cards, d.coded, sum);
    var once := Swap(d.cards, d.coded, sum);
    SwapPermutes(once, sum, d.plain);
    SwapPermutes(Swap(once, sum, d.plain), d.plain, next);
  }

  /** Every byte, in either direction, leaves the deck a permutation. */
  lemma {:induction false} StreamsKeepPermutation(d: Deck, data: seq<u8>)
    requires IsPermutation(d.cards, Identity())
    ensures IsPermutation(Encrypt(d, data).0.cards, Identity()) && IsPermutation(Decrypt(d, data).0.cards, Identity())
    decreases |data|
  {
    if data != [] {
      var byte := Encode(d, data[0]);
      TurnPermutes(d);
      StreamsKeepPermutation(Next(d, data[0], byte), data[1..]);
      StreamsKeepPermutation(Next(d, byte, data[0]), data[1..]);
    }
  }

  /** A permutation deals every card exactly once. */
  lemma PermutationHasEveryCard(cards: seq<u8>, card: u8)
    requires IsPermutation(cards, Identity())
    ensures card in cards && multiset(cards)[card] == 1
  {
    var deck := Identity();
    assert deck[card] == card;
    assert card in multiset(deck);
    assert card in multiset(cards);
    assert deck == deck[..card] + [card] + deck[card + 1..];
    assert card !in deck[..card] && card !in deck[card + 1..];
    assert multiset(deck) == multiset(deck[..card]) + multiset([card]) + multiset(deck[card + 1..]);
  }

  // ---------------------------------------------------------------- the class

  ghost function Meaning(state: seq<u8>): (d: Deck)
    requires |state| == 261
    ensures d.Valid()
  {
    Deck(state[..256], state[256], state[257], state[258], state[259], state[260])
  }

  // ------------------------------------------------------------- key set-up

  /** Where the draws stand: the running word and the place in the identity. */
  datatype Draw = Draw(first: nat, second: nat)

  /** The least 2^k - 1 that is at least `count`, starting from `mask`. */
  function MaskFor(count: nat, mask: nat): (r: nat)
    ensures count <= r
    decreases count - mask
  {
    if mask < count then MaskFor(count, 2 * mask + 1) else mask
  }

  /** One draw from the list: mix in the next identity byte, wrapping round its end. */
  function DrawNext(state: seq<u8>, identity: seq<u8>, draw: Draw): (r: Draw)
    requires 256 <= |state| && draw.second < |identity|
    ensures r.second < |identity|
  {
    var word := (state[draw.first % 0x100] as int + identity[draw.second] as int) % 0x1_0000_0000;
    if draw.second + 1 == |identity| then Draw(word + |identity|, 0) else Draw(word, draw.second + 1)
  }

  /** What `_select` returns once `tries` draws have failed: it never needs a thirteenth. */
  function Selection(state: seq<u8>, count: nat, identity: seq<u8>, draw: Draw, tries: nat): (r: (nat, Draw))
    requires 256 <= |state| && draw.second < |identity| && 0 < count && tries <= 11
    ensures r.0 <= count && r.1.second < |identity|
    decreases 11 - tries
  {
    var next := DrawNext(state, identity, draw);
    var masked := And(next.first, MaskFor(count, 1));
    var selected := if tries == 11 then masked % count else masked;
    if selected <= count then (selected, next)
    else Selection(state, count, identity, next, tries + 1)
  }

  function Select(state: seq<u8>, count: nat, identity: seq<u8>, draw: Draw): (r: (nat, Draw))
    requires 256 <= |state| && draw.second < |identity|
    ensures r.0 <= count && r.1.second < |identity|
  {
    if count == 0 then (0, draw) else Selection(state, count, identity, draw, 0)
  }

  /** The cards after the positions from `count` down to zero have been swapped with a selected one. */
  function Shuffle(cards: seq<u8>, count: nat, identity: seq<u8>, draw: Draw): (r: (seq<u8>, Draw))
    requires |cards| == 256 && count < 256 && draw.second < |identity|
    ensures |r.0| == 256
    decreases count
  {
    var (selected, next) := Select(cards, count, identity, draw);
    var swapped := Swap(cards, count, selected);
    if count == 0 then (swapped, next) else Shuffle(swapped, count - 1, identity, next)
  }

  /** A shuffled deck, its registers read off fixed places and the last draw. */
  function FreshDeck(identity: seq<u8>): (d: Deck)
    requires identity != []
    ensures d.Valid()
  {
    var (cards, draw) := Shuffle(Identity(), 255, identity, Draw(0, 0));
    Deck(cards, cards[1], cards[3], cards[5], cards[7], cards[draw.first % 0x100])
  }

  lemma {:induction false} ShufflePermutes(cards: seq<u8>, count: nat, identity: seq<u8>, draw: Draw)
    requires |cards| == 256 && count < 256 && draw.second < |identity|
    ensures multiset(Shuffle(cards, count, identity, draw).0) == multiset(cards)
    decreases count
  {
    hide Select;
    var (selected, next) := Select(cards, count, identity, draw);
    SwapPermutes(cards, count, selected);
    if count != 0 {
      ShufflePermutes(Swap(cards, count, selected), count - 1, identity, next);
    }
  }

  lemma FreshDeckIsPermutation(identity: seq<u8>)
    requires identity != []
    ensures IsPermutation(FreshDeck(identity).cards, Identity())
  {
    ShufflePermutes(Identity(), 255, identity, Draw(0, 0));
  }

  /** Whatever was sent or received since the key was set up, the deck is a permutation. */
  lemma DeckIsAlwaysPermutation(identity: seq<u8>, data: seq<u8>)
    requires identity != []
    ensures IsPermutation(Encrypt(FreshDeck(identity), data).0.cards, Identity())
    ensures IsPermutation(Decrypt(FreshDeck(identity), data).0.cards, Identity())
    ensures forall card: u8 :: multiset(Encrypt(FreshDeck(identity), data).0.cards)[card] == 1
    ensures forall card: u8 :: multiset(Decrypt(FreshDeck(identity), data).0.cards)[card] == 1
  {
    hide Encrypt, Decrypt, FreshDeck, IsPermutation;
    FreshDeckIsPermutation(identity);
    StreamsKeepPermutation(FreshDeck(identity), data);
    forall card: u8
      ensures multiset(Encrypt(FreshDeck(identity), data).0.cards)[card] == 1
      ensures multiset(Decrypt(FreshDeck(identity), data).0.cards)[card] == 1
    {
      PermutationHasEveryCard(Encrypt(FreshDeck(identity), data).0.cards, card);
      PermutationHasEveryCard(Decrypt(FreshDeck(identity), data).0.cards, card);
    }
  }

  /** The identity: the validation challenge mixed with the server challenge under the key. */
  function Mixed(key: seq<u8>, validate: seq<u8>, challenge: seq<u8>): (r: seq<u8>)
    requires key != [] && |validate| == 8
    ensures |r| == 8
  {
    if challenge == [] then validate
    else
      var index := |challenge| - 1;
      var mixed := Mixed(key, validate, challenge[..index]);
      var target := (key[index % |key|] as int * index) % 8;
      mixed[target := Xor(mixed[target], Xor(mixed[index % 8], challenge[index]))]
  }

  lemma SwapInList(s: seq<u8>, i: nat, j: nat)
    requires |s| == 261 && i < 256 && j < 256
    ensures s[i := s[j]][j := s[i]][..256] == Swap(s[..256], i, j)
  {
  }

  method MaskAbove(count: nat) returns (mask: nat)
    ensures mask == MaskFor(count, 1)
  {
    mask := 1;
    while mask < count
      invariant MaskFor(count, mask) == MaskFor(count, 1)
    {
      mask := 2 * mask + 1;
    }
  }

  /** The source's statements for one draw. */
  lemma NextDraw(state: seq<u8>, identity: seq<u8>, draw: Draw, next: Draw)
    requires 256 <= |state| && draw.second < |identity|
    requires var first := (state[draw.first % 0x100] as int + identity[draw.second] as int) % 0x1_0000_0000;
             next == if draw.second + 1 >= |identity| then Draw(first + |identity|, 0) else Draw(first, draw.second + 1)
    ensures next == DrawNext(state, identity, draw)
  {
  }

  method SelectCard(state: seq<u8>, count: nat, identity: seq<u8>, first0: nat, second0: nat)
    returns (selected: nat, first: nat, second: nat)
    requires 256 <= |state| && second0 < |identity|
    ensures (selected, Draw(first, second)) == Select(state, count, identity, Draw(first0, second0))
    ensures selected <= count && second < |identity|
  {
    hide MaskFor, And, DrawNext;
    first, second := first0, second0;
    if count == 0 {
      return 0, first, second;
    }
    var mask := MaskAbove(count);
    var attempts := 0;
    while true
      invariant second < |identity| && attempts <= 11
      invariant Selection(state, count, identity, Draw(first, second), attempts)
                == Selection(state, count, identity, Draw(first0, second0), 0)
      decreases 12 - attempts
    {
      ghost var draw := Draw(first, second);
      first := (state[first % 0x100] as int + identity[second] as int) % 0x1_0000_0000;
      second := second + 1;
      if second >= |identity| {
        second := 0;
        first := first + |identity|;
      }
      NextDraw(state, identity, draw, Draw(first, second));
      selected := And(first, mask);
      attempts := attempts + 1;
      if attempts > 11 {
        selected := selected % count;
      }
      if selected <= count {
        return;
      }
    }
  }

  class EnctypeX {
    var state: seq<u8>

    ghost predicate Valid()
      reads this
    {
      |state| == 261
    }

    ghost function Value(): (d: Deck)
      requires Valid()
      reads this
      ensures d.Valid()
    {
      Meaning(state)
    }

    /** `_initialize`. */
    constructor (identity: seq<u8>)
      requires identity != []
      ensures Valid() && Value() == FreshDeck(identity)
    {
      hide Identity, Select, Swap;
      var s: seq<u8> := Identity() + [0, 0, 0, 0, 0];
      var first: nat, second: nat := 0, 0;
      assert s[..256] == Identity();
      var count: int := 255;
      while 0 <= count
        invariant -1 <= count <= 255 && |s| == 261 && second < |identity|
        invariant Shuffle(Identity(), 255, identity, Draw(0, 0))
                  == if count < 0 then (s[..256], Draw(first, second))
                     else Shuffle(s[..256], count, identity, Draw(first, second))
      {
        var selected;
        selected, first, second := SelectCard(s[..256], count, identity, first, second);
        var t := s[count := s[selected]][selected := s[count]];
        SwapInList(s, count, selected);
        s := t;
        count := count - 1;
      }
      ghost var cards := s[..256];
      s := s[256 := s[1]];
      s := s[257 := s[3]];
      s := s[258 := s[5]];
      s := s[259 := s[7]];
      s := s[260 := s[first % 0x100]];
      assert s[..256] == cards;
      state := s;
    }

    /** The source's constructor; the failures are its ValueErrors. */
    static method Create(key: seq<u8>, validate: seq<u8>, challenge: seq<u8>) returns (r: Result<EnctypeX>)
      ensures r.Failure? <==> |validate| != 8 || key == []
      ensures r.Success? ==>
                && fresh(r.value) && r.value.Valid()
                && r.value.Value() == FreshDeck(Mixed(key, validate, challenge))
    {
      if |validate| != 8 {
        return Failure("Server Browser validation challenge must be 8 bytes");
      }
      if key == [] {
        return Failure("secret cannot be empty");
      }
      var mixed := validate;
      for index := 0 to |challenge|
        invariant mixed == Mixed(key, validate, challenge[..index])
      {
        var target := (key[index % |key|] as int * index) % 8;
        assert challenge[..index + 1][..index] == challenge[..index];
        mixed := mixed[target := Xor(mixed[target], Xor(mixed[index % 8], challenge[index]))];
      }
      assert challenge[..|challenge|] == challenge;
      var cipher := new EnctypeX(mixed);
      r := Success(cipher);
    }

    /** The part of the byte loop that `encrypt` and `decrypt` have in common, up to the key byte. */
    method Advance() returns (pad: u8)
      requires Valid()
      modifies this
      ensures Valid() && Value() == Turn(old(Value())) && pad == Pad(Value())
    {
      hide Turn, Pad;
      var first := state[256];
      var second := state[257];
      var card := state[first];
      state := state[256 := Add(first, 1)];
      state := state[257 := Add(second, card)];
      first := state[260];
      second := state[state[257]];
      card := state[first];
      state := state[first := second];
      first := state[259];
      second := state[257];
      first := state[first];
      state := state[second := first];
      first := state[state[256]];
      second := state[259];
      state := state[second := first];
      state := state[state[256] := card];
      ghost var shuffled := state;
      second := state[258];
      first := state[card];
      card := state[259];
      second := Add(second, first);
      state := state[258 := second];
      KeyedState(old(state), shuffled, state);
      first := state[second];
      card := Add3(state[card], state[state[257]], state[state[260]]);
      second := state[card];
      card := state[state[256]];
      first := Add(first, card);
      card := state[second];
      second := state[first];
      pad := Xor(card, second);
    }

    method EncryptBytes(data: seq<u8>) returns (output: seq<u8>)
      requires Valid()
      modifies this
      ensures Valid() && (Value(), output) == Encrypt(old(Value()), data)
    {
      hide Turn, Pad;
      output := data;
      assert data[0..] == data && output[..0] == [];
      assert forall rest: seq<u8> :: [] + rest == rest;
      for index := 0 to |data|
        invariant Valid() && |output| == |data|
        invariant output[index..] == data[index..]
        invariant var (e, rest) := Encrypt(Value(), data[index..]);
                  Encrypt(old(Value()), data) == (e, output[..index] + rest)
      {
        ghost var (d, was, rest) := (Value(), output, data[index..]);
        var value := output[index];
        var pad := Advance();
        var encrypted := Xor(pad, value);
        state := state[260 := encrypted];
        state := state[259 := value];
        output := output[index := encrypted];
        assert Value() == Next(d, value, encrypted);
        assert rest[0] == value && rest[1..] == data[index + 1..];
        assert output[..index + 1] == was[..index] + [encrypted];
        ghost var tail := Encrypt(Value(), data[index + 1..]).1;
        assert was[..index] + ([encrypted] + tail) == output[..index + 1] + tail;
      }
      assert output[..|data|] + [] == output;
    }

    method DecryptBytes(data: seq<u8>) returns (output: seq<u8>)
      requires Valid()
      modifies this
      ensures Valid() && (Value(), output) == Decrypt(old(Value()), data)
    {
      hide Turn, Pad;
      output := data;
      assert data[0..] == data && output[..0] == [];
      assert forall rest: seq<u8> :: [] + rest == rest;
      for index := 0 to |data|
        invariant Valid() && |output| == |data|
        invariant output[index..] == data[index..]
        invariant var (e, rest) := Decrypt(Value(), data[index..]);
                  Decrypt(old(Value()), data) == (e, output[..index] + rest)
      {
        ghost var (d, was, rest) := (Value(), output, data[index..]);
        var value := output[index];
        var pad := Advance();
        var plain := Xor(pad, value);
        state := state[260 := value];
        state := state[259 := plain];
        output := output[index := plain];
        assert Value() == Next(d, plain, value);
        assert rest[0] == value && rest[1..] == data[index + 1..];
        assert output[..index + 1] == was[..index] + [plain];
        ghost var tail := Decrypt(Value(), data[index + 1..]).1;
        assert was[..index] + ([plain] + tail) == output[..index + 1] + tail;
      }
      assert output[..|data|] + [] == output;
    }
  }

  /** The source's in-place rotation of four cards, on the raw list. */
  ghost predicate Shuffled(s: seq<u8>, t: seq<u8>)
    requires |s| == 261 && |t| == 261
  {
    var (next, sum) := (Add(s[256], 1), Add(s[257], s[s[256]]));
    var (coded, plain) := (s[260], s[259]);
    var one := s[256 := next][257 := sum];
    var two := one[coded := one[sum]];
    var three := two[sum := two[plain]];
    var four := three[plain := three[next]];
    t == four[next := s[coded]]
  }

  /** It is the three swaps of `Turn`, even where some of the four places coincide. */
  lemma ShuffleIsTurn(s: seq<u8>, t: seq<u8>)
    requires |s| == 261 && |t| == 261 && Shuffled(s, t)
    ensures var d := Turn(Meaning(s));
            && t[..256] == d.cards
            && t[256] == d.next && t[257] == d.sum && t[258] == s[258]
            && t[259] == s[259] && t[260] == s[260]
  {
    var (next, sum) := (Add(s[256], 1), Add(s[257], s[s[256]]));
    var (coded, plain) := (s[260], s[259]);
    var one := s[256 := next][257 := sum];
    var cards := s[..256];
    assert one[..256] == cards;
    var two := one[coded := one[sum]];
    assert two[..256] == cards[coded := cards[sum]];
    var first := Swap(cards, coded, sum);
    assert two[..256][sum := cards[coded]] == first;
    var three := two[sum := two[plain]];
    var second := Swap(first, sum, plain);
    assert three[..256][plain := cards[coded]] == second;
    var four := three[plain := three[next]];
    var third := Swap(second, plain, next);
    assert four[..256][next := cards[coded]] == third;
  }

  /** The list once its third register has moved on, and the key byte then read out of it. */
  lemma KeyedState(s: seq<u8>, shuffled: seq<u8>, t: seq<u8>)
    requires |s| == |shuffled| == 261 && Shuffled(s, shuffled)
    requires t == shuffled[258 := Add(shuffled[258], shuffled[s[s[260]]])]
    ensures Meaning(t) == Turn(Meaning(s))
    ensures var k := Add3(t[t[259]], t[t[257]], t[t[260]]);
            Xor(t[t[k]], t[Add(t[t[258]], t[t[256]])]) == Pad(Turn(Meaning(s)))
  {
    ShuffleIsTurn(s, shuffled);
    assert t[..256] == shuffled[..256];
  }
}
