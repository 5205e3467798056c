/**
 * The two stream ciphers told apart from their definitions: bit by bit, card by card, draw by draw,
 * and by the place at which each byte of a key begins to matter.
 */
module CipherMeaning {
  import opened Wrappers
  import opened Bytes
  import X = EnctypeXs
  import P = PeerChatCiphers

  // -------------------------------------------------------------------- bits

  function BitOf(x: nat, i: nat): nat {
    x / Pow2(i) % 2
  }

  lemma HalfThen(x: nat, i: nat)
    requires 0 < i
    ensures BitOf(x, i) == BitOf(x / 2, i - 1)
  {
    var p := Pow2(i - 1);
    ModHalves(x, p);
    ModUnique(x, 2 * p, x / 2 / p, x % 2 + 2 * (x / 2 % p));
  }

  lemma {:induction false} XorBitsAt(n: nat, a: nat, b: nat, i: nat)
    ensures BitOf(XorBits(n, a, b), i) == if i < n && BitOf(a, i) != BitOf(b, i) then 1 else 0
  {
    hide BitOf;
    if n == 0 {
      ZeroBits(i);
    } else if i == 0 {
      LowBits(a, b, XorBits(n - 1, a / 2, b / 2));
    } else {
      HalfThen(a, i);
      HalfThen(b, i);
      HalfThen(XorBits(n, a, b), i);
      XorBitsAt(n - 1, a / 2, b / 2, i - 1);
    }
  }

  lemma ZeroBits(i: nat)
    ensures BitOf(0, i) == 0
  {
  }

  lemma LowBits(a: nat, b: nat, rest: nat)
    ensures BitOf((a + b) % 2 + 2 * rest, 0) == if BitOf(a, 0) != BitOf(b, 0) then 1 else 0
  {
  }

  /** An exclusive or has exactly the bits in which its two bytes differ. */
  lemma XorIs(a: u8, b: u8, i: nat)
    ensures BitOf(Xor(a, b), i) == if i < 8 && BitOf(a, i) != BitOf(b, i) then 1 else 0
  {
    hide BitOf;
    XorBitsAt(8, a, b, i);
  }

  lemma XorIsZero(a: u8, b: u8)
    ensures Xor(a, b) == 0 <==> a == b
    ensures Xor(a, 0) == a
  {
    hide Xor;
    XorCancels(a, b);
    XorCancelsRight(a, b);
    SelfXor(a);
    XorCancels(a, a);
  }

  lemma SelfXor(a: u8)
    ensures Xor(a, a) == 0
  {
    XorBitsSelf(8, a);
  }

  lemma {:induction false} XorBitsSelf(n: nat, a: nat)
    ensures XorBits(n, a, a) == 0
  {
    if n != 0 {
      XorBitsSelf(n - 1, a / 2);
    }
  }

  /** A byte changes under an exclusive or exactly if the other byte is not zero. */
  lemma XorChanges(a: u8, b: u8)
    ensures Xor(a, b) == a <==> b == 0
  {
    hide Xor;
    XorCancels(a, b);
    SelfXor(a);
    XorIsZero(a, a);
  }

  // ------------------------------------------------------ EnctypeX: the byte

  /**
   * A turn of the deck.  The card at `coded` goes to the place of the new `next`; where the four places
   * are different, the cards at `sum`, `plain` and `next` move up to `coded`, `sum` and `plain`.
   */
  lemma TurnMoves(d: X.Deck)
    requires d.Valid()
    ensures var t, next, sum := X.Turn(d), (d.next as int + 1) % 256, (d.sum as int + d.cards[d.next] as int) % 256;
            && t.next as int == next && t.sum as int == sum && t.plain == d.plain && t.coded == d.coded
            && t.third as int == (d.third as int + t.cards[d.cards[d.coded]] as int) % 256
            && t.cards[next] == d.cards[d.coded]
            && (forall i :: 0 <= i < 256 && i != next && i != sum && i != d.plain as int && i != d.coded as int ==>
                  t.cards[i] == d.cards[i])
            && (next != sum && next != d.plain as int && next != d.coded as int && sum != d.plain as int
                && sum != d.coded as int && d.plain != d.coded ==>
                  t.cards[d.coded] == d.cards[sum] && t.cards[sum] == d.cards[d.plain] && t.cards[d.plain] == d.cards[next])
  {
  }

  /** What a byte is encrypted with, from the deck once it has turned. */
  lemma PadIs(t: X.Deck)
    requires t.Valid()
    ensures var k := (t.cards[t.plain] as int + t.cards[t.sum] as int + t.cards[t.coded] as int) % 256;
            var m := (t.cards[t.third] as int + t.cards[t.next] as int) % 256;
            X.Pad(t) == Xor(t.cards[t.cards[k]], t.cards[m])
  {
  }

  /** The stream, byte by byte: the deck turns, its pad is xored on, and both bytes are noted. */
  lemma StreamIs(d: X.Deck, value: u8)
    requires d.Valid()
    ensures var t := X.Turn(d);
            var out := Xor(X.Pad(t), value);
            && X.Encrypt(d, [value]) == (t.(plain := value, coded := out), [out])
            && X.Decrypt(d, [value]) == (t.(plain := out, coded := value), [out])
  {
    hide X.Turn, X.Pad;
    assert [value][1..] == [];
    var out := X.Encode(d, value);
    assert X.Encrypt(X.Next(d, value, out), []).1 == [] && [out] + [] == [out];
    assert X.Decrypt(X.Next(d, out, value), []).1 == [];
  }

  // ------------------------------------------------------ EnctypeX: the key

  /** Which of the eight bytes challenge byte `n` is mixed into. */
  function Target(key: seq<u8>, n: nat): (t: nat)
    requires key != []
    ensures t < 8
  {
    key[n % |key|] as int * n % 8
  }

  /** Mixing in one more challenge byte changes one of the eight bytes, the one that the key selects. */
  lemma MixingIs(key: seq<u8>, validate: seq<u8>, challenge: seq<u8>, x: u8)
    requires key != [] && |validate| == 8
    ensures X.Mixed(key, validate, []) == validate
    ensures var m, n, t := X.Mixed(key, validate, challenge), |challenge|, Target(key, |challenge|);
            X.Mixed(key, validate, challenge + [x]) == m[t := Xor(m[t], Xor(m[n % 8], x))]
  {
    hide Xor;
    assert (challenge + [x])[..|challenge|] == challenge;
  }

  /** Only the bytes of the key up to the last of the challenge count. */
  lemma {:induction false} KeyPrefixCounts(one: seq<u8>, two: seq<u8>, validate: seq<u8>, challenge: seq<u8>)
    requires one != [] && |one| == |two| && |validate| == 8
    requires forall i :: 0 <= i < |one| && i < |challenge| ==> one[i] == two[i]
    ensures X.Mixed(one, validate, challenge) == X.Mixed(two, validate, challenge)
  {
    hide Xor, X.Mixed, Target;
    if challenge == [] {
      MixingIs(one, validate, [], 0);
      MixingIs(two, validate, [], 0);
    } else {
      var n := |challenge| - 1;
      KeyPrefixCounts(one, two, validate, challenge[..n]);
      assert challenge[..n] + [challenge[n]] == challenge;
      MixingIs(one, validate, challenge[..n], challenge[n]);
      MixingIs(two, validate, challenge[..n], challenge[n]);
      SameTarget(one, two, n);
    }
  }

  lemma SameTarget(one: seq<u8>, two: seq<u8>, n: nat)
    requires one != [] && |one| == |two| && forall i :: 0 <= i < |one| && i <= n ==> one[i] == two[i]
    ensures Target(one, n) == Target(two, n)
  {
    var i := n % |one|;
    if n < i {
      ModUnique(n, |one|, 0, n);
    }
    assert one[i] == two[i];
  }

  lemma TwoUpdates(m: seq<u8>, s: nat, t: nat, v: u8)
    requires s < |m| && t < |m|
    ensures m[s := Xor(m[s], v)] != m[t := Xor(m[t], v)] <==> s != t && v != 0
  {
    hide Xor;
    XorChanges(m[s], v);
    XorChanges(m[t], v);
    var a, b := m[s := Xor(m[s], v)], m[t := Xor(m[t], v)];
    if s != t {
      assert a[s] == Xor(m[s], v) && b[s] == m[s];
      if v == 0 {
        assert a == m && b == m;
      }
    }
  }

  /**
   * When a byte of the key first counts, it changes the mixed identity exactly if it selects another
   * place and the byte mixed in is not the one already there.
   */
  lemma KeyCountsIff(one: seq<u8>, two: seq<u8>, validate: seq<u8>, challenge: seq<u8>, x: u8)
    requires one != [] && |one| == |two| && |validate| == 8 && |challenge| < |one|
    requires forall i :: 0 <= i < |challenge| ==> one[i] == two[i]
    ensures var n := |challenge|;
            X.Mixed(one, validate, challenge + [x]) != X.Mixed(two, validate, challenge + [x])
            <==> one[n] as int * n % 8 != two[n] as int * n % 8 && X.Mixed(one, validate, challenge)[n % 8] != x
  {
    hide Xor, X.Mixed, Target;
    MixingIs(one, validate, challenge, x);
    MixingIs(two, validate, challenge, x);
    KeyPrefixCounts(one, two, validate, challenge);
    var m, n := X.Mixed(one, validate, challenge), |challenge|;
    XorIsZero(m[n % 8], x);
    TwoUpdates(m, Target(one, n), Target(two, n), Xor(m[n % 8], x));
    TargetIs(one, n);
    TargetIs(two, n);
  }

  lemma TargetIs(key: seq<u8>, n: nat)
    requires n < |key|
    ensures Target(key, n) == key[n] as int * n % 8
  {
    ModUnique(n, |key|, 0, n);
  }

  // ---------------------------------------------------- EnctypeX: the shuffle

  /** The `n`-th draw from a list: add the card under the last word to the next identity byte, round and round. */
  function NthDraw(state: seq<u8>, identity: seq<u8>, draw: X.Draw, n: nat): (r: X.Draw)
    requires 256 <= |state| && draw.second < |identity|
    ensures r.second < |identity|
  {
    if n == 0 then draw
    else
      var d := NthDraw(state, identity, draw, n - 1);
      var word := (state[d.first % 256] as int + identity[d.second] as int) % 0x1_0000_0000;
      X.Draw(if d.second + 1 == |identity| then word + |identity| else word, (d.second + 1) % |identity|)
  }

  lemma DrawsOneByOne(state: seq<u8>, identity: seq<u8>, draw: X.Draw)
    requires 256 <= |state| && draw.second < |identity|
    ensures X.DrawNext(state, identity, draw) == NthDraw(state, identity, draw, 1)
  {
    assert NthDraw(state, identity, draw, 0) == draw;
    if draw.second + 1 < |identity| {
      ModUnique(draw.second + 1, |identity|, 0, draw.second + 1);
    } else {
      ModUnique(|identity|, |identity|, 1, 0);
    }
  }

  lemma DrawsOn(state: seq<u8>, identity: seq<u8>, draw: X.Draw, n: nat)
    requires 256 <= |state| && draw.second < |identity|
    ensures NthDraw(state, identity, draw, n + 1) == X.DrawNext(state, identity, NthDraw(state, identity, draw, n))
  {
    hide X.DrawNext;
    DrawsOneByOne(state, identity, NthDraw(state, identity, draw, n));
    assert NthDraw(state, identity, NthDraw(state, identity, draw, n), 0) == NthDraw(state, identity, draw, n);
  }

  lemma {:induction false} MaskIsPower(count: nat, k: nat) returns (n: nat)
    requires Pow2(k) - 1 < count || k == 1
    ensures k <= n && X.MaskFor(count, Pow2(k) - 1) == Pow2(n) - 1 && count < Pow2(n)
    ensures n == k || Pow2(n - 1) <= count
    decreases count - Pow2(k)
  {
    n := k;
    if Pow2(k) - 1 < count {
      if Pow2(k + 1) - 1 < count {
        n := MaskIsPower(count, k + 1);
      } else {
        n := k + 1;
      }
    }
  }

  lemma {:induction false} AndPower(x: nat, n: nat)
    ensures And(x, Pow2(n) - 1) == x % Pow2(n)
    decreases n
  {
    if n == 0 {
      assert And(x, 0) == 0;
    } else if x == 0 {
      ModUnique(0, Pow2(n), 0, 0);
    } else {
      AndPower(x / 2, n - 1);
      ModHalves(x, Pow2(n - 1));
      assert (Pow2(n) - 1) / 2 == Pow2(n - 1) - 1 && (Pow2(n) - 1) % 2 == 1;
    }
  }

  /** Of the first eleven draws, the first that fits; else the twelfth, reduced. */
  ghost predicate Selects(state: seq<u8>, count: nat, identity: seq<u8>, draw: X.Draw, bits: nat, n: nat)
    requires 256 <= |state| && draw.second < |identity|
  {
    && 1 <= n <= 12
    && (forall k :: 1 <= k < n ==> count < NthDraw(state, identity, draw, k).first % Pow2(bits))
    && (n < 12 ==> NthDraw(state, identity, draw, n).first % Pow2(bits) <= count)
  }

  lemma {:induction false} SelectionIs(state: seq<u8>, count: nat, identity: seq<u8>, draw: X.Draw, bits: nat, tries: nat)
    returns (n: nat)
    requires 256 <= |state| && draw.second < |identity| && 0 < count && tries <= 11
    requires X.MaskFor(count, 1) == Pow2(bits) - 1
    requires forall k :: 1 <= k <= tries ==> count < NthDraw(state, identity, draw, k).first % Pow2(bits)
    ensures Selects(state, count, identity, draw, bits, n)
    ensures var last := NthDraw(state, identity, draw, n);
            X.Selection(state, count, identity, NthDraw(state, identity, draw, tries), tries)
            == (if n == 12 then last.first % Pow2(bits) % count else last.first % Pow2(bits), last)
    decreases 11 - tries
  {
    hide X.DrawNext, X.MaskFor, NthDraw, And;
    DrawsOn(state, identity, draw, tries);
    var next := NthDraw(state, identity, draw, tries + 1);
    AndPower(next.first, bits);
    n := tries + 1;
    if tries < 11 && count < next.first % Pow2(bits) {
      n := SelectionIs(state, count, identity, draw, bits, tries + 1);
    }
  }

  /**
   * A card is selected among the first `count` + 1 by the low bits of a draw, as many as `count` needs:
   * the first of eleven draws that falls in range, or the twelfth reduced modulo `count`.
   */
  lemma SelectIs(state: seq<u8>, count: nat, identity: seq<u8>, draw: X.Draw) returns (bits: nat, n: nat)
    requires 256 <= |state| && draw.second < |identity| && 0 < count
    ensures 1 <= bits && Pow2(bits - 1) <= count < Pow2(bits)
    ensures Selects(state, count, identity, draw, bits, n)
    ensures var last := NthDraw(state, identity, draw, n);
            X.Select(state, count, identity, draw)
            == (if n == 12 then last.first % Pow2(bits) % count else last.first % Pow2(bits), last)
  {
    hide X.MaskFor, X.Selection, Selects;
    bits := MaskIsPower(count, 1);
    n := SelectionIs(state, count, identity, draw, bits, 0);
  }

  /** The shuffle from the front: after `n` rounds the places above 255 - n have their cards. */
  function Stage(identity: seq<u8>, n: nat): (r: (seq<u8>, X.Draw))
    requires identity != [] && n <= 256
    ensures |r.0| == 256 && r.1.second < |identity|
  {
    if n == 0 then (seq(256, i requires 0 <= i < 256 => i as u8), X.Draw(0, 0))
    else
      var (cards, draw) := Stage(identity, n - 1);
      var place := 256 - n;
      var (selected, next) := X.Select(cards, place, identity, draw);
      (cards[place := cards[selected]][selected := cards[place]], next)
  }

  lemma {:induction false} ShuffleFromStage(identity: seq<u8>, n: nat)
    requires identity != [] && n <= 255
    ensures var s := Stage(identity, n);
            X.Shuffle(s.0, 255 - n, identity, s.1) == Stage(identity, 256)
    decreases 255 - n
  {
    hide X.Select;
    if n < 255 {
      ShuffleFromStage(identity, n + 1);
    }
  }

  /**
   * A fresh deck: 256 rounds from the ordered deck, from the last place down to the first, each swapping
   * its place with a selected one; and its registers from the cards 1, 3, 5, 7 and that of the last draw.
   */
  lemma FreshDeckIs(identity: seq<u8>)
    requires identity != []
    ensures var s, d := Stage(identity, 256), X.FreshDeck(identity);
            && d.cards == s.0 && d.next == s.0[1] && d.sum == s.0[3] && d.third == s.0[5] && d.plain == s.0[7]
            && d.coded == s.0[s.1.first % 256]
  {
    hide X.Shuffle, Stage;
    StartStage(identity);
    ShuffleFromStage(identity, 0);
  }

  lemma StartStage(identity: seq<u8>)
    requires identity != []
    ensures Stage(identity, 0) == (X.Identity(), X.Draw(0, 0))
  {
  }

  // --------------------------------------------------------------- PeerChat

  /**
   * A turn of the pack: `first` moves on by one, `second` by the card under it, and the two cards swap.
   * The pad is the card at the sum of the two.
   */
  lemma PackTurnIs(p: P.Pack)
    requires p.Valid()
    ensures var t, i := P.Turn(p), (p.first as int + 1) % 256;
            var j := (p.second as int + p.cards[i] as int) % 256;
            && t.first as int == i && t.second as int == j
            && t.cards[i] == p.cards[j] && t.cards[j] == p.cards[i]
            && (forall k :: 0 <= k < 256 && k != i && k != j ==> t.cards[k] == p.cards[k])
            && P.Pad(p) == t.cards[(t.cards[i] as int + t.cards[j] as int) % 256]
  {
  }

  /** The key stream does not depend on the data: each byte is xored with the pad of the pack so far. */
  lemma {:induction false} TransformIs(p: P.Pack, data: seq<u8>, v: u8)
    requires p.Valid()
    ensures P.Transform(p, []) == (p, [])
    ensures var r := P.Transform(p, data);
            P.Transform(p, data + [v]) == (P.Turn(r.0), r.1 + [Xor(v, P.Pad(r.0))])
  {
    hide P.Turn, P.Pad, Xor;
    P.TransformConcat(p, data, [v]);
    P.TransformOne(P.Transform(p, data).0, v);
  }

  /** Key set-up: from the cards in falling order, place by place, a swap with the running sum of key and cards. */
  lemma KeyedIs(mixed: seq<u8>, n: nat)
    requires |mixed| == 16 && n < 256
    ensures P.Keyed(mixed, 0).1 == 0 && forall i :: 0 <= i < 256 ==> P.Keyed(mixed, 0).0[i] as int == 255 - i
    ensures var before, after := P.Keyed(mixed, n), P.Keyed(mixed, n + 1);
            var j := (before.1 as int + mixed[n % 16] as int + before.0[n] as int) % 256;
            && after.1 as int == j && after.0[n] == before.0[j] && after.0[j] == before.0[n]
            && forall k :: 0 <= k < 256 && k != n && k != j ==> after.0[k] == before.0[k]
  {
    hide P.Descending, P.Add;
    DescendingIs();
    var before := P.Keyed(mixed, n);
    SumIs(before.1, mixed[n % 16], before.0[n]);
  }

  lemma SumIs(a: u8, b: u8, d: u8)
    ensures P.Add(P.Add(a, b), d) as int == (a as int + b as int + d as int) % 256
  {
    var s := a as int + b as int;
    ModUnique(s + d as int, 256, (s + d as int) / 256, (s % 256 + d as int) % 256);
  }

  lemma DescendingIs()
    ensures forall i :: 0 <= i < 256 ==> P.Descending()[i] as int == 255 - i
  {
  }

  /** A fresh pack has met all 256 places, under the challenge xored with the key repeated, and no byte. */
  lemma FreshPackIs(challenge: seq<u8>, key: seq<u8>, mixed: seq<u8>)
    requires |challenge| == 16 && |key| == 6 && |mixed| == 16
    requires forall i :: 0 <= i < 16 ==> mixed[i] == Xor(challenge[i], key[i % 6])
    ensures P.FreshPack(challenge, key) == P.Pack(P.Keyed(mixed, 256).0, 0, 0)
  {
    hide Xor, P.Keyed;
    assert mixed == P.Mixed(challenge, key);
  }
}
