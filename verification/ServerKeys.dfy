/**
 * The key dictionaries of the QR service: parsed from heartbeats, serialised by the Server Browser.
 * A dictionary is a sequence of pairs, in insertion order, as Python keeps it.
 */
module ServerKeys {
  import opened Wrappers
  import opened Bytes

  /** UTF-8, as `encode` and `decode(…, "replace")` give it. */
  datatype Codec = Codec(encode: string -> seq<u8>, decode: seq<u8> -> string) {
    /**
     * What is used of UTF-8: it loses no text, the byte 0 is exactly the character 0, a character
     * takes at least one byte, and the replacement of an invalid byte takes three.
     */
    ghost predicate Valid() {
      && encode("") == []
      && (forall s: string :: decode(encode(s)) == s)
      && (forall s: string :: 0 in encode(s) <==> '\0' in s)
      && (forall b: seq<u8> :: '\0' in decode(b) ==> 0 in b)
      && (forall b: seq<u8> :: |decode(b)| <= |b|)
      && (forall b: seq<u8> :: |encode(decode(b))| <= 3 * |b|)
    }
  }

  type Keys = seq<(string, string)>

  // ------------------------------------------------------------ dictionaries

  function Get(keys: Keys, k: string, default: string): string {
    if keys == [] then default else if keys[0].0 == k then keys[0].1 else Get(keys[1..], k, default)
  }

  /** keys[k] = v: a key keeps its first position. */
  function Put(keys: Keys, k: string, v: string): Keys {
    if keys == [] then [(k, v)]
    else if keys[0].0 == k then [(k, v)] + keys[1..]
    else [keys[0]] + Put(keys[1..], k, v)
  }

  /** The dictionary without its order: what Python's == compares. */
  function AsMap(keys: Keys): map<string, string> {
    if keys == [] then map[] else AsMap(keys[1..])[keys[0].0 := keys[0].1]
  }

  predicate Fresh(keys: Keys, k: string) {
    forall i :: 0 <= i < |keys| ==> keys[i].0 != k
  }

  predicate Plain(s: string) {
    '\0' !in s
  }

  /** Distinct, non-empty keys, and no character 0 anywhere. */
  predicate WellFormed(keys: Keys) {
    && (forall i, j :: 0 <= i < j < |keys| ==> keys[i].0 != keys[j].0)
    && (forall i :: 0 <= i < |keys| ==> keys[i].0 != "" && Plain(keys[i].0) && Plain(keys[i].1))
  }

  lemma {:induction false} GetIsLookup(keys: Keys, k: string, default: string)
    ensures Get(keys, k, default) == if k in AsMap(keys) then AsMap(keys)[k] else default
  {
    if keys != [] {
      GetIsLookup(keys[1..], k, default);
    }
  }

  lemma {:induction false} PutAppends(keys: Keys, k: string, v: string)
    requires Fresh(keys, k)
    ensures Put(keys, k, v) == keys + [(k, v)]
  {
    if keys != [] {
      PutAppends(keys[1..], k, v);
      assert keys == [keys[0]] + keys[1..];
    }
  }

  lemma {:induction false} PutPositions(keys: Keys, k: string, v: string)
    ensures var r := Put(keys, k, v);
            && |keys| <= |r| <= |keys| + 1
            && (forall i :: 0 <= i < |keys| ==> r[i].0 == keys[i].0 && (r[i] == keys[i] || r[i] == (k, v)))
            && (|r| > |keys| ==> r[|keys|] == (k, v) && Fresh(keys, k))
  {
    if keys != [] && keys[0].0 != k {
      PutPositions(keys[1..], k, v);
      var rest := Put(keys[1..], k, v);
      forall i | 0 < i < |keys|
        ensures Put(keys, k, v)[i] == rest[i - 1] && keys[i] == keys[1..][i - 1]
      {
      }
    }
  }

  /** Assignment keeps a dictionary well-formed. */
  lemma PutIsWellFormed(keys: Keys, k: string, v: string)
    requires WellFormed(keys) && k != "" && Plain(k) && Plain(v)
    ensures WellFormed(Put(keys, k, v))
  {
    PutPositions(keys, k, v);
  }

  // ----------------------------------------------------------------- parsing

  /** Where the first byte 0 stands. */
  function Cut(data: seq<u8>): (r: Option<nat>)
    ensures r.Some? ==> r.value < |data| && data[r.value] == 0 && 0 !in data[..r.value]
    ensures r.None? ==> 0 !in data
  {
    if data == [] then None
    else if data[0] == 0 then Some(0)
    else
      var r := Cut(data[1..]);
      if r.None? then None
      else
        assert data[..r.value + 1] == [data[0]] + data[1..][..r.value];
        Some(r.value + 1)
  }

  /** One round of the key parser: the end, an unterminated string, or a pair and the bytes it took. */
  datatype Round = End | Unterminated | Pair(key: string, value: string, used: nat)

  function ParseRound(c: Codec, data: seq<u8>): (r: Round)
    ensures r.Pair? ==> 0 < r.used <= |data| && r.key != ""
  {
    var i := Cut(data);
    if i.None? then Unterminated
    else if c.decode(data[..i.value]) == "" then End
    else
      var rest := data[i.value + 1..];
      var j := Cut(rest);
      if j.None? then Unterminated
      else Pair(c.decode(data[..i.value]), c.decode(rest[..j.value]), i.value + 1 + j.value + 1)
  }

  /** The loop of `parse_qr_server_keys`; None where a string is not terminated. */
  function ParseFrom(c: Codec, data: seq<u8>, keys: Keys): Option<Keys>
    decreases |data|
  {
    if data == [] then Some(keys)
    else
      match ParseRound(c, data)
      case End => Some(keys)
      case Unterminated => None
      case Pair(key, value, used) => ParseFrom(c, data[used..], Put(keys, key, value))
  }

  /** A key and its value, read by `_read_cstring`. */
  method ReadPair(c: Codec, data: seq<u8>, offset: nat) returns (round: Round)
    requires offset < |data|
    ensures round == ParseRound(c, data[offset..])
  {
    hide Cut;
    var left := data[offset..];
    var i := Cut(left);
    if i.None? {
      return Unterminated;
    }
    var key := c.decode(left[..i.value]);
    if key == "" {
      return End;
    }
    var rest := left[i.value + 1..];
    var j := Cut(rest);
    if j.None? {
      return Unterminated;
    }
    return Pair(key, c.decode(rest[..j.value]), i.value + 1 + j.value + 1);
  }

  /** `parse_qr_server_keys`. */
  method ParseQrServerKeys(c: Codec, data: seq<u8>, start: nat := 5) returns (r: Option<Keys>)
    ensures r == if start <= |data| then ParseFrom(c, data[start..], []) else Some([])
  {
    hide ParseRound, Put;
    if start > |data| {
      return Some([]);
    }
    var keys: Keys := [];
    var offset := start;
    while offset < |data|
      invariant start <= offset <= |data|
      invariant ParseFrom(c, data[start..], []) == ParseFrom(c, data[offset..], keys)
    {
      var round := ReadPair(c, data, offset);
      if round.Unterminated? {
        return None;
      }
      if round.End? {
        return Some(keys);
      }
      assert data[offset..][round.used..] == data[offset + round.used..];
      keys := Put(keys, round.key, round.value);
      offset := offset + round.used;
    }
    return Some(keys);
  }

  lemma RoundIsPlain(c: Codec, data: seq<u8>)
    requires c.Valid() && ParseRound(c, data).Pair?
    ensures Plain(ParseRound(c, data).key) && Plain(ParseRound(c, data).value)
  {
  }

  /** Whatever the heartbeat, its keys can be serialised: they are well-formed. */
  lemma {:induction false} ParsedIsWellFormed(c: Codec, data: seq<u8>, keys: Keys)
    requires c.Valid() && WellFormed(keys) && ParseFrom(c, data, keys).Some?
    ensures WellFormed(ParseFrom(c, data, keys).value)
    decreases |data|
  {
    hide WellFormed, Put, ParseRound, Plain;
    if data != [] && ParseRound(c, data).Pair? {
      var round := ParseRound(c, data);
      RoundIsPlain(c, data);
      PutIsWellFormed(keys, round.key, round.value);
      ParsedIsWellFormed(c, data[round.used..], Put(keys, round.key, round.value));
    }
  }

  // ------------------------------------------------------------- serialising

  function Rules(c: Codec, keys: Keys): seq<u8> {
    if keys == [] then [] else c.encode(keys[0].0) + [0] + c.encode(keys[0].1) + [0] + Rules(c, keys[1..])
  }

  lemma {:induction false} CutAt(text: seq<u8>, rest: seq<u8>)
    requires 0 !in text
    ensures Cut(text + [0] + rest) == Some(|text|)
    ensures (text + [0] + rest)[..|text|] == text && (text + [0] + rest)[|text| + 1..] == rest
  {
    var data := text + [0] + rest;
    if text != [] {
      assert data[1..] == text[1..] + [0] + rest;
      CutAt(text[1..], rest);
    }
  }

  lemma RoundOnBytes(c: Codec, k: string, value: seq<u8>, tail: seq<u8>)
    requires c.Valid() && k != "" && Plain(k) && 0 !in value
    ensures var data := c.encode(k) + [0] + (value + [0] + tail);
            var used := |c.encode(k)| + 1 + |value| + 1;
            used <= |data| && data[used..] == tail && ParseRound(c, data) == Pair(k, c.decode(value), used)
  {
    hide Cut;
    CutAt(c.encode(k), value + [0] + tail);
    CutAt(value, tail);
  }

  lemma RoundOnPair(c: Codec, k: string, v: string, tail: seq<u8>)
    requires c.Valid() && k != "" && Plain(k) && Plain(v)
    ensures var data := c.encode(k) + [0] + (c.encode(v) + [0] + tail);
            var used := |c.encode(k)| + 1 + |c.encode(v)| + 1;
            used <= |data| && data[used..] == tail && ParseRound(c, data) == Pair(k, v, used)
  {
    RoundOnBytes(c, k, c.encode(v), tail);
  }

  lemma RoundOnEnd(c: Codec, rest: seq<u8>)
    requires c.Valid()
    ensures ParseRound(c, [0] + rest) == End
  {
    CutAt([], rest);
    assert [] + [0] + rest == [0] + rest;
    assert c.decode([]) == c.decode(c.encode(""));
  }

  /** Serialised keys, a closing zero and whatever follows parse back to the keys in their order. */
  lemma {:induction false} RulesParseBack(c: Codec, keys: Keys, before: Keys, rest: seq<u8>)
    requires c.Valid() && WellFormed(before + keys)
    ensures ParseFrom(c, Rules(c, keys) + [0] + rest, before) == Some(before + keys)
    decreases |keys|
  {
    hide ParseRound, Put;
    var data := Rules(c, keys) + [0] + rest;
    if keys == [] {
      assert data == [0] + rest && before + keys == before;
      RoundOnEnd(c, rest);
    } else {
      var k, v := keys[0].0, keys[0].1;
      var tail := Rules(c, keys[1..]) + [0] + rest;
      assert data == c.encode(k) + [0] + (c.encode(v) + [0] + tail);
      FirstOfRest(before, keys);
      RoundOnPair(c, k, v, tail);
      PutAppends(before, k, v);
      assert before + [(k, v)] + keys[1..] == before + keys;
      RulesParseBack(c, keys[1..], before + [(k, v)], rest);
    }
  }

  lemma FirstOfRest(before: Keys, keys: Keys)
    requires WellFormed(before + keys) && keys != []
    ensures keys[0].0 != "" && Plain(keys[0].0) && Plain(keys[0].1) && Fresh(before, keys[0].0)
  {
    assert (before + keys)[|before|] == keys[0];
    assert forall i :: 0 <= i < |before| ==> (before + keys)[i] == before[i];
  }

  lemma {:induction false} PutSize(c: Codec, keys: Keys, k: string, v: string)
    ensures |Rules(c, Put(keys, k, v))| <= |Rules(c, keys)| + |c.encode(k)| + |c.encode(v)| + 2
  {
    if keys != [] && keys[0].0 != k {
      PutSize(c, keys[1..], k, v);
    }
  }

  lemma RoundSize(c: Codec, data: seq<u8>)
    requires c.Valid() && ParseRound(c, data).Pair?
    ensures var round := ParseRound(c, data);
            |c.encode(round.key)| + |c.encode(round.value)| + 2 <= 3 * round.used
  {
    hide Cut;
  }

  /** The serialised keys of a heartbeat are at most three times as long as the heartbeat. */
  lemma {:induction false} RulesFit(c: Codec, data: seq<u8>, keys: Keys)
    requires c.Valid() && ParseFrom(c, data, keys).Some?
    ensures |Rules(c, ParseFrom(c, data, keys).value)| <= |Rules(c, keys)| + 3 * |data|
    decreases |data|
  {
    hide Put, Rules, ParseRound;
    if data != [] && ParseRound(c, data).Pair? {
      var round := ParseRound(c, data);
      RoundSize(c, data);
      PutSize(c, keys, round.key, round.value);
      RulesFit(c, data[round.used..], Put(keys, round.key, round.value));
    }
  }

  /** No value is longer than this. */
  predicate ValuesWithin(keys: Keys, n: nat) {
    forall i :: 0 <= i < |keys| ==> |keys[i].1| <= n
  }

  lemma RoundValueFits(c: Codec, data: seq<u8>)
    requires c.Valid() && ParseRound(c, data).Pair?
    ensures |ParseRound(c, data).value| <= |data|
  {
    hide Cut;
  }

  lemma PutWithin(keys: Keys, k: string, v: string, n: nat)
    requires ValuesWithin(keys, n) && |v| <= n
    ensures ValuesWithin(Put(keys, k, v), n)
  {
    PutPositions(keys, k, v);
  }

  /** No value of a heartbeat is longer than the heartbeat. */
  lemma {:induction false} ValuesFit(c: Codec, data: seq<u8>, keys: Keys, n: nat)
    requires c.Valid() && ValuesWithin(keys, n) && |data| <= n && ParseFrom(c, data, keys).Some?
    ensures ValuesWithin(ParseFrom(c, data, keys).value, n)
    decreases |data|
  {
    hide Put, ValuesWithin, ParseRound;
    if data != [] && ParseRound(c, data).Pair? {
      var round := ParseRound(c, data);
      RoundValueFits(c, data);
      PutWithin(keys, round.key, round.value, n);
      ValuesFit(c, data[round.used..], Put(keys, round.key, round.value), n);
    }
  }

  lemma {:induction false} GetWithin(keys: Keys, k: string, default: string, n: nat)
    requires ValuesWithin(keys, n) && |default| <= n
    ensures |Get(keys, k, default)| <= n
  {
    if keys != [] && keys[0].0 != k {
      GetWithin(keys[1..], k, default, n);
    }
  }
}
