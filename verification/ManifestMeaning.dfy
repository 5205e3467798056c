/**
 * Rewriting the manifest keeps its meaning: every old string at its old index, the new ones behind
 * them, and the same elements but for the attributes retargeted.
 */
module ManifestMeaning {
  import opened Wrappers
  import opened Bytes
  import opened LittleEndian
  import opened Manifest

  // -------------------------------------------------------------- the elements

  /** The attribute at `at` now says the string `index`; every other one is as it was. */
  function RetargetedAttribute(a: Attribute, at: nat, index: u32): Attribute {
    if a.place == at then a.(raw := index, kind := 3, value := index) else a
  }

  function RetargetedAttributes(s: seq<Attribute>, at: nat, index: u32): (r: seq<Attribute>)
    ensures |r| == |s|
  {
    if s == [] then [] else [RetargetedAttribute(s[0], at, index)] + RetargetedAttributes(s[1..], at, index)
  }

  function RetargetedElements(s: seq<Element>, at: nat, index: u32): (r: seq<Element>)
    ensures |r| == |s|
  {
    if s == [] then []
    else [s[0].(attributes := RetargetedAttributes(s[0].attributes, at, index))] + RetargetedElements(s[1..], at, index)
  }

  /** The words written over the record at `at` do not touch the `n` bytes at `from`. */
  predicate Off(at: nat, from: nat, n: nat) {
    from + n <= at + 8 || at + 20 <= from
  }

  /** The record at `at` is one of these attribute records, or lies off them. */
  predicate OffAttributes(at: nat, from: nat, size: nat, n: nat)
    decreases n
  {
    n == 0 || ((from == at || Off(at, from, ATTRIBUTE_SIZE)) && OffAttributes(at, from + size, size, n - 1))
  }

  /**
   * What the code takes for granted once the file's hash has been checked: the record at `at` is
   * an attribute of some element, or at least lies off everything else that a reader looks at.
   */
  predicate Undisturbed(t: seq<u8>, at: nat, pos: nat)
    decreases |t| - pos
  {
    pos == |t| || !ChunkAt(t, pos)
    || (&& Off(at, pos, 8)
        && (U16(t, pos) == START_ELEMENT && pos + U16(t, pos + 2) + 14 <= |t| ==>
              var e := pos + U16(t, pos + 2);
              Off(at, e, 14) && OffAttributes(at, e + U16(t, e + 8), U16(t, e + 10), U16(t, e + 12)))
        && Undisturbed(t, at, pos + U32(t, pos + 4)))
  }

  lemma OverwriteElsewhere(t: seq<u8>, at: nat, index: u32)
    requires at + ATTRIBUTE_SIZE <= |t|
    ensures forall i :: 0 <= i < |t| && !(at + 8 <= i < at + 20) ==> Overwrite(t, at, index)[i] == t[i]
  {
  }

  lemma U16Off(t: seq<u8>, at: nat, index: u32, from: nat)
    requires at + ATTRIBUTE_SIZE <= |t| && from + 2 <= |t| && Off(at, from, 2)
    ensures U16(Overwrite(t, at, index), from) == U16(t, from)
  {
    hide Overwrite, U16;
    OverwriteElsewhere(t, at, index);
    U16Same(Overwrite(t, at, index), from, t, from);
  }

  lemma U32Same(s: seq<u8>, at: nat, t: seq<u8>, to: nat)
    requires at + 4 <= |s| && to + 4 <= |t|
    requires s[at] == t[to] && s[at + 1] == t[to + 1] && s[at + 2] == t[to + 2] && s[at + 3] == t[to + 3]
    ensures U32(s, at) == U32(t, to)
  {
  }

  lemma U32Off(t: seq<u8>, at: nat, index: u32, from: nat)
    requires at + ATTRIBUTE_SIZE <= |t| && from + 4 <= |t| && Off(at, from, 4)
    ensures U32(Overwrite(t, at, index), from) == U32(t, from)
  {
    hide Overwrite, U32;
    OverwriteElsewhere(t, at, index);
    U32Same(Overwrite(t, at, index), from, t, from);
  }

  lemma AttributeOff(t: seq<u8>, at: nat, index: u32, from: nat)
    requires at + ATTRIBUTE_SIZE <= |t| && from + ATTRIBUTE_SIZE <= |t| && Off(at, from, ATTRIBUTE_SIZE) && from != at
    ensures AttributeAt(Overwrite(t, at, index), from) == AttributeAt(t, from)
  {
    hide Overwrite, U32;
    OverwriteElsewhere(t, at, index);
    U32Off(t, at, index, from);
    U32Off(t, at, index, from + 4);
    U32Off(t, at, index, from + 8);
    U32Off(t, at, index, from + 16);
  }

  /** The record itself: its name and namespace stay, and it now holds the string `index`. */
  lemma AttributeHit(t: seq<u8>, at: nat, index: u32)
    requires at + ATTRIBUTE_SIZE <= |t|
    ensures AttributeAt(Overwrite(t, at, index), at) == RetargetedAttribute(AttributeAt(t, at), at, index)
  {
    hide U32, Bytes4, Bytes2;
    var r := Overwrite(t, at, index);
    U32Off(t, at, index, at);
    U32Off(t, at, index, at + 4);
    WordsHold(index);
    assert forall i :: 0 <= i < 12 ==> r[at + 8 + i] == Words(index)[i];
    U32Same(r, at + 8, Words(index), 0);
    U32Same(r, at + 16, Words(index), 8);
    assert r[at + 15] == Words(index)[7];
  }

  lemma WordsHold(index: u32)
    ensures U32(Words(index), 0) == index && Words(index)[7] == 3 && U32(Words(index), 8) == index
  {
    hide U32, Bytes4, Bytes2;
    U32Same(Words(index), 0, Bytes4(index), 0);
    U32Same(Words(index), 8, Bytes4(index), 0);
  }

  lemma {:induction false} AttributesRetargeted(t: seq<u8>, at: nat, index: u32, from: nat, size: nat, n: nat)
    requires at + ATTRIBUTE_SIZE <= |t| && OffAttributes(at, from, size, n)
    ensures var a := Attributes(t, from, size, n); var b := Attributes(Overwrite(t, at, index), from, size, n);
            (a.Some? <==> b.Some?) && (a.Some? ==> b.value == RetargetedAttributes(a.value, at, index))
    decreases n
  {
    hide Overwrite, AttributeAt, Off;
    if n != 0 && from + ATTRIBUTE_SIZE <= |t| {
      if from == at {
        AttributeHit(t, at, index);
      } else {
        AttributeOff(t, at, index, from);
        PlaceOf(t, from);
      }
      AttributesRetargeted(t, at, index, from + size, size, n - 1);
    }
  }

  lemma PlaceOf(t: seq<u8>, from: nat)
    requires from + ATTRIBUTE_SIZE <= |t|
    ensures AttributeAt(t, from).place == from
  {
  }

  lemma ElementRetargeted(t: seq<u8>, at: nat, index: u32, e: nat)
    requires at + ATTRIBUTE_SIZE <= |t|
    requires e + 14 <= |t| ==> Off(at, e, 14) && OffAttributes(at, e + U16(t, e + 8), U16(t, e + 10), U16(t, e + 12))
    ensures var a := ElementAt(t, e); var b := ElementAt(Overwrite(t, at, index), e);
            (a.Some? <==> b.Some?)
            && (a.Some? ==> b.value == a.value.(attributes := RetargetedAttributes(a.value.attributes, at, index)))
  {
    hide Overwrite, U16, U32, Attributes, RetargetedAttributes, OffAttributes;
    if e + 14 <= |t| {
      U32Off(t, at, index, e);
      U32Off(t, at, index, e + 4);
      U16Off(t, at, index, e + 8);
      U16Off(t, at, index, e + 10);
      U16Off(t, at, index, e + 12);
      AttributesRetargeted(t, at, index, e + U16(t, e + 8), U16(t, e + 10), U16(t, e + 12));
    }
  }

  lemma ChunkOff(t: seq<u8>, at: nat, index: u32, pos: nat)
    requires at + ATTRIBUTE_SIZE <= |t| && (pos + 8 <= |t| ==> Off(at, pos, 8))
    ensures ChunkAt(Overwrite(t, at, index), pos) <==> ChunkAt(t, pos)
    ensures pos + 8 <= |t| ==>
              var r := Overwrite(t, at, index);
              U16(r, pos) == U16(t, pos) && U16(r, pos + 2) == U16(t, pos + 2) && U32(r, pos + 4) == U32(t, pos + 4)
  {
    hide Overwrite, U16, U32;
    if pos + 8 <= |t| {
      U16Off(t, at, index, pos);
      U16Off(t, at, index, pos + 2);
      U32Off(t, at, index, pos + 4);
    }
  }

  /** The element tree after a retarget: the same, but for that attribute. */
  lemma {:induction false} ElementsRetargeted(t: seq<u8>, at: nat, index: u32, pos: nat)
    requires at + ATTRIBUTE_SIZE <= |t| && Undisturbed(t, at, pos) && Elements(t, pos).Some?
    ensures Elements(Overwrite(t, at, index), pos) == Some(RetargetedElements(Elements(t, pos).value, at, index))
    decreases |t| - pos
  {
    hide Overwrite, U16, U32, ElementAt, RetargetedAttributes, OffAttributes, Off, ChunkAt;
    if pos != |t| {
      ChunkFits(t, pos);
      ChunkOff(t, at, index, pos);
      if U16(t, pos) == START_ELEMENT {
        ElementRetargeted(t, at, index, pos + U16(t, pos + 2));
      }
      ElementsRetargeted(t, at, index, pos + U32(t, pos + 4));
    }
  }

  lemma ChunkFits(t: seq<u8>, pos: nat)
    requires ChunkAt(t, pos)
    ensures pos + 8 <= |t| && 0 < U32(t, pos + 4) && pos + U32(t, pos + 4) <= |t|
  {
  }

  /** A retarget leaves other records as undisturbed as they were. */
  lemma {:induction false} StillUndisturbed(t: seq<u8>, at: nat, index: u32, other: nat, pos: nat)
    requires at + ATTRIBUTE_SIZE <= |t| && Undisturbed(t, at, pos) && Undisturbed(t, other, pos) && Elements(t, pos).Some?
    ensures Undisturbed(Overwrite(t, at, index), other, pos)
    decreases |t| - pos
  {
    hide Overwrite, U16, U32, Attributes, OffAttributes, Off, ChunkAt;
    if pos != |t| {
      ChunkFits(t, pos);
      ChunkOff(t, at, index, pos);
      if U16(t, pos) == START_ELEMENT {
        var e := pos + U16(t, pos + 2);
        if e + 14 <= |t| {
          ExtensionOff(t, at, index, e);
        }
      }
      StillUndisturbed(t, at, index, other, pos + U32(t, pos + 4));
    }
  }

  lemma ExtensionOff(t: seq<u8>, at: nat, index: u32, e: nat)
    requires at + ATTRIBUTE_SIZE <= |t| && e + 14 <= |t| && Off(at, e, 14)
    ensures var r := Overwrite(t, at, index);
            U16(r, e + 8) == U16(t, e + 8) && U16(r, e + 10) == U16(t, e + 10) && U16(r, e + 12) == U16(t, e + 12)
  {
    hide Overwrite, U16;
    U16Off(t, at, index, e + 8);
    U16Off(t, at, index, e + 10);
    U16Off(t, at, index, e + 12);
  }

  // --------------------------------------------------------------- the strings

  lemma {:induction false} StringsHold(pool: seq<u8>, header: nat, start: nat, n: nat, texts: seq<Text>)
    requires |texts| == n
    ensures Strings(pool, header, start, n) == Some(texts)
            <==> forall k :: 0 <= k < n ==> StringIs(pool, header, start, k, texts[k])
  {
    hide ReadString, U32;
    if n != 0 {
      var init := texts[..n - 1];
      StringsHold(pool, header, start, n - 1, init);
      assert texts == init + [texts[n - 1]];
      if Strings(pool, header, start, n) == Some(texts) {
        var before := Strings(pool, header, start, n - 1).value;
        assert before == (before + [texts[n - 1]])[..n - 1];
        forall k | 0 <= k < n
          ensures StringIs(pool, header, start, k, texts[k])
        {
          assert k < n - 1 ==> texts[k] == init[k] && StringIs(pool, header, start, k, init[k]);
        }
      }
      if forall k :: 0 <= k < n ==> StringIs(pool, header, start, k, texts[k]) {
        forall k | 0 <= k < n - 1
          ensures StringIs(pool, header, start, k, init[k])
        {
          assert StringIs(pool, header, start, k, texts[k]);
        }
        assert StringIs(pool, header, start, n - 1, texts[n - 1]);
      }
    }
  }

  /** String `k` of the pool is `text`. */
  predicate StringIs(pool: seq<u8>, header: nat, start: nat, k: nat, text: Text) {
    header + 4 * k + 4 <= |pool| && ReadString(pool, start + U32(pool, header + 4 * k)) == Some(text)
  }

  /** The offsets and strings collected so far spell `texts`. */
  ghost predicate Means(w: Work, texts: seq<Text>) {
    && |texts| == COUNT + w.added && |w.offsets| == 4 * |texts|
    && forall k :: 0 <= k < |texts| ==> ReadString(w.strings, U32(w.offsets, 4 * k)) == Some(texts[k])
  }

  lemma {:induction false} UnitsShift(before: seq<u8>, b: seq<u8>, at: nat, n: nat)
    requires at + 2 * n <= |b|
    ensures Units(before + b, |before| + at, n) == Units(b, at, n)
  {
    var whole := before + b;
    assert forall i :: 0 <= i < |b| ==> whole[|before| + i] == b[i];
    UnitsSame(b, at, whole, |before| + at, n);
  }

  /** What precedes a string does not matter. */
  lemma ReadBehind(before: seq<u8>, b: seq<u8>, at: nat)
    ensures ReadString(before + b, |before| + at) == ReadString(b, at)
  {
    hide U16, Units;
    var whole := before + b;
    assert forall i :: 0 <= i < |b| ==> whole[|before| + i] == b[i];
    if at + 2 <= |b| {
      U16Same(whole, |before| + at, b, at);
    }
    if at + 4 <= |b| {
      U16Same(whole, |before| + at + 2, b, at + 2);
    }
    if ReadString(b, at).Some? {
      UnitsShift(before, b, ReadLength(b, at).value.1, ReadLength(b, at).value.0);
    }
  }

  lemma StartMeans(data: seq<u8>, texts: seq<Text>)
    requires POOL_END <= |data| && |texts| == COUNT
    requires Strings(data[POOL_START..POOL_END], POOL_HEADER, STRINGS_START, COUNT) == Some(texts)
    ensures Means(Start(data), texts)
  {
    hide U32, ReadString, Strings;
    var pool := data[POOL_START..POOL_END];
    var w := Start(data);
    StringsHold(pool, POOL_HEADER, STRINGS_START, COUNT, texts);
    forall k | 0 <= k < COUNT
      ensures ReadString(w.strings, U32(w.offsets, 4 * k)) == Some(texts[k])
    {
      assert StringIs(pool, POOL_HEADER, STRINGS_START, k, texts[k]);
      assert forall i :: 0 <= i < |w.offsets| ==> w.offsets[i] == pool[POOL_HEADER + i];
      U32Same(w.offsets, 4 * k, pool, POOL_HEADER + 4 * k);
      assert pool == pool[..STRINGS_START] + w.strings;
      ReadBehind(pool[..STRINGS_START], w.strings, U32(pool, POOL_HEADER + 4 * k));
    }
  }

  /** A retarget adds its text to the pool. */
  lemma RetargetMeans(w: Work, texts: seq<Text>, value: Text, attribute: nat, record: seq<u8>)
    requires Means(w, texts) && POOL_END <= attribute && Retarget(w, Some(value), attribute, record).Some?
    ensures Means(Retarget(w, Some(value), attribute, record).value, texts + [value])
  {
    hide U32, ReadString, Utf16String, Overwrite, Bytes4, Holds;
    var r := Retarget(w, Some(value), attribute, record).value;
    var all := texts + [value];
    forall k | 0 <= k < |all|
      ensures ReadString(r.strings, U32(r.offsets, 4 * k)) == Some(all[k])
    {
      if k < |texts| {
        U32Same(r.offsets, 4 * k, w.offsets, 4 * k);
        ReadBefore(w.strings, Utf16String(value), U32(w.offsets, 4 * k));
      } else {
        U32Same(r.offsets, 4 * k, Bytes4(|w.strings|), 0);
        StringReadsBack(value);
        ReadBehind(w.strings, Utf16String(value), 0);
      }
    }
  }

  lemma ReadBefore(b: seq<u8>, rest: seq<u8>, at: nat)
    requires ReadString(b, at).Some?
    ensures ReadString(b + rest, at) == ReadString(b, at)
  {
    hide ReadString;
    ReadInside([], b, rest, at);
    assert [] + b + rest == b + rest;
  }

  // ---------------------------------------------------------------- assembling

  function NewPool(w: Work): seq<u8>
    requires STRINGS_START + 4 * w.added + |w.strings| + 3 < 0x1_0000_0000
  {
    var strings := w.strings + Zeros(Padding(|w.strings|));
    var start := STRINGS_START + 4 * w.added;
    PoolHeader(start + |strings|, COUNT + w.added, start) + w.offsets + strings
  }

  lemma PoolSizesRead(size: u32, count: u32)
    ensures var b := PoolSizes(size, count);
            U16(b, 0) == STRING_POOL && U16(b, 2) == 28 && U32(b, 4) == size && U32(b, 8) == count
  {
    hide U32, Bytes4;
    U32Same(PoolSizes(size, count), 4, Bytes4(size), 0);
    U32Same(PoolSizes(size, count), 8, Bytes4(count), 0);
  }

  lemma ZeroWord(b: seq<u8>, at: nat)
    requires at + 4 <= |b| && b[at] == 0 && b[at + 1] == 0 && b[at + 2] == 0 && b[at + 3] == 0
    ensures U32(b, at) == 0
  {
  }

  lemma PoolStartsRead(start: u32)
    ensures var b := PoolStarts(start);
            U32(b, 0) == 0 && U32(b, 4) == 0 && U32(b, 8) == start && U32(b, 12) == 0
  {
    hide Bytes4, U32;
    var b := PoolStarts(start);
    ZeroWord(b, 0);
    ZeroWord(b, 4);
    U32Same(b, 8, Bytes4(start), 0);
    ZeroWord(b, 12);
  }

  lemma PoolHeaderReads(size: u32, count: u32, start: u32, rest: seq<u8>)
    ensures var pool := PoolHeader(size, count, start) + rest;
            && U16(pool, 0) == STRING_POOL && U16(pool, 2) == 28 && U32(pool, 4) == size && U32(pool, 8) == count
            && U32(pool, 12) == 0 && U32(pool, 16) == 0 && U32(pool, 20) == start && U32(pool, 24) == 0
  {
    hide U32, U16, PoolSizes, PoolStarts;
    var pool := PoolHeader(size, count, start) + rest;
    var a, b := PoolSizes(size, count), PoolStarts(start);
    PoolSizesRead(size, count);
    PoolStartsRead(start);
    U16Same(pool, 0, a, 0);
    U16Same(pool, 2, a, 2);
    U32Same(pool, 4, a, 4);
    U32Same(pool, 8, a, 8);
    U32Same(pool, 12, b, 0);
    U32Same(pool, 16, b, 4);
    U32Same(pool, 20, b, 8);
    U32Same(pool, 24, b, 12);
  }

  /** The new pool decodes to the collected texts. */
  lemma NewPoolDecodes(w: Work, texts: seq<Text>)
    requires Means(w, texts) && STRINGS_START + 4 * w.added + |w.strings| + 3 < 0x1_0000_0000
    ensures 28 <= |NewPool(w)| && DecodePool(NewPool(w)) == Some(texts)
  {
    hide U32, U16, ReadString, Strings, PoolHeader, Zeros, Padding;
    PaddingAligns(|w.strings|);
    var strings := w.strings + Zeros(Padding(|w.strings|));
    var start := STRINGS_START + 4 * w.added;
    var header := PoolHeader(start + |strings|, COUNT + w.added, start);
    var pool := NewPool(w);
    assert pool == header + (w.offsets + strings);
    PoolHeaderReads(start + |strings|, COUNT + w.added, start, w.offsets + strings);
    StringsHold(pool, 28, start, |texts|, texts);
    forall k | 0 <= k < |texts|
      ensures StringIs(pool, 28, start, k, texts[k])
    {
      U32Same(pool, 28 + 4 * k, w.offsets, 4 * k);
      ReadInside(header + w.offsets, w.strings, Zeros(Padding(|w.strings|)), U32(w.offsets, 4 * k));
      assert header + w.offsets + w.strings + Zeros(Padding(|w.strings|)) == pool;
    }
  }

  lemma PaddingAligns(n: nat)
    ensures Padding(n) <= 3 && (n + Padding(n)) % 4 == 0
  {
  }

  /** The assembled file: its own header, the new pool, the tail. */
  lemma AssembledParts(data: seq<u8>, w: Work)
    requires 0 < w.added && Assemble(data, w).Some? && |w.offsets| == 4 * (COUNT + w.added)
    ensures var r := Assemble(data, w).value;
            var strings := |w.strings| + Padding(|w.strings|);
            var size := STRINGS_START + 4 * w.added + strings;
            && |r| == 8 + size + |w.tail| && U16(r, 0) == 3 && U16(r, 2) == 8 && U32(r, 4) == |r|
            && r[8..8 + size] == PoolHeader(size, COUNT + w.added, STRINGS_START + 4 * w.added) + w.offsets
                                 + (w.strings + Zeros(Padding(|w.strings|)))
            && r[8 + size..] == w.tail
  {
    hide U32, U16, PoolHeader, Padding, Zeros, Bytes4, Bytes2;
    var r := Assemble(data, w).value;
    var size := STRINGS_START + 4 * w.added + |w.strings| + Padding(|w.strings|);
    U32Same(r, 4, Bytes4(8 + size + |w.tail|), 0);
    U16Same(r, 0, Bytes2(3), 0);
    U16Same(r, 2, Bytes2(8), 0);
  }

  /** The assembled file decodes to the texts and to the elements of the tail. */
  lemma AssembledDecodes(data: seq<u8>, w: Work, texts: seq<Text>, elements: seq<Element>)
    requires 0 < w.added && Assemble(data, w).Some? && Means(w, texts) && Elements(w.tail, 0) == Some(elements)
    ensures Decode(Assemble(data, w).value) == Some(Tree(texts, elements))
  {
    hide U32, U16, PoolHeader, DecodePool, Elements, Padding, Zeros, Means, Assemble;
    var r := Assemble(data, w).value;
    PaddingAligns(|w.strings|);
    OffsetsSize(w, texts);
    AssembledParts(data, w);
    var strings := w.strings + Zeros(Padding(|w.strings|));
    var start := STRINGS_START + 4 * w.added;
    var pool := NewPool(w);
    assert r[8..8 + start + |strings|] == pool;
    PoolHeaderReads(start + |strings|, COUNT + w.added, start, w.offsets + strings);
    assert pool == PoolHeader(start + |strings|, COUNT + w.added, start) + (w.offsets + strings);
    U16Same(r, 8, pool, 0);
    U16Same(r, 10, pool, 2);
    U32Same(r, 12, pool, 4);
    NewPoolDecodes(w, texts);
  }

  lemma OffsetsSize(w: Work, texts: seq<Text>)
    requires Means(w, texts)
    ensures |w.offsets| == 4 * (COUNT + w.added)
  {
  }

  // --------------------------------------------------------------- the theorem

  function Added(package: Option<Text>, launcher: Option<Text>): seq<Text> {
    (if package.Some? then [package.value] else []) + (if launcher.Some? then [launcher.value] else [])
  }

  const PACKAGE_PLACE: nat := PACKAGE_ATTRIBUTE - POOL_END
  const LABEL_PLACE: nat := LABEL_ATTRIBUTE - POOL_END

  function WithPackage(elements: seq<Element>, package: Option<Text>): seq<Element> {
    if package.Some? then RetargetedElements(elements, PACKAGE_PLACE, COUNT) else elements
  }

  function WithLabel(elements: seq<Element>, package: Option<Text>, launcher: Option<Text>): seq<Element> {
    if launcher.Some? then
      RetargetedElements(elements, LABEL_PLACE, COUNT + if package.Some? then 1 else 0)
    else elements
  }

  lemma OneRound(w: Work, texts: seq<Text>, elements: seq<Element>, value: Option<Text>, attribute: nat,
          record: seq<u8>, other: nat)
    requires POOL_END <= attribute && Retarget(w, value, attribute, record).Some? && Means(w, texts)
    requires Elements(w.tail, 0) == Some(elements) && (value.Some? ==> Undisturbed(w.tail, attribute - POOL_END, 0))
    ensures var r := Retarget(w, value, attribute, record).value;
            && Means(r, texts + if value.Some? then [value.value] else [])
            && (value.Some? ==> COUNT + w.added < 0x1_0000_0000)
            && Elements(r.tail, 0)
               == Some(if value.Some? then RetargetedElements(elements, attribute - POOL_END, COUNT + w.added) else elements)
            && r.added == w.added + (if value.Some? then 1 else 0)
            && (Undisturbed(w.tail, other, 0) ==> Undisturbed(r.tail, other, 0))
  {
    hide Elements, Undisturbed, Means, RetargetedElements, Overwrite;
    if value.Some? {
      RetargetMeans(w, texts, value.value, attribute, record);
      HoldsFits(w.tail, attribute - POOL_END, record);
      ElementsRetargeted(w.tail, attribute - POOL_END, COUNT + w.added, 0);
      if Undisturbed(w.tail, other, 0) {
        StillUndisturbed(w.tail, attribute - POOL_END, COUNT + w.added, other, 0);
      }
    } else {
      assert texts + [] == texts;
    }
  }

  lemma HoldsFits(t: seq<u8>, at: nat, record: seq<u8>)
    ensures Holds(t, at, record) ==> at + ATTRIBUTE_SIZE <= |t|
  {
  }

  /** The fields of the accepted header, and what the reader makes of them. */
  lemma KnownFields(data: seq<u8>)
    requires KnownLayout(data) && POOL_END <= |data|
    ensures var pool := data[POOL_START..POOL_END];
            && U16(pool, 2) == POOL_HEADER && U32(pool, 20) == STRINGS_START && U32(pool, 8) == COUNT
            && U32(data, POOL_START + 4) == POOL_SIZE
  {
    hide U32, U16, PoolHeader;
    var pool := data[POOL_START..POOL_END];
    var head := data[POOL_START..POOL_START + POOL_HEADER];
    PoolHeaderReads(POOL_SIZE, COUNT, STRINGS_START, pool[POOL_HEADER..]);
    assert pool == head + pool[POOL_HEADER..];
    U32Same(data, POOL_START + 4, pool, 4);
  }

  lemma KnownParts(data: seq<u8>)
    requires KnownLayout(data) && U16(data, 2) == POOL_START && Decode(data).Some? && POOL_END <= |data|
    ensures Strings(data[POOL_START..POOL_END], POOL_HEADER, STRINGS_START, COUNT) == Some(Decode(data).value.strings)
    ensures Elements(data[POOL_END..], 0) == Some(Decode(data).value.elements)
    ensures |Decode(data).value.strings| == COUNT
  {
    hide U32, U16, PoolHeader, Elements, Strings, KnownLayout, ChunkAt;
    KnownFields(data);
    var pool := data[POOL_START..POOL_END];
    if Strings(pool, POOL_HEADER, STRINGS_START, COUNT).Some? {
      StringsCount(pool, POOL_HEADER, STRINGS_START, COUNT);
    }
  }

  lemma {:induction false} StringsCount(pool: seq<u8>, header: nat, start: nat, n: nat)
    requires Strings(pool, header, start, n).Some?
    ensures |Strings(pool, header, start, n).value| == n
  {
    hide ReadString, U32;
    if n != 0 {
      StringsCount(pool, header, start, n - 1);
    }
  }

  /**
   * The patched manifest decodes: every old string at its old index, the new ones behind, and the
   * old elements with just the package and the label attribute now holding the new strings.
   */
  lemma MeaningKept(data: seq<u8>, package: Option<Text>, launcher: Option<Text>)
    requires PatchManifest(data, package, launcher).Some? && Decode(data).Some? && U16(data, 2) == POOL_START
    requires POOL_END <= |data|
    requires package.Some? ==> Undisturbed(data[POOL_END..], PACKAGE_PLACE, 0)
    requires launcher.Some? ==> Undisturbed(data[POOL_END..], LABEL_PLACE, 0)
    ensures var tree := Decode(data).value;
            Decode(PatchManifest(data, package, launcher).value)
            == Some(Tree(tree.strings + Added(package, launcher),
                         WithLabel(WithPackage(tree.elements, package), package, launcher)))
  {
    hide Decode, Elements, Undisturbed, Means, RetargetedElements, Retarget, Assemble, KnownLayout, Strings, U16;
    var tree := Decode(data).value;
    if package.None? && launcher.None? {
      assert tree.strings + Added(package, launcher) == tree.strings;
    } else {
      KnownParts(data);
      StartMeans(data, tree.strings);
      var first := Retarget(Start(data), package, PACKAGE_ATTRIBUTE, PACKAGE_RECORD).value;
      var texts := tree.strings + if package.Some? then [package.value] else [];
      OneRound(Start(data), tree.strings, tree.elements, package, PACKAGE_ATTRIBUTE, PACKAGE_RECORD, LABEL_PLACE);
      OneRound(first, texts, WithPackage(tree.elements, package), launcher, LABEL_ATTRIBUTE, LABEL_RECORD, LABEL_PLACE);
      var second := Retarget(first, launcher, LABEL_ATTRIBUTE, LABEL_RECORD).value;
      assert texts + (if launcher.Some? then [launcher.value] else []) == tree.strings + Added(package, launcher);
      AssembledDecodes(data, second, tree.strings + Added(package, launcher),
                       WithLabel(WithPackage(tree.elements, package), package, launcher));
    }
  }

  lemma {:induction false} RetargetedAttributeAt(s: seq<Attribute>, at: nat, index: u32, j: nat)
    requires j < |s|
    ensures RetargetedAttributes(s, at, index)[j] == RetargetedAttribute(s[j], at, index)
  {
    if j > 0 {
      RetargetedAttributeAt(s[1..], at, index, j - 1);
    }
  }

  lemma {:induction false} RetargetedElementAt(s: seq<Element>, at: nat, index: u32, k: nat)
    requires k < |s|
    ensures RetargetedElements(s, at, index)[k] == s[k].(attributes := RetargetedAttributes(s[k].attributes, at, index))
  {
    hide RetargetedAttributes;
    if k > 0 {
      RetargetedElementAt(s[1..], at, index, k - 1);
    }
  }

  /** The attribute shows this text, as its value and as its raw value. */
  predicate Shows(strings: seq<Text>, a: Attribute, text: Text) {
    a.kind == 3 && a.value < |strings| && strings[a.value] == text && a.raw < |strings| && strings[a.raw] == text
  }

  /** What the patched tree says of any one attribute. */
  lemma AttributesSay(tree: Tree, package: Option<Text>, launcher: Option<Text>, k: nat, j: nat)
    requires |tree.strings| == COUNT && k < |tree.elements| && j < |tree.elements[k].attributes|
    ensures var strings := tree.strings + Added(package, launcher);
            var e := tree.elements[k];
            var elements := WithLabel(WithPackage(tree.elements, package), package, launcher);
            && |elements| == |tree.elements| && elements[k] == e.(attributes := elements[k].attributes)
            && |elements[k].attributes| == |e.attributes|
            && var a := e.attributes[j]; var b := elements[k].attributes[j];
               && b.space == a.space && b.name == a.name && b.place == a.place
               && (package.Some? && a.place == PACKAGE_PLACE ==> Shows(strings, b, package.value))
               && (launcher.Some? && a.place == LABEL_PLACE ==> Shows(strings, b, launcher.value))
               && (!(package.Some? && a.place == PACKAGE_PLACE) && !(launcher.Some? && a.place == LABEL_PLACE) ==> b == a)
  {
    hide RetargetedElements, RetargetedAttributes;
    var e := tree.elements[k];
    var first := WithPackage(tree.elements, package);
    RetargetedElementAt(tree.elements, PACKAGE_PLACE, COUNT, k);
    RetargetedAttributeAt(e.attributes, PACKAGE_PLACE, COUNT, j);
    var index := COUNT + if package.Some? then 1 else 0;
    RetargetedElementAt(first, LABEL_PLACE, index, k);
    RetargetedAttributeAt(first[k].attributes, LABEL_PLACE, index, j);
  }

  /** `_patch_manifest` as it runs: one round for the package, one for the label. */
  method PatchManifestBytes(data: seq<u8>, package: Option<Text>, launcher: Option<Text>) returns (r: Option<seq<u8>>)
    ensures r == PatchManifest(data, package, launcher)
  {
    hide KnownLayout, Utf16String, Holds, Overwrite, Assemble, Bytes4;
    if !KnownLayout(data) {
      return None;
    }
    if |data| < POOL_END {
      return if package.None? && launcher.None? then Some(data) else None;
    }
    var rounds := [(package, PACKAGE_ATTRIBUTE, PACKAGE_RECORD), (launcher, LABEL_ATTRIBUTE, LABEL_RECORD)];
    var offsets := data[POOL_START + POOL_HEADER..POOL_START + STRINGS_START];
    var strings, tail, added := data[POOL_START + STRINGS_START..POOL_END], data[POOL_END..], 0;
    var i := 0;
    while i < |rounds|
      invariant i <= |rounds| == 2 && added <= i
      invariant i == 0 ==> Work(offsets, strings, tail, added) == Start(data)
      invariant i == 1 ==>
                  Some(Work(offsets, strings, tail, added)) == Retarget(Start(data), package, PACKAGE_ATTRIBUTE, PACKAGE_RECORD)
      invariant i == 2 ==> Some(Work(offsets, strings, tail, added)) == Rounds(Start(data), package, launcher)
      invariant added == 0 <==> forall k :: 0 <= k < i ==> rounds[k].0.None?
    {
      var value, attribute, record := rounds[i].0, rounds[i].1, rounds[i].2;
      if value.Some? {
        if !Holds(tail, attribute - POOL_END, record) || |strings| >= 0x1_0000_0000 || |value.value| > MAX_UNITS {
          return None;
        }
        HoldsFits(tail, attribute - POOL_END, record);
        var index := COUNT + added;
        offsets := offsets + Bytes4(|strings|);
        strings := strings + Utf16String(value.value);
        tail := Overwrite(tail, attribute - POOL_END, index);
        added := added + 1;
      }
      i := i + 1;
    }
    if added == 0 {
      assert rounds[0].0.None? && rounds[1].0.None?;
      return Some(data);
    }
    return Assemble(data, Work(offsets, strings, tail, added));
  }
}
