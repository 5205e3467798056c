/**
 * The binary Android manifest: the UTF-16 string encoder and `_patch_manifest` of identity_patch.py,
 * and a reader that decodes the string pool and the element tree.
 */
module Manifest {
  import opened Wrappers
  import opened Bytes
  import opened LittleEndian

  /** A text as its UTF-16 code units. */
  type Text = seq<u16>

  // ---------------------------------------------------------------- strings

  function Bytes2(v: u16): (r: seq<u8>)
    ensures |r| == 2 && U16(r, 0) == v
  {
    [v % 0x100, v / 0x100]
  }

  function Encoded(text: Text): (r: seq<u8>)
    ensures |r| == 2 * |text|
  {
    if text == [] then [] else Bytes2(text[0]) + Encoded(text[1..])
  }

  const MAX_UNITS: nat := 0x7FFF_FFFF

  /** One word for a short text, two with the high bit set for a long one. */
  function Prefix(units: nat): (r: seq<u8>)
    requires units <= MAX_UNITS
    ensures |r| == if units <= 0x7FFF then 2 else 4
  {
    if units <= 0x7FFF then Bytes2(units)
    else Bytes2(0x8000 + units / 0x1_0000) + Bytes2(units % 0x1_0000)
  }

  /** `_utf16_string`, where it does not raise. */
  function Utf16String(text: Text): seq<u8>
    requires |text| <= MAX_UNITS
  {
    Prefix(|text|) + Encoded(text) + [0, 0]
  }

  /** The units from `at` on. */
  function Units(b: seq<u8>, at: nat, n: nat): (r: Text)
    requires at + 2 * n <= |b|
    ensures |r| == n
    decreases n
  {
    if n == 0 then [] else [U16(b, at)] + Units(b, at + 2, n - 1)
  }

  /** The length at `at`, and where the units begin. */
  function ReadLength(b: seq<u8>, at: nat): Option<(nat, nat)> {
    if at + 2 > |b| then None
    else
      var first := U16(b, at);
      if first < 0x8000 then Some((first, at + 2))
      else if at + 4 > |b| then None
      else Some(((first - 0x8000) * 0x1_0000 + U16(b, at + 2), at + 4))
  }

  /** The reader of one pool string; None where it is cut short or not terminated. */
  function ReadString(b: seq<u8>, at: nat): Option<Text> {
    var r := ReadLength(b, at);
    if r.None? then None
    else
      var end := r.value.1 + 2 * r.value.0;
      if end + 2 > |b| || b[end] != 0 || b[end + 1] != 0 then None
      else Some(Units(b, r.value.1, r.value.0))
  }

  lemma U16Same(s: seq<u8>, at: nat, t: seq<u8>, to: nat)
    requires at + 2 <= |s| && to + 2 <= |t| && s[at] == t[to] && s[at + 1] == t[to + 1]
    ensures U16(s, at) == U16(t, to)
  {
  }

  lemma {:induction false} UnitsSame(s: seq<u8>, at: nat, t: seq<u8>, to: nat, n: nat)
    requires at + 2 * n <= |s| && to + 2 * n <= |t|
    requires forall i :: at <= i < at + 2 * n ==> s[i] == t[i - at + to]
    ensures Units(s, at, n) == Units(t, to, n)
    decreases n
  {
    hide U16;
    if n != 0 {
      U16Same(s, at, t, to);
      UnitsSame(s, at + 2, t, to + 2, n - 1);
    }
  }

  lemma {:induction false} UnitsOfEncoded(text: Text)
    ensures Units(Encoded(text), 0, |text|) == text
    decreases |text|
  {
    hide U16;
    if text != [] {
      var b := Encoded(text);
      U16Same(b, 0, Bytes2(text[0]), 0);
      UnitsSame(b, 2, Encoded(text[1..]), 0, |text| - 1);
      UnitsOfEncoded(text[1..]);
    }
  }

  /** A string read inside a part is read alike in the whole. */
  lemma ReadInside(before: seq<u8>, b: seq<u8>, rest: seq<u8>, at: nat)
    requires ReadString(b, at).Some?
    ensures ReadString(before + b + rest, |before| + at) == ReadString(b, at)
  {
    hide U16, Units;
    var whole := before + b + rest;
    assert forall i :: 0 <= i < |b| ==> whole[|before| + i] == b[i];
    LengthInside(before, b, rest, at);
    var r := ReadLength(b, at).value;
    UnitsSame(b, r.1, whole, |before| + r.1, r.0);
  }

  lemma LengthInside(before: seq<u8>, b: seq<u8>, rest: seq<u8>, at: nat)
    requires ReadLength(b, at).Some?
    ensures var r := ReadLength(b, at).value;
            ReadLength(before + b + rest, |before| + at) == Some((r.0, |before| + r.1))
  {
    hide U16;
    var whole := before + b + rest;
    assert forall i :: 0 <= i < |b| ==> whole[|before| + i] == b[i];
    U16Same(whole, |before| + at, b, at);
    if U16(b, at) >= 0x8000 {
      U16Same(whole, |before| + at + 2, b, at + 2);
    }
  }

  lemma LengthReadsBack(units: nat, rest: seq<u8>)
    requires units <= MAX_UNITS
    ensures ReadLength(Prefix(units) + rest, 0) == Some((units, |Prefix(units)|))
  {
    hide U16;
    var b := Prefix(units) + rest;
    if units <= 0x7FFF {
      U16Same(b, 0, Bytes2(units), 0);
    } else {
      U16Same(b, 0, Bytes2(0x8000 + units / 0x1_0000), 0);
      U16Same(b, 2, Bytes2(units % 0x1_0000), 0);
    }
  }

  /** Every text reads back, in either form of the length prefix. */
  lemma StringReadsBack(text: Text)
    requires |text| <= MAX_UNITS
    ensures ReadString(Utf16String(text), 0) == Some(text)
  {
    hide U16, Units, Encoded, Prefix;
    var b := Utf16String(text);
    LengthReadsBack(|text|, Encoded(text) + [0, 0]);
    assert b == Prefix(|text|) + (Encoded(text) + [0, 0]);
    UnitsSame(b, |Prefix(|text|)|, Encoded(text), 0, |text|);
    UnitsOfEncoded(text);
  }

  // ------------------------------------------------------------------ reader

  /** The first `n` strings of a pool chunk. */
  function Strings(pool: seq<u8>, header: nat, stringsStart: nat, n: nat): Option<seq<Text>> {
    if n == 0 then Some([])
    else
      var before := Strings(pool, header, stringsStart, n - 1);
      var slot := header + 4 * (n - 1);
      if before.None? || slot + 4 > |pool| then None
      else
        var text := ReadString(pool, stringsStart + U32(pool, slot));
        if text.None? then None else Some(before.value + [text.value])
  }

  /** `place` says where in the chunks behind the pool the attribute stands, `space` is its namespace. */
  datatype Attribute = Attribute(place: nat, space: u32, name: u32, raw: u32, kind: u8, value: u32)

  datatype Element = Element(space: u32, name: u32, attributes: seq<Attribute>)

  const ATTRIBUTE_SIZE: nat := 20

  function AttributeAt(t: seq<u8>, at: nat): Attribute
    requires at + ATTRIBUTE_SIZE <= |t|
  {
    Attribute(at, U32(t, at), U32(t, at + 4), U32(t, at + 8), t[at + 15], U32(t, at + 16))
  }

  /** `n` attribute records of the given size from `at` on. */
  function Attributes(t: seq<u8>, at: nat, size: nat, n: nat): Option<seq<Attribute>>
    decreases n
  {
    if n == 0 then Some([])
    else if at + ATTRIBUTE_SIZE > |t| then None
    else
      var rest := Attributes(t, at + size, size, n - 1);
      if rest.None? then None else Some([AttributeAt(t, at)] + rest.value)
  }

  function ElementAt(t: seq<u8>, extension: nat): Option<Element> {
    if extension + 14 > |t| then None
    else
      var attributes := Attributes(t, extension + U16(t, extension + 8), U16(t, extension + 10), U16(t, extension + 12));
      if attributes.None? then None else Some(Element(U32(t, extension), U32(t, extension + 4), attributes.value))
  }

  const MANIFEST: u16 := 3
  const STRING_POOL: u16 := 1
  const START_ELEMENT: u16 := 0x102

  /** A chunk fits, is aligned, and holds its own header. */
  predicate ChunkAt(t: seq<u8>, pos: nat) {
    && pos + 8 <= |t|
    && 8 <= U16(t, pos + 2) <= U32(t, pos + 4) && U32(t, pos + 4) % 4 == 0 && pos + U32(t, pos + 4) <= |t|
  }

  /** The elements in the chunks from `pos` on; None for a malformed chunk or a second pool. */
  function Elements(t: seq<u8>, pos: nat): Option<seq<Element>>
    decreases |t| - pos
  {
    if pos == |t| then Some([])
    else if !ChunkAt(t, pos) || U16(t, pos) == STRING_POOL then None
    else
      var rest := Elements(t, pos + U32(t, pos + 4));
      if rest.None? then None
      else if U16(t, pos) == START_ELEMENT then
        var e := ElementAt(t, pos + U16(t, pos + 2));
        if e.None? then None else Some([e.value] + rest.value)
      else rest
  }

  datatype Tree = Tree(strings: seq<Text>, elements: seq<Element>)

  /** The strings of a pool chunk. */
  function DecodePool(pool: seq<u8>): Option<seq<Text>>
    requires 28 <= |pool|
  {
    if And(U32(pool, 16), 0x100) != 0 then None
    else Strings(pool, U16(pool, 2), U32(pool, 20), U32(pool, 8))
  }

  /** The whole manifest: file header, string pool, and the chunks behind it. */
  function Decode(data: seq<u8>): Option<Tree> {
    if |data| < 8 || U16(data, 0) != MANIFEST || U32(data, 4) != |data| then None
    else
      var start := U16(data, 2);
      if !ChunkAt(data, start) || U16(data, start) != STRING_POOL || U32(data, start + 4) < 28 then None
      else
        var end := start + U32(data, start + 4);
        var strings := DecodePool(data[start..end]);
        var elements := Elements(data[end..], 0);
        if strings.None? || elements.None? then None else Some(Tree(strings.value, elements.value))
  }

  // ---------------------------------------------------------------- patching

  const POOL_START: nat := 8
  const POOL_HEADER: nat := 28
  const POOL_SIZE: nat := 2456
  const COUNT: nat := 53
  const STRINGS_START: nat := 240
  const POOL_END: nat := POOL_START + POOL_SIZE
  const PACKAGE_ATTRIBUTE: nat := 0xA5C
  const LABEL_ATTRIBUTE: nat := 0xA94

  const PACKAGE_RECORD: seq<u8> := [0xff, 0xff, 0xff, 0xff, 0x12, 0, 0, 0, 0x14, 0, 0, 0, 8, 0, 0, 3, 0x14, 0, 0, 0]
  const LABEL_RECORD: seq<u8> := [0x10, 0, 0, 0, 3, 0, 0, 0, 0xff, 0xff, 0xff, 0xff, 8, 0, 0, 1, 0x42, 1, 7, 0x7f]

  /** The first half of struct.pack("<HHIIIIII", …): type 1, header size 28, size and count. */
  function PoolSizes(size: u32, count: u32): (r: seq<u8>)
    ensures |r| == 12
  {
    [STRING_POOL, 0, 28, 0] + Bytes4(size) + Bytes4(count)
  }

  /** The second half: no styles, no flags, where the strings start. */
  function PoolStarts(stringsStart: u32): (r: seq<u8>)
    ensures |r| == 16
  {
    [0, 0, 0, 0, 0, 0, 0, 0] + Bytes4(stringsStart) + [0, 0, 0, 0]
  }

  function PoolHeader(size: u32, count: u32, stringsStart: u32): (r: seq<u8>)
    ensures |r| == 28
  {
    PoolSizes(size, count) + PoolStarts(stringsStart)
  }

  /** The only pool layout that is accepted. */
  predicate KnownLayout(data: seq<u8>) {
    POOL_START + POOL_HEADER <= |data|
    && data[POOL_START..POOL_START + POOL_HEADER] == PoolHeader(POOL_SIZE, COUNT, STRINGS_START)
  }

  /** The parts under construction. */
  datatype Work = Work(offsets: seq<u8>, strings: seq<u8>, tail: seq<u8>, added: nat)

  /** The words written over an attribute record from its raw value on. */
  function Words(index: u32): (r: seq<u8>)
    ensures |r| == 12
  {
    Bytes4(index) + Bytes2(8) + [0, 3] + Bytes4(index)
  }

  function Overwrite(t: seq<u8>, at: nat, index: u32): (r: seq<u8>)
    requires at + ATTRIBUTE_SIZE <= |t|
    ensures |r| == |t|
  {
    t[..at + 8] + Words(index) + t[at + 20..]
  }

  predicate Holds(t: seq<u8>, at: nat, record: seq<u8>) {
    at + ATTRIBUTE_SIZE <= |t| && t[at..at + ATTRIBUTE_SIZE] == record
  }

  /** One round of the loop; None where it raises. */
  function Retarget(w: Work, value: Option<Text>, attribute: nat, record: seq<u8>): (r: Option<Work>)
    requires POOL_END <= attribute
  {
    if value.None? then Some(w)
    else
      var at := attribute - POOL_END;
      if !Holds(w.tail, at, record) || |w.strings| >= 0x1_0000_0000 || |value.value| > MAX_UNITS
        || COUNT + w.added >= 0x1_0000_0000 then None
      else
        Some(Work(w.offsets + Bytes4(|w.strings|), w.strings + Utf16String(value.value),
                  Overwrite(w.tail, at, COUNT + w.added), w.added + 1))
  }

  function Padding(n: nat): nat {
    (4 - n % 4) % 4
  }

  /** The file put together again; None where its size does not fit the header. */
  function Assemble(data: seq<u8>, w: Work): Option<seq<u8>>
  {
    if w.added == 0 then Some(data)
    else
      var strings := w.strings + Zeros(Padding(|w.strings|));
      var stringsStart := STRINGS_START + 4 * w.added;
      var poolSize := stringsStart + |strings|;
      var size := POOL_START + poolSize + |w.tail|;
      if size >= 0x1_0000_0000 then None
      else
        Some(Bytes2(MANIFEST) + Bytes2(POOL_START) + Bytes4(size) + PoolHeader(poolSize, COUNT + w.added, stringsStart)
             + w.offsets + strings + w.tail)
  }

  function Start(data: seq<u8>): Work
    requires POOL_END <= |data|
  {
    Work(data[POOL_START + POOL_HEADER..POOL_START + STRINGS_START],
         data[POOL_START + STRINGS_START..POOL_END], data[POOL_END..], 0)
  }

  /** Both rounds. */
  function Rounds(w: Work, package: Option<Text>, launcher: Option<Text>): Option<Work> {
    var first := Retarget(w, package, PACKAGE_ATTRIBUTE, PACKAGE_RECORD);
    if first.None? then None else Retarget(first.value, launcher, LABEL_ATTRIBUTE, LABEL_RECORD)
  }

  /** `_patch_manifest`; None where it raises.  A file that ends within its pool holds no attribute. */
  function PatchManifest(data: seq<u8>, package: Option<Text>, launcher: Option<Text>): Option<seq<u8>> {
    if !KnownLayout(data) then None
    else if package.None? && launcher.None? then Some(data)
    else if |data| < POOL_END then None
    else
      var w := Rounds(Start(data), package, launcher);
      if w.None? then None else Assemble(data, w.value)
  }
}
