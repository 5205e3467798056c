/**
 * The patched manifest byte by byte: when a manifest is patched at all, what its headers then say,
 * and where every old byte, every new string and every new word stands.
 */
module ManifestLayout {
  import opened Wrappers
  import opened Bytes
  import opened LittleEndian
  import opened Manifest
  import opened ManifestMeaning

  // ---------------------------------------------------------------- strings

  lemma {:induction false} EncodedAt(text: Text, i: nat)
    requires i < |text|
    ensures Encoded(text)[2 * i] as int == text[i] % 256 && Encoded(text)[2 * i + 1] as int == text[i] / 256
  {
    if i != 0 {
      EncodedAt(text[1..], i - 1);
    }
  }

  /**
   * A pool string: its length in code units, in one half word or, from 0x8000 on, in two with the high
   * bit of the first set; its units, low byte first; and a zero unit.
   */
  lemma StringBytes(text: Text, i: nat)
    requires |text| <= 0x7FFF_FFFF && i < |text|
    ensures var s := Utf16String(text);
            var p := if |text| < 0x8000 then 2 else 4;
            && |s| == p + 2 * |text| + 2 && s[|s| - 2] == 0 && s[|s| - 1] == 0
            && (|text| < 0x8000 ==> U16(s, 0) as int == |text|)
            && (0x8000 <= |text| ==> U16(s, 0) as int == 0x8000 + |text| / 0x1_0000 && U16(s, 2) as int == |text| % 0x1_0000)
            && s[p + 2 * i] as int == text[i] % 256 && s[p + 2 * i + 1] as int == text[i] / 256
  {
    hide Encoded, U16, Bytes2;
    EncodedAt(text, i);
    var s := Utf16String(text);
    if |text| < 0x8000 {
      U16Same(s, 0, Bytes2(|text|), 0);
    } else {
      U16Same(s, 0, Bytes2(0x8000 + |text| / 0x1_0000), 0);
      U16Same(s, 2, Bytes2(|text| % 0x1_0000), 0);
    }
  }

  // ----------------------------------------------------------------- records

  /** Twenty bytes of an attribute: the namespace, the name, and then what a retarget replaces. */
  predicate RecordIs(t: seq<u8>, at: nat, space: nat, name: nat, raw: nat, kind: nat, value: nat) {
    && at + 20 <= |t|
    && U32(t, at) as int == space && U32(t, at + 4) as int == name && U32(t, at + 8) as int == raw
    && U16(t, at + 12) == 8 && t[at + 14] == 0 && t[at + 15] as int == kind && U32(t, at + 16) as int == value
  }

  /** The words of the pool header: no styles, no flags, UTF-16. */
  predicate PoolIs(b: seq<u8>, at: nat, size: nat, count: nat, start: nat) {
    && at + 28 <= |b|
    && U16(b, at) == 1 && U16(b, at + 2) == 28 && U32(b, at + 4) as int == size && U32(b, at + 8) as int == count
    && U32(b, at + 12) == 0 && U32(b, at + 16) == 0 && U32(b, at + 20) as int == start && U32(b, at + 24) == 0
  }

  lemma HalfBytes(s: seq<u8>, t: seq<u8>, at: nat)
    requires at + 2 <= |s| && at + 2 <= |t| && U16(s, at) == U16(t, at)
    ensures s[at] == t[at] && s[at + 1] == t[at + 1]
  {
    WordIs(s, at);
    WordIs(t, at);
  }

  lemma PoolBytes(b: seq<u8>, size: u32, count: u32, start: u32)
    requires |b| == 28
    ensures b == PoolHeader(size, count, start) <==> PoolIs(b, 0, size, count, start)
  {
    hide U16, U32, PoolHeader;
    var h := PoolHeader(size, count, start);
    PoolHeaderReads(size, count, start, []);
    assert h + [] == h;
    if PoolIs(b, 0, size, count, start) {
      HalfBytes(b, h, 0);
      HalfBytes(b, h, 2);
      forall k | 1 <= k < 7
        ensures b[4 * k] == h[4 * k] && b[4 * k + 1] == h[4 * k + 1] && b[4 * k + 2] == h[4 * k + 2] && b[4 * k + 3] == h[4 * k + 3]
      {
        assert U32(b, 4 * k) == U32(h, 4 * k) by {
          assert k == 1 || k == 2 || k == 3 || k == 4 || k == 5 || k == 6;
        }
        U32Bytes(b, h, 4 * k);
      }
      Words28(b, h);
    }
  }

  lemma Words28(b: seq<u8>, h: seq<u8>)
    requires |b| == 28 == |h| && b[0] == h[0] && b[1] == h[1] && b[2] == h[2] && b[3] == h[3]
    requires forall k :: 1 <= k < 7 ==>
               b[4 * k] == h[4 * k] && b[4 * k + 1] == h[4 * k + 1] && b[4 * k + 2] == h[4 * k + 2] && b[4 * k + 3] == h[4 * k + 3]
    ensures b == h
  {
    forall i | 0 <= i < 28
      ensures b[i] == h[i]
    {
      if 4 <= i {
        var k := i / 4;
        assert b[4 * k] == h[4 * k];
        assert i == 4 * k || i == 4 * k + 1 || i == 4 * k + 2 || i == 4 * k + 3;
      }
    }
  }

  lemma KnownIff(data: seq<u8>)
    ensures KnownLayout(data) <==> PoolIs(data, 8, 2456, 53, 240)
  {
    hide U16, U32, PoolHeader;
    if 36 <= |data| {
      var b := data[8..36];
      PoolBytes(b, 2456, 53, 240);
      PoolAt(data, 8, b);
    }
  }

  lemma PoolAt(data: seq<u8>, at: nat, b: seq<u8>)
    requires at + 28 <= |data| && b == data[at..at + 28]
    ensures forall size, count, start :: PoolIs(data, at, size, count, start) <==> PoolIs(b, 0, size, count, start)
  {
    hide U16, U32;
    U16Same(data, at, b, 0);
    U16Same(data, at + 2, b, 2);
    U32Same(data, at + 4, b, 4);
    U32Same(data, at + 8, b, 8);
    U32Same(data, at + 12, b, 12);
    U32Same(data, at + 16, b, 16);
    U32Same(data, at + 20, b, 20);
    U32Same(data, at + 24, b, 24);
  }

  lemma RecordAt(t: seq<u8>, at: nat, b: seq<u8>)
    requires at + 20 <= |t| && b == t[at..at + 20]
    ensures forall space, name, raw, kind, value ::
              RecordIs(t, at, space, name, raw, kind, value) <==> RecordIs(b, 0, space, name, raw, kind, value)
  {
    hide U16, U32;
    U32Same(t, at, b, 0);
    U32Same(t, at + 4, b, 4);
    U32Same(t, at + 8, b, 8);
    U16Same(t, at + 12, b, 12);
    U32Same(t, at + 16, b, 16);
  }

  lemma SameRecord(b: seq<u8>, c: seq<u8>, space: nat, name: nat, raw: nat, kind: nat, value: nat)
    requires |b| == 20 == |c| && RecordIs(c, 0, space, name, raw, kind, value)
    ensures RecordIs(b, 0, space, name, raw, kind, value) <==> b == c
  {
    hide U16, U32;
    if RecordIs(b, 0, space, name, raw, kind, value) {
      U32Bytes(b, c, 0);
      U32Bytes(b, c, 4);
      U32Bytes(b, c, 8);
      HalfBytes(b, c, 12);
      U32Bytes(b, c, 16);
    }
  }

  lemma PackageRecord()
    ensures RecordIs(PACKAGE_RECORD, 0, 0xFFFF_FFFF, 0x12, 0x14, 3, 0x14)
  {
    hide U16, U32;
    WordIs(PACKAGE_RECORD, 0);
    WordIs(PACKAGE_RECORD, 4);
    WordIs(PACKAGE_RECORD, 8);
    WordIs(PACKAGE_RECORD, 12);
    WordIs(PACKAGE_RECORD, 16);
  }

  lemma LabelRecord()
    ensures RecordIs(LABEL_RECORD, 0, 0x10, 3, 0xFFFF_FFFF, 1, 0x7F07_0142)
  {
    hide U16, U32;
    WordIs(LABEL_RECORD, 0);
    WordIs(LABEL_RECORD, 4);
    WordIs(LABEL_RECORD, 8);
    WordIs(LABEL_RECORD, 12);
    WordIs(LABEL_RECORD, 16);
  }

  lemma HoldsIff(t: seq<u8>, at: nat, record: seq<u8>, space: nat, name: nat, raw: nat, kind: nat, value: nat)
    requires |record| == 20 && RecordIs(record, 0, space, name, raw, kind, value)
    ensures Holds(t, at, record) <==> RecordIs(t, at, space, name, raw, kind, value)
  {
    hide U16, U32;
    if at + 20 <= |t| {
      RecordAt(t, at, t[at..at + 20]);
      SameRecord(t[at..at + 20], record, space, name, raw, kind, value);
    }
  }

  // --------------------------------------------------------------- when it works

  /** The bytes that a new string adds to the pool. */
  function Taken(value: Option<Text>): nat {
    if value.None? then 0 else (if |value.value| < 0x8000 then 4 else 6) + 2 * |value.value|
  }

  function Count(package: Option<Text>, launcher: Option<Text>): nat {
    (if package.Some? then 1 else 0) + (if launcher.Some? then 1 else 0)
  }

  /** The size of the patched file: both headers, the offsets, the strings on a multiple of four, the rest. */
  function NewSize(data: seq<u8>, package: Option<Text>, launcher: Option<Text>): nat
    requires 2464 <= |data|
  {
    248 + 4 * Count(package, launcher) + (2216 + Taken(package) + Taken(launcher) + 3) / 4 * 4 + (|data| - 2464)
  }

  /** The package attribute is where it is expected, and the new name has a length that can be written. */
  predicate PackageFits(data: seq<u8>, package: Option<Text>) {
    package.Some? ==> RecordIs(data, 0xA5C, 0xFFFF_FFFF, 0x12, 0x14, 3, 0x14) && |package.value| <= 0x7FFF_FFFF
  }

  predicate LabelFits(data: seq<u8>, launcher: Option<Text>) {
    launcher.Some? ==> RecordIs(data, 0xA94, 0x10, 3, 0xFFFF_FFFF, 1, 0x7F07_0142) && |launcher.value| <= 0x7FFF_FFFF
  }

  lemma TailRecord(data: seq<u8>, at: nat, space: nat, name: nat, raw: nat, kind: nat, value: nat)
    requires 2464 <= |data|
    ensures RecordIs(data, 2464 + at, space, name, raw, kind, value)
            <==> RecordIs(data[2464..], at, space, name, raw, kind, value)
  {
    hide U16, U32;
    if 2464 + at + 20 <= |data| {
      var b := data[2464 + at..2464 + at + 20];
      assert b == data[2464..][at..at + 20];
      RecordAt(data, 2464 + at, b);
      RecordAt(data[2464..], at, b);
    }
  }

  lemma PackageHeld(data: seq<u8>, package: Option<Text>)
    requires 2464 <= |data|
    ensures PackageFits(data, package)
            <==> (package.Some? ==> Holds(data[2464..], 188, PACKAGE_RECORD) && |package.value| <= 0x7FFF_FFFF)
  {
    hide RecordIs, Holds;
    PackageRecord();
    TailRecord(data, 188, 0xFFFF_FFFF, 0x12, 0x14, 3, 0x14);
    HoldsIff(data[2464..], 188, PACKAGE_RECORD, 0xFFFF_FFFF, 0x12, 0x14, 3, 0x14);
  }

  lemma LabelHeld(data: seq<u8>, launcher: Option<Text>)
    requires 2464 <= |data|
    ensures LabelFits(data, launcher)
            <==> (launcher.Some? ==> Holds(data[2464..], 244, LABEL_RECORD) && |launcher.value| <= 0x7FFF_FFFF)
  {
    hide RecordIs, Holds;
    LabelRecord();
    TailRecord(data, 244, 0x10, 3, 0xFFFF_FFFF, 1, 0x7F07_0142);
    HoldsIff(data[2464..], 244, LABEL_RECORD, 0x10, 3, 0xFFFF_FFFF, 1, 0x7F07_0142);
  }

  lemma StillHeld(t: seq<u8>, index: u32, record: seq<u8>)
    requires 208 <= |t|
    ensures Holds(Overwrite(t, 188, index), 244, record) <==> Holds(t, 244, record)
  {
    hide Overwrite;
    OverwriteElsewhere(t, 188, index);
    if 264 <= |t| {
      assert Overwrite(t, 188, index)[244..264] == t[244..264];
    }
  }

  lemma RoundIff(w: Work, value: Option<Text>, attribute: nat, record: seq<u8>)
    requires 2464 <= attribute && w.added <= 1
    ensures var r := Retarget(w, value, attribute, record);
            && (r.Some? <==> value.None? || (Holds(w.tail, attribute - 2464, record) && |value.value| <= 0x7FFF_FFFF
                                             && |w.strings| < 0x1_0000_0000))
            && (r.Some? ==>
                  && |r.value.strings| == |w.strings| + Taken(value) && |r.value.tail| == |w.tail|
                  && r.value.added == w.added + if value.Some? then 1 else 0)
  {
    hide Overwrite, Holds, Encoded;
    HoldsFits(w.tail, attribute - POOL_END, record);
  }

  lemma AssembledIff(data: seq<u8>, w: Work)
    requires 0 < w.added
    ensures Assemble(data, w).Some? <==> 248 + 4 * w.added + (|w.strings| + 3) / 4 * 4 + |w.tail| < 0x1_0000_0000
  {
    hide Bytes4, PoolHeader;
    PaddingAligns(|w.strings|);
  }

  /**
   * A manifest is patched exactly if its pool has the known layout, the attributes to set are in their
   * places, and the file stays small enough; with nothing to set, the known layout is enough.
   */
  lemma PatchedIff(data: seq<u8>, package: Option<Text>, launcher: Option<Text>)
    ensures PatchManifest(data, package, launcher).Some?
            <==> && PoolIs(data, 8, 2456, 53, 240)
                 && ((package.None? && launcher.None?)
                     || (2464 <= |data| && PackageFits(data, package) && LabelFits(data, launcher)
                         && NewSize(data, package, launcher) < 0x1_0000_0000))
  {
    hide KnownLayout, PoolIs, Retarget, Assemble, Holds, PackageFits, LabelFits;
    KnownIff(data);
    if 2464 <= |data| {
      PackageHeld(data, package);
      LabelHeld(data, launcher);
      var w := Start(data);
      RoundIff(w, package, PACKAGE_ATTRIBUTE, PACKAGE_RECORD);
      var first := Retarget(w, package, PACKAGE_ATTRIBUTE, PACKAGE_RECORD);
      if first.Some? {
        LabelStillHeld(w, package);
        RoundIff(first.value, launcher, LABEL_ATTRIBUTE, LABEL_RECORD);
        var second := Retarget(first.value, launcher, LABEL_ATTRIBUTE, LABEL_RECORD);
        if second.Some? && 0 < second.value.added {
          AssembledIff(data, second.value);
        }
      }
    }
  }

  lemma LabelStillHeld(w: Work, package: Option<Text>)
    requires Retarget(w, package, PACKAGE_ATTRIBUTE, PACKAGE_RECORD).Some?
    ensures var first := Retarget(w, package, PACKAGE_ATTRIBUTE, PACKAGE_RECORD).value;
            Holds(first.tail, 244, LABEL_RECORD) <==> Holds(w.tail, 244, LABEL_RECORD)
  {
    hide Overwrite, Holds, Utf16String, Bytes4;
    if package.Some? {
      HoldsFits(w.tail, 188, PACKAGE_RECORD);
      StillHeld(w.tail, COUNT + w.added, LABEL_RECORD);
    }
  }

  // -------------------------------------------------------------- what it says

  function Pooled(value: Option<Text>): seq<u8>
    requires value.Some? ==> |value.value| <= 0x7FFF_FFFF
  {
    if value.Some? then Utf16String(value.value) else []
  }

  function Slot(value: Option<Text>, offset: nat): seq<u8> {
    if value.Some? && offset < 0x1_0000_0000 then Bytes4(offset) else []
  }

  /** The parts that a patch puts together. */
  function Parts(data: seq<u8>, package: Option<Text>, launcher: Option<Text>): Work
    requires PatchManifest(data, package, launcher).Some? && 0 < Count(package, launcher)
  {
    Rounds(Start(data), package, launcher).value
  }

  lemma PartsAre(data: seq<u8>, package: Option<Text>, launcher: Option<Text>)
    requires PatchManifest(data, package, launcher).Some? && 0 < Count(package, launcher)
    ensures (package.Some? ==> |package.value| <= 0x7FFF_FFFF) && (launcher.Some? ==> |launcher.value| <= 0x7FFF_FFFF)
    ensures launcher.Some? ==> 2216 + Taken(package) < 0x1_0000_0000
    ensures var w := Parts(data, package, launcher);
            && w.added == Count(package, launcher) && |w.tail| == |data| - 2464
            && w.offsets == data[36..248] + Slot(package, 2216) + Slot(launcher, 2216 + Taken(package))
            && w.strings == data[248..2464] + Pooled(package) + Pooled(launcher)
            && Assemble(data, w) == PatchManifest(data, package, launcher)
  {
    hide KnownLayout, Overwrite, Holds, Encoded, Bytes4, Assemble, Prefix;
    HoldsFits(data[2464..], 188, PACKAGE_RECORD);
    if package.Some? {
      HoldsFits(Overwrite(data[2464..], 188, COUNT), 244, LABEL_RECORD);
    } else {
      HoldsFits(data[2464..], 244, LABEL_RECORD);
    }
  }

  lemma TailIs(data: seq<u8>, package: Option<Text>, launcher: Option<Text>)
    requires PatchManifest(data, package, launcher).Some? && 0 < Count(package, launcher)
    ensures package.Some? ==> 208 <= |data| - 2464
    ensures launcher.Some? ==> 264 <= |data| - 2464
    ensures var tail := data[2464..];
            var first := if package.Some? then Overwrite(tail, 188, 53) else tail;
            Parts(data, package, launcher).tail
            == if launcher.Some? then Overwrite(first, 244, if package.Some? then 54 else 53) else first
  {
    hide KnownLayout, Overwrite, Holds, Encoded, Bytes4, Assemble, Prefix;
    HoldsFits(data[2464..], 188, PACKAGE_RECORD);
    if package.Some? {
      HoldsFits(Overwrite(data[2464..], 188, COUNT), 244, LABEL_RECORD);
    } else {
      HoldsFits(data[2464..], 244, LABEL_RECORD);
    }
  }

  lemma Inner(r: seq<u8>, a: nat, b: nat, from: nat, to: nat)
    requires a <= b <= |r| && from <= to <= b - a
    ensures r[a..b][from..to] == r[a + from..a + to]
  {
    forall i | 0 <= i < to - from
      ensures r[a..b][from..to][i] == r[a + from..a + to][i]
    {
    }
  }

  lemma Pieces(header: seq<u8>, offsets: seq<u8>, strings: seq<u8>, padding: seq<u8>)
    ensures var pool := header + offsets + (strings + padding);
            var at := |header| + |offsets|;
            pool[0..|header|] == header && pool[|header|..at] == offsets && pool[at..at + |strings|] == strings
  {
  }

  lemma StringPieces(a: seq<u8>, b: seq<u8>, c: seq<u8>)
    ensures var s := a + b + c;
            s[|a|..|a| + |b|] == b && s[|a| + |b|..|s|] == c
  {
  }

  lemma AssembledHeads(data: seq<u8>, w: Work)
    requires 0 < w.added && Assemble(data, w).Some? && |w.offsets| == 4 * (53 + w.added)
    ensures var r := Assemble(data, w).value;
            && |r| == 248 + 4 * w.added + (|w.strings| + 3) / 4 * 4 + |w.tail| < 0x1_0000_0000
            && U16(r, 0) == 3 && U16(r, 2) == 8 && U32(r, 4) as int == |r| && r[|r| - |w.tail|..] == w.tail
  {
    hide U32, U16, PoolHeader, Padding, Zeros, Assemble;
    PaddingAligns(|w.strings|);
    AssembledIff(data, w);
    AssembledParts(data, w);
  }

  lemma AssembledPool(data: seq<u8>, w: Work)
    requires 0 < w.added && Assemble(data, w).Some? && |w.offsets| == 4 * (53 + w.added)
    ensures var r := Assemble(data, w).value;
            && PoolIs(r, 8, |r| - |w.tail| - 8, 53 + w.added, 240 + 4 * w.added)
            && 248 + 4 * w.added + |w.strings| <= |r|
            && r[36..248 + 4 * w.added] == w.offsets
            && r[248 + 4 * w.added..248 + 4 * w.added + |w.strings|] == w.strings
  {
    hide U32, U16, PoolHeader, Padding, Zeros, Assemble, PoolIs;
    PaddingAligns(|w.strings|);
    AssembledIff(data, w);
    AssembledParts(data, w);
    var r := Assemble(data, w).value;
    var size := 240 + 4 * w.added + |w.strings| + Padding(|w.strings|);
    var header := PoolHeader(size, 53 + w.added, 240 + 4 * w.added);
    Pieces(header, w.offsets, w.strings, Zeros(Padding(|w.strings|)));
    PoolBytes(header, size, 53 + w.added, 240 + 4 * w.added);
    Inner(r, 8, 8 + size, 0, 28);
    PoolAt(r, 8, header);
    Inner(r, 8, 8 + size, 28, 240 + 4 * w.added);
    Inner(r, 8, 8 + size, 240 + 4 * w.added, 240 + 4 * w.added + |w.strings|);
  }

  /** The assembled file, piece by piece. */
  lemma AssembledIs(data: seq<u8>, w: Work)
    requires 0 < w.added && Assemble(data, w).Some? && |w.offsets| == 4 * (53 + w.added)
    ensures var r := Assemble(data, w).value;
            var end := |r| - |w.tail|;
            && |r| == 248 + 4 * w.added + (|w.strings| + 3) / 4 * 4 + |w.tail| < 0x1_0000_0000
            && U16(r, 0) == 3 && U16(r, 2) == 8 && U32(r, 4) as int == |r|
            && PoolIs(r, 8, end - 8, 53 + w.added, 240 + 4 * w.added)
            && r[36..248 + 4 * w.added] == w.offsets
            && r[248 + 4 * w.added..248 + 4 * w.added + |w.strings|] == w.strings
            && r[end..] == w.tail
  {
    hide U32, U16, Assemble, PoolIs;
    AssembledHeads(data, w);
    AssembledPool(data, w);
  }

  /** The headers of the patched file: a manifest of this size, with a pool of this many strings. */
  lemma HeadersSay(data: seq<u8>, package: Option<Text>, launcher: Option<Text>, r: seq<u8>)
    requires PatchManifest(data, package, launcher) == Some(r) && 0 < Count(package, launcher) && 2464 <= |data|
    ensures var n := Count(package, launcher);
            && |r| == NewSize(data, package, launcher)
            && U16(r, 0) == 3 && U16(r, 2) == 8 && U32(r, 4) as int == |r|
            && PoolIs(r, 8, |r| - 8 - (|data| - 2464), 53 + n, 240 + 4 * n)
  {
    hide U32, U16, Assemble, PatchManifest, PoolIs, Utf16String, Parts, Bytes4;
    PartsAre(data, package, launcher);
    SizesAre(package, launcher);
    AssembledIs(data, Parts(data, package, launcher));
  }

  lemma SizesAre(package: Option<Text>, launcher: Option<Text>)
    requires (package.Some? ==> |package.value| <= 0x7FFF_FFFF) && (launcher.Some? ==> |launcher.value| <= 0x7FFF_FFFF)
    requires launcher.Some? ==> 2216 + Taken(package) < 0x1_0000_0000
    ensures |Pooled(package)| == Taken(package) && |Pooled(launcher)| == Taken(launcher)
    ensures |Slot(package, 2216) + Slot(launcher, 2216 + Taken(package))| == 4 * Count(package, launcher)
  {
    hide Bytes4, Encoded;
  }

  /** Every old string stays at its old offset, and the offsets stand where they stood. */
  lemma OldStringsStay(data: seq<u8>, package: Option<Text>, launcher: Option<Text>, r: seq<u8>)
    requires PatchManifest(data, package, launcher) == Some(r) && 0 < Count(package, launcher) && 2464 <= |data|
    ensures var n := Count(package, launcher);
            2464 + 4 * n <= |r| && r[36..248] == data[36..248] && r[248 + 4 * n..2464 + 4 * n] == data[248..2464]
  {
    hide U32, U16, Assemble, PatchManifest, PoolIs, Utf16String, Parts, Bytes4, Pooled, Slot;
    PartsAre(data, package, launcher);
    SizesAre(package, launcher);
    var w, n := Parts(data, package, launcher), Count(package, launcher);
    AssembledIs(data, w);
    Inner(r, 36, 248 + 4 * n, 0, 212);
    assert w.offsets[0..212] == data[36..248];
    Inner(r, 248 + 4 * n, 248 + 4 * n + |w.strings|, 0, 2216);
    assert w.strings[0..2216] == data[248..2464];
  }

  /** The new strings stand behind the old ones, one behind the other. */
  lemma NewStringsStand(data: seq<u8>, package: Option<Text>, launcher: Option<Text>, r: seq<u8>)
    requires PatchManifest(data, package, launcher) == Some(r) && 0 < Count(package, launcher) && 2464 <= |data|
    ensures (package.Some? ==> |package.value| <= 0x7FFF_FFFF) && (launcher.Some? ==> |launcher.value| <= 0x7FFF_FFFF)
    ensures var end := 2464 + 4 * Count(package, launcher);
            var middle := end + Taken(package);
            && middle + Taken(launcher) <= |r|
            && (package.Some? ==> r[end..middle] == Utf16String(package.value))
            && (launcher.Some? ==> r[middle..middle + Taken(launcher)] == Utf16String(launcher.value))
  {
    hide U32, U16, Assemble, PatchManifest, PoolIs, Utf16String, Parts, Bytes4, Slot, Taken, Pooled;
    PartsAre(data, package, launcher);
    SizesAre(package, launcher);
    var w, n := Parts(data, package, launcher), Count(package, launcher);
    AssembledIs(data, w);
    StringPieces(data[248..2464], Pooled(package), Pooled(launcher));
    Inner(r, 248 + 4 * n, 248 + 4 * n + |w.strings|, 2216, 2216 + Taken(package));
    Inner(r, 248 + 4 * n, 248 + 4 * n + |w.strings|, 2216 + Taken(package), |w.strings|);
    if package.Some? {
      PooledIs(package);
    }
    if launcher.Some? {
      PooledIs(launcher);
    }
  }

  lemma PooledIs(value: Option<Text>)
    requires value.Some? && |value.value| <= 0x7FFF_FFFF
    ensures Pooled(value) == Utf16String(value.value)
  {
  }

  /** The new offsets point behind the old strings. */
  lemma NewOffsetsPoint(data: seq<u8>, package: Option<Text>, launcher: Option<Text>, r: seq<u8>)
    requires PatchManifest(data, package, launcher) == Some(r) && 0 < Count(package, launcher) && 2464 <= |data|
    ensures 248 + 4 * Count(package, launcher) <= |r|
    ensures package.Some? ==> U32(r, 248) == 2216
    ensures launcher.Some? ==> U32(r, if package.Some? then 252 else 248) as int == 2216 + Taken(package)
  {
    hide U32, U16, Assemble, PatchManifest, PoolIs, Utf16String, Parts, Slot, Pooled, Taken;
    PartsAre(data, package, launcher);
    SizesAre(package, launcher);
    var w, n := Parts(data, package, launcher), Count(package, launcher);
    AssembledIs(data, w);
    StringPieces(data[36..248], Slot(package, 2216), Slot(launcher, 2216 + Taken(package)));
    if package.Some? {
      SlotIs(package, 2216);
      WordIn(r, 36, 248 + 4 * n, 212, 2216);
    }
    if launcher.Some? {
      SlotIs(launcher, 2216 + Taken(package));
      WordIn(r, 36, 248 + 4 * n, if package.Some? then 216 else 212, 2216 + Taken(package));
    }
  }

  lemma SlotIs(value: Option<Text>, offset: u32)
    requires value.Some?
    ensures Slot(value, offset) == Bytes4(offset)
  {
  }

  lemma WordIn(r: seq<u8>, from: nat, to: nat, at: nat, v: u32)
    requires from <= to <= |r| && at + 4 <= to - from && r[from..to][at..at + 4] == Bytes4(v)
    ensures U32(r, from + at) == v
  {
    hide U32;
    Inner(r, from, to, at, at + 4);
    var b := r[from + at..from + at + 4];
    U32Same(r, from + at, b, 0);
  }

  lemma WordsSay(index: u32)
    ensures var b := Words(index);
            U32(b, 0) == index && U16(b, 4) == 8 && b[6] == 0 && b[7] == 3 && U32(b, 8) == index
  {
    hide U32, U16, Bytes4, Bytes2;
    U32Same(Words(index), 0, Bytes4(index), 0);
    U16Same(Words(index), 4, Bytes2(8), 0);
    U32Same(Words(index), 8, Bytes4(index), 0);
  }

  lemma WordsStand(t: seq<u8>, at: nat, index: u32)
    requires at + 20 <= |t|
    ensures forall i :: 0 <= i < 12 ==> Overwrite(t, at, index)[at + 8 + i] == Words(index)[i]
  {
    hide Words;
  }

  /** A record after its retarget: namespace and name as they were, and twice the new index as a string. */
  lemma RecordRetargeted(t: seq<u8>, at: nat, index: u32, space: nat, name: nat, raw: nat, kind: nat, value: nat)
    requires RecordIs(t, at, space, name, raw, kind, value)
    ensures RecordIs(Overwrite(t, at, index), at, space, name, index, 3, index)
  {
    hide U32, U16, Words, Overwrite;
    var r := Overwrite(t, at, index);
    U32Off(t, at, index, at);
    U32Off(t, at, index, at + 4);
    WordsSay(index);
    WordsStand(t, at, index);
    U32Same(r, at + 8, Words(index), 0);
    U16Same(r, at + 12, Words(index), 4);
    assert r[at + 8 + 6] == Words(index)[6] && r[at + 8 + 7] == Words(index)[7];
    U32Same(r, at + 16, Words(index), 8);
  }

  lemma RecordKept(t: seq<u8>, at: nat, index: u32, other: nat, space: nat, name: nat, raw: nat, kind: nat, value: nat)
    requires at + 20 <= |t| && RecordIs(t, other, space, name, raw, kind, value) && Off(at, other, 20)
    ensures RecordIs(Overwrite(t, at, index), other, space, name, raw, kind, value)
  {
    hide U32, U16, Overwrite;
    OverwriteElsewhere(t, at, index);
    U32Off(t, at, index, other);
    U32Off(t, at, index, other + 4);
    U32Off(t, at, index, other + 8);
    U16Off(t, at, index, other + 12);
    U32Off(t, at, index, other + 16);
  }

  /**
   * Behind the pool nothing changes but the two attributes, which now hold the new strings: of the
   * package name record the last twelve bytes, and of the label record its last twelve.
   */
  lemma RecordsSay(data: seq<u8>, package: Option<Text>, launcher: Option<Text>, r: seq<u8>)
    requires PatchManifest(data, package, launcher) == Some(r) && 0 < Count(package, launcher) && 2464 <= |data|
    ensures |data| <= |r|
    ensures var moved := |r| - |data|;
            && (package.Some? ==> RecordIs(r, 0xA5C + moved, 0xFFFF_FFFF, 0x12, 53, 3, 53))
            && (launcher.Some? ==>
                  RecordIs(r, 0xA94 + moved, 0x10, 3, if package.Some? then 54 else 53, 3, if package.Some? then 54 else 53))
  {
    hide U32, U16, Assemble, PatchManifest, PoolIs, Utf16String, Parts, Bytes4, Pooled, Slot, Overwrite, RecordIs;
    PartsAre(data, package, launcher);
    SizesAre(package, launcher);
    TailIs(data, package, launcher);
    PatchedIff(data, package, launcher);
    var w := Parts(data, package, launcher);
    AssembledIs(data, w);
    TailRecords(data, package, launcher);
    var tail := |r| - |w.tail|;
    assert r == r[..tail] + w.tail;
    RecordInTail(r, tail, w.tail, 188);
    RecordInTail(r, tail, w.tail, 244);
  }

  lemma RecordInTail(r: seq<u8>, from: nat, t: seq<u8>, at: nat)
    requires from <= |r| && r[from..] == t
    ensures forall space, name, raw, kind, value ::
              RecordIs(t, at, space, name, raw, kind, value) ==> RecordIs(r, from + at, space, name, raw, kind, value)
  {
    hide U32, U16;
    if at + 20 <= |t| {
      var b := t[at..at + 20];
      assert b == r[from + at..from + at + 20];
      RecordAt(t, at, b);
      RecordAt(r, from + at, b);
    }
  }

  lemma TailRecords(data: seq<u8>, package: Option<Text>, launcher: Option<Text>)
    requires PatchManifest(data, package, launcher).Some? && 0 < Count(package, launcher) && 2464 <= |data|
    requires PackageFits(data, package) && LabelFits(data, launcher)
    ensures var t := Parts(data, package, launcher).tail;
            && (package.Some? ==> RecordIs(t, 188, 0xFFFF_FFFF, 0x12, 53, 3, 53))
            && (launcher.Some? ==>
                  RecordIs(t, 244, 0x10, 3, if package.Some? then 54 else 53, 3, if package.Some? then 54 else 53))
  {
    hide PatchManifest, Parts, Overwrite, RecordIs;
    TailIs(data, package, launcher);
    var tail := data[2464..];
    var first := if package.Some? then Overwrite(tail, 188, 53) else tail;
    if package.Some? {
      TailRecord(data, 188, 0xFFFF_FFFF, 0x12, 0x14, 3, 0x14);
      RecordRetargeted(tail, 188, 53, 0xFFFF_FFFF, 0x12, 0x14, 3, 0x14);
    }
    if launcher.Some? {
      TailRecord(data, 244, 0x10, 3, 0xFFFF_FFFF, 1, 0x7F07_0142);
      var index := if package.Some? then 54 else 53;
      if package.Some? {
        RecordKept(tail, 188, 53, 244, 0x10, 3, 0xFFFF_FFFF, 1, 0x7F07_0142);
        RecordKept(first, 244, index, 188, 0xFFFF_FFFF, 0x12, 53, 3, 53);
      }
      RecordRetargeted(first, 244, index, 0x10, 3, 0xFFFF_FFFF, 1, 0x7F07_0142);
    }
  }

  /** Every other byte behind the pool is as it was. */
  lemma TailStays(data: seq<u8>, package: Option<Text>, launcher: Option<Text>, r: seq<u8>, i: nat)
    requires PatchManifest(data, package, launcher) == Some(r) && 0 < Count(package, launcher)
    requires 2464 <= i < |data| && !(package.Some? && 0xA64 <= i < 0xA70) && !(launcher.Some? && 0xA9C <= i < 0xAA8)
    ensures |data| <= |r| && r[i + (|r| - |data|)] == data[i]
  {
    hide U32, U16, Assemble, PatchManifest, PoolIs, Utf16String, Parts, Bytes4, Pooled, Slot, Overwrite;
    PartsAre(data, package, launcher);
    SizesAre(package, launcher);
    TailIs(data, package, launcher);
    var w := Parts(data, package, launcher);
    AssembledIs(data, w);
    var tail := data[2464..];
    var first := if package.Some? then Overwrite(tail, 188, 53) else tail;
    if package.Some? {
      OverwriteElsewhere(tail, 188, 53);
    }
    if launcher.Some? {
      OverwriteElsewhere(first, 244, if package.Some? then 54 else 53);
    }
    assert w.tail[i - 2464] == tail[i - 2464];
    assert r[|r| - |w.tail|..][i - 2464] == w.tail[i - 2464];
  }
}
