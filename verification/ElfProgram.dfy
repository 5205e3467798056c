/**
 * What an injection means for the loader: the shift it chooses, the image of every segment, the
 * bytes of every section, and when the offsets stay congruent to the addresses.
 */
module ElfProgram {
  import opened Wrappers
  import opened Bytes
  import opened LittleEndian
  import opened Elf
  import opened ElfImage
  import opened ElfUnique

  // ---------------------------------------------------------------- the plan

  lemma RoundedDownIsMultiple(x: nat, m: nat)
    requires 0 < m
    ensures x - m < x - x % m <= x && (x - x % m) % m == 0
  {
    ModUnique(x - x % m, m, x / m, 0);
  }

  /** The round-up by `& -alignment` gives the least multiple of the alignment that suffices. */
  lemma ShiftRounds(required: nat, alignment: nat)
    requires 0 < required && 0 < alignment && OneBit(alignment)
    ensures required <= Shift(required, alignment) < required + alignment
    ensures Shift(required, alignment) % alignment == 0
  {
    hide AndMinus, OneBit;
    var x := required + alignment - 1;
    AndMinusRoundsDown(x, alignment);
    RoundedDownIsMultiple(x, alignment);
  }

  lemma PlanFits(data: seq<u8>, headers: seq<Header>, place: Place, size: nat)
    requires MakePlan(data, headers, place, size).Some?
    ensures var plan := MakePlan(data, headers, place, size).value;
            && Fits(plan, place, size) && ZeroFilled(data, place.offset, plan.insertion)
            && EndsAt(headers[plan.executable], place)
  {
    hide AndMinus, OneBit, Shift, ZeroFilled;
    var next := NextLoad(headers, place.vaddr + size, |headers|).value;
    var required := Required(headers[next].offset - place.offset, size);
    if required > 0 {
      ShiftRounds(required, headers[next].alignment);
    }
  }

  ghost function PlanFor(data: seq<u8>, place: Place, size: nat): Option<Plan>
    requires Verified(data)
  {
    MakePlan(data, HeadersOf(data), place, size)
  }

  /** The injection finds its cave, and the layout is one that the code takes for granted. */
  ghost predicate Placed(data: seq<u8>, place: Place, size: nat) {
    && Verified(data) && HEADER_SIZE <= place.offset && PlanFor(data, place, size).Some?
    && Laid(data, place.offset, PlanFor(data, place, size).value.insertion)
  }

  ghost function ThePlan(data: seq<u8>, place: Place, size: nat): Plan
    requires Placed(data, place, size)
  {
    PlanFor(data, place, size).value
  }

  /** A successful injection yields exactly the file described, with every segment congruent. */
  lemma InjectDescribed(data: seq<u8>, place: Place, payload: seq<u8>)
    requires Placed(data, place, |payload|)
    requires Inject(data, place, payload).Some?
    ensures var plan := ThePlan(data, place, |payload|);
            && Ready(data, HeadersOf(data), plan, |payload|) && Fits(plan, place, |payload|)
            && Inject(data, place, payload).value.shift == plan.shift
            && Injected(data, plan, place, payload, Inject(data, place, payload).value.bytes)
            && Inject(data, place, payload).value.bytes == Written(data, HeadersOf(data), plan, place, payload)
  {
    hide U32, Written, MakePlan, Writable, Congruent, Laid, Injected;
    LaidBounds(data, place.offset, ThePlan(data, place, |payload|).insertion);
    PlanFits(data, HeadersOf(data), place, |payload|);
    WrittenIsInjected(data, ThePlan(data, place, |payload|), place, payload);
  }

  // ------------------------------------------------- the tables of the result

  lemma FixedByte(data: seq<u8>, plan: Plan, place: Place, payload: seq<u8>, r: seq<u8>, i: nat)
    requires Laid(data, place.offset, plan.insertion)
    requires Fits(plan, place, |payload|) && Injected(data, plan, place, payload, r)
    requires i < HEADER_SIZE && !(32 <= i < 36)
    ensures i < |r| && r[i] == data[i]
  {
    hide U32, Ready, HeadersMoved, SectionsMoved, CaveHolds, InPlaces, ProgramHeaders;
    SectionWordsSpaced(data, U32(data, 32));
    assert !InPlaces(SectionWords(data, U32(data, 32)), i);
    assert Landing(plan, i) == i;
  }

  lemma SameHeaderFields(data: seq<u8>, plan: Plan, place: Place, payload: seq<u8>, r: seq<u8>)
    requires Laid(data, place.offset, plan.insertion)
    requires Fits(plan, place, |payload|) && Injected(data, plan, place, payload, r)
    ensures Verified(r) && U32(r, 28) == U32(data, 28)
    ensures U16(r, 44) == U16(data, 44) && U16(r, 48) == U16(data, 48)
  {
    hide Laid, Ready, Injected, Writable, ProgramHeaders, U32, HeadersOf, Word;
    LaidBounds(data, place.offset, plan.insertion);
    forall i | 0 <= i < HEADER_SIZE && !(32 <= i < 36)
      ensures i < |r| && r[i] == data[i]
    {
      FixedByte(data, plan, place, payload, r, i);
    }
    FixedByte(data, plan, place, payload, r, HEADER_SIZE - 1);
    U32Same(r, 28, data, 28);
  }

  /** Read back, the result has the old headers, moved, and the executable one grown. */
  lemma ResultHeaders(data: seq<u8>, plan: Plan, place: Place, payload: seq<u8>, r: seq<u8>)
    requires Laid(data, place.offset, plan.insertion)
    requires Fits(plan, place, |payload|) && Injected(data, plan, place, payload, r)
    ensures Verified(r) && ProgramHeaders(r).Some? && TableEnd(r) == TableEnd(data)
    ensures |HeadersOf(r)| == |HeadersOf(data)|
    ensures forall k :: 0 <= k < |HeadersOf(data)| ==> HeadersOf(r)[k] == MovedHeader(HeadersOf(data)[k], plan, k, |payload|)
  {
    hide U32, U16, Laid, Ready, HeaderAt, MovedHeader, Writable, OldBytes, SectionsMoved, Verified;
    LaidBounds(data, place.offset, plan.insertion);
    HeaderCount(data, place.offset, plan.insertion);
    SameHeaderFields(data, plan, place, payload, r);
    assert HeadersOf(r) == Entries(r, U32(r, 28), U16(r, 44));
    assert forall k :: 0 <= k < |HeadersOf(data)| ==> HeadersOf(r)[k] == HeaderAt(r, SegmentHeader(data, k));
  }

  /** And the old section offsets, moved, in a table that moved along. */
  lemma ResultSections(data: seq<u8>, plan: Plan, place: Place, payload: seq<u8>, r: seq<u8>)
    requires Laid(data, place.offset, plan.insertion)
    requires Fits(plan, place, |payload|) && Injected(data, plan, place, payload, r)
    ensures Verified(r) && U16(r, 48) == U16(data, 48) && SectionsEnd(r) <= |r| && SectionsEnd(data) <= |data|
    ensures U32(r, 32) == NewSectionTable(U32(data, 32), plan)
    ensures forall k :: 0 <= k < U16(data, 48) ==> SectionOffset(r, k) == MovedOffset(SectionOffset(data, k), plan)
  {
    hide U32, U16, Laid, Ready, HeaderAt, HeadersMoved, MovedHeader, Writable, OldBytes, Verified, MovedOffset;
    SectionsInFile(data, place.offset, plan.insertion);
    SameHeaderFields(data, plan, place, payload, r);
  }

  // -------------------------------------------------------- the loaded image

  /** A byte range of the file that the injection neither fills nor tears apart. */
  predicate Clear(from: nat, len: nat, cave: nat, insertion: nat) {
    len == 0 || from + len <= cave || insertion <= from
  }

  lemma RangeKept(data: seq<u8>, plan: Plan, place: Place, payload: seq<u8>, r: seq<u8>, from: nat, len: nat, j: nat)
    requires Laid(data, place.offset, plan.insertion)
    requires Fits(plan, place, |payload|) && Injected(data, plan, place, payload, r)
    requires from + len <= |data| && Clear(from, len, place.offset, plan.insertion)
    requires j < len && !TableByte(data, from + j)
    ensures MovedOffset(from, plan) + j < |r| && r[MovedOffset(from, plan) + j] == data[from + j]
  {
    hide U32, Laid, Ready, HeadersMoved, SectionsMoved, CaveHolds, TableByte;
    LaidBounds(data, place.offset, plan.insertion);
    assert Landing(plan, from + j) == MovedOffset(from, plan) + j;
  }

  predicate InFile(data: seq<u8>, h: Header) {
    h.offset + h.filesz <= |data|
  }

  /** What the loader puts `j` bytes into a segment: the file's byte, then zeros (gABI chapter 5). */
  function ImageAt(data: seq<u8>, h: Header, j: nat): u8
    requires InFile(data, h)
  {
    if j < h.filesz then data[h.offset + j] else 0
  }

  /** The image byte comes from a word of the tables that the injection may rewrite. */
  ghost predicate FromTable(data: seq<u8>, h: Header, j: nat)
    requires Verified(data)
  {
    j < h.filesz && TableByte(data, h.offset + j)
  }

  /** The same segment before and after: same addresses, same bytes, outside the tables. */
  ghost predicate SameImage(data: seq<u8>, h: Header, r: seq<u8>, h': Header)
    requires Verified(data)
  {
    && h' == h.(offset := h'.offset) && InFile(data, h) && InFile(r, h')
    && forall j :: 0 <= j < h.memsz && !FromTable(data, h, j) ==> ImageAt(r, h', j) == ImageAt(data, h, j)
  }

  /** Every other segment loads as before. */
  lemma SegmentImageKept(data: seq<u8>, place: Place, payload: seq<u8>, k: nat)
    requires Placed(data, place, |payload|) && Inject(data, place, payload).Some?
    requires k < |HeadersOf(data)| && k != ThePlan(data, place, |payload|).executable
    requires var h := HeadersOf(data)[k];
             InFile(data, h) && Clear(h.offset, h.filesz, place.offset, ThePlan(data, place, |payload|).insertion)
    ensures var r := Inject(data, place, payload).value.bytes;
            Verified(r) && k < |HeadersOf(r)| && SameImage(data, HeadersOf(data)[k], r, HeadersOf(r)[k])
  {
    hide U32, Inject, PlanFor, Ready, Injected, Laid, Fits, TableByte, HeadersOf, Written, Clear, MovedOffset;
    var plan := ThePlan(data, place, |payload|);
    InjectDescribed(data, place, payload);
    var r := Inject(data, place, payload).value.bytes;
    ResultHeaders(data, plan, place, payload, r);
    MovedImage(data, plan, place, payload, r, HeadersOf(data)[k]);
    assert HeadersOf(r)[k] == MovedHeader(HeadersOf(data)[k], plan, k, |payload|);
  }

  lemma MovedImage(data: seq<u8>, plan: Plan, place: Place, payload: seq<u8>, r: seq<u8>, h: Header)
    requires Laid(data, place.offset, plan.insertion)
    requires Fits(plan, place, |payload|) && Injected(data, plan, place, payload, r)
    requires InFile(data, h) && Clear(h.offset, h.filesz, place.offset, plan.insertion)
    ensures SameImage(data, h, r, h.(offset := MovedOffset(h.offset, plan)))
  {
    hide U32, Laid, Ready, OldBytes, HeadersMoved, SectionsMoved, CaveHolds, TableByte;
    LaidBounds(data, place.offset, plan.insertion);
    var h' := h.(offset := MovedOffset(h.offset, plan));
    forall j | 0 <= j < h.memsz && !FromTable(data, h, j)
      ensures ImageAt(r, h', j) == ImageAt(data, h, j)
    {
      if j < h.filesz {
        RangeKept(data, plan, place, payload, r, h.offset, h.filesz, j);
      }
    }
  }

  lemma LowestFlag(flags: nat)
    ensures And(flags, 1) != 0 <==> flags % 2 == 1
  {
    assert And(flags / 2, 0) == 0;
  }

  /**
   * The executable segment keeps its file bytes and the payload follows them, if and only if the
   * segment itself is not pushed behind the payload, as only an empty one can be.  The payload is
   * loaded at the address asked for exactly when the segment had no zero-filled tail.  What the
   * payload becomes part of is a load segment with the execute flag.
   */
  lemma ExecutableImage(data: seq<u8>, place: Place, payload: seq<u8>)
    requires Placed(data, place, |payload|) && Inject(data, place, payload).Some?
    ensures var plan := ThePlan(data, place, |payload|);
            var e := plan.executable;
            var r := Inject(data, place, payload).value.bytes;
            && Verified(r) && |HeadersOf(r)| == |HeadersOf(data)| && e < |HeadersOf(r)|
            && var h := HeadersOf(data)[e]; var h' := HeadersOf(r)[e];
               && (Appended(data, h, r, h', payload) <==> !Moves(h.offset, plan))
               && (0 < h.filesz ==> !Moves(h.offset, plan))
               && (h'.vaddr + h.filesz == place.vaddr <==> h.filesz == h.memsz)
               && h'.kind == 1 && h'.flags % 2 == 1
  {
    hide U32, Inject, Ready, Injected, Laid, TableByte, HeadersOf, Written, MakePlan;
    var plan := ThePlan(data, place, |payload|);
    InjectDescribed(data, place, payload);
    PlanFits(data, HeadersOf(data), place, |payload|);
    var r := Inject(data, place, payload).value.bytes;
    ResultHeaders(data, plan, place, payload, r);
    var h := HeadersOf(data)[plan.executable];
    LowestFlag(h.flags);
    if !Moves(h.offset, plan) {
      ExecutableMoved(data, plan, place, payload, r, h, HeadersOf(r)[plan.executable]);
    }
  }

  ghost predicate Appended(data: seq<u8>, h: Header, r: seq<u8>, h': Header, payload: seq<u8>)
    requires Verified(data)
  {
    && h'.vaddr == h.vaddr && h'.offset == h.offset && InFile(data, h) && InFile(r, h')
    && h'.filesz == h.filesz + |payload| && h'.memsz == h.memsz + |payload|
    && (forall j :: 0 <= j < h.filesz && !FromTable(data, h, j) ==> ImageAt(r, h', j) == ImageAt(data, h, j))
    && (forall j :: 0 <= j < |payload| ==> ImageAt(r, h', h.filesz + j) == payload[j])
  }

  lemma ExecutableMoved(data: seq<u8>, plan: Plan, place: Place, payload: seq<u8>, r: seq<u8>, h: Header, h': Header)
    requires Laid(data, place.offset, plan.insertion)
    requires Fits(plan, place, |payload|) && Injected(data, plan, place, payload, r)
    requires h.offset + h.filesz == place.offset && !Moves(h.offset, plan)
    requires h' == MovedHeader(h, plan, plan.executable, |payload|)
    ensures Appended(data, h, r, h', payload)
  {
    hide U32, Laid, Ready, OldBytes, HeadersMoved, SectionsMoved, TableByte, HeadersOf;
    LaidBounds(data, place.offset, plan.insertion);
    assert |r| == |data| + plan.shift;
    forall j | 0 <= j < h.filesz && !FromTable(data, h, j)
      ensures MovedOffset(h.offset, plan) + j < |r| && r[MovedOffset(h.offset, plan) + j] == data[h.offset + j]
    {
      RangeKept(data, plan, place, payload, r, h.offset, h.filesz, j);
    }
  }

  // ---------------------------------------------------------------- sections

  /** A section that is not torn apart keeps its bytes at the offset its header now gives. */
  lemma SectionBytesKept(data: seq<u8>, place: Place, payload: seq<u8>, k: nat, len: nat, j: nat)
    requires Placed(data, place, |payload|) && Inject(data, place, payload).Some?
    requires k < U16(data, 48) && SectionsEnd(data) <= |data| && SectionOffset(data, k) + len <= |data|
    requires Clear(SectionOffset(data, k), len, place.offset, ThePlan(data, place, |payload|).insertion)
    requires j < len && !TableByte(data, SectionOffset(data, k) + j)
    ensures var r := Inject(data, place, payload).value.bytes;
            && Verified(r) && U16(r, 48) == U16(data, 48) && SectionsEnd(r) <= |r|
            && SectionOffset(r, k) + j < |r| && r[SectionOffset(r, k) + j] == data[SectionOffset(data, k) + j]
  {
    hide U32, Inject, Ready, Injected, Laid, Fits, TableByte, HeadersOf, Written, MovedOffset, MakePlan, SectionOffset,
      Clear, Verified;
    var plan := ThePlan(data, place, |payload|);
    InjectDescribed(data, place, payload);
    var r := Inject(data, place, payload).value.bytes;
    ResultSections(data, plan, place, payload, r);
    RangeKept(data, plan, place, payload, r, SectionOffset(data, k), len, j);
  }

  // -------------------------------------------------------------- congruence

  lemma ShiftedMod(o: nat, s: nat, v: nat, a: nat)
    requires 0 < a && o % a == v % a
    ensures (o + s) % a == v % a <==> s % a == 0
  {
    var m, t := o % a, s % a;
    assert o == a * (o / a) + m && s == a * (s / a) + t;
    if m + t < a {
      SplitMod(o, s, a, m + t, o / a + s / a);
    } else {
      SplitMod(o, s, a, m + t - a, o / a + s / a + 1);
    }
  }

  lemma SplitMod(o: nat, s: nat, a: nat, m: int, q: int)
    requires 0 < a && 0 <= m < a && o + s == a * q + m
    ensures (o + s) % a == m
  {
    ModUnique(o + s, a, q, m);
  }

  /** The shift is a multiple of the alignment of every load segment that it moves. */
  predicate MovesEvenly(headers: seq<Header>, plan: Plan) {
    forall k :: 0 <= k < |headers| && headers[k].kind == LOAD && headers[k].alignment != 0
                && Moves(headers[k].offset, plan) ==>
      plan.shift % headers[k].alignment == 0
  }

  lemma CongruenceKept(headers: seq<Header>, plan: Plan, size: nat, after: seq<Header>)
    requires |after| == |headers| && Congruent(headers) && plan.executable < |headers|
    requires forall k :: 0 <= k < |headers| ==> after[k] == MovedHeader(headers[k], plan, k, size)
    ensures Congruent(after) <==> MovesEvenly(headers, plan)
  {
    forall k | 0 <= k < |headers| && headers[k].kind == LOAD && headers[k].alignment != 0
      ensures after[k].kind == LOAD && after[k].alignment == headers[k].alignment
      ensures after[k].offset % after[k].alignment == after[k].vaddr % after[k].alignment
              <==> (Moves(headers[k].offset, plan) ==> plan.shift % headers[k].alignment == 0)
    {
      if Moves(headers[k].offset, plan) {
        ShiftedMod(headers[k].offset, plan.shift, headers[k].vaddr, headers[k].alignment);
      }
    }
    assert forall k :: 0 <= k < |headers| && after[k].kind == LOAD && after[k].alignment != 0 ==> headers[k].kind == LOAD;
  }

  /**
   * From a congruent file, an injection that finds its cave succeeds exactly when every number fits
   * its word and the shift suits every load segment it moves.
   */
  lemma InjectSucceeds(data: seq<u8>, place: Place, payload: seq<u8>)
    requires Placed(data, place, |payload|) && Congruent(HeadersOf(data))
    ensures var plan := ThePlan(data, place, |payload|);
            Inject(data, place, payload).Some?
            <==> Writable(data, HeadersOf(data), plan, |payload|) && MovesEvenly(HeadersOf(data), plan)
  {
    hide U32, Injected, TableByte, Written, MakePlan, Congruent, MovesEvenly, Writable, Laid;
    var plan := ThePlan(data, place, |payload|);
    var headers := HeadersOf(data);
    LaidBounds(data, place.offset, plan.insertion);
    LaidParses(data, place.offset, plan.insertion);
    PlanFits(data, headers, place, |payload|);
    if Writable(data, headers, plan, |payload|) {
      var r := Written(data, headers, plan, place, payload);
      WrittenIsInjected(data, plan, place, payload);
      ResultHeaders(data, plan, place, payload, r);
      CongruenceKept(headers, plan, |payload|, HeadersOf(r));
    }
  }

  lemma LaidParses(data: seq<u8>, cave: nat, insertion: nat)
    requires Laid(data, cave, insertion)
    ensures Verified(data) && ProgramHeaders(data).Some?
  {
    hide U32, ProgramHeaders;
  }
}
