/**
 * When an injection finds its place, and which place that is, told from the bytes of the file: the
 * fields of the headers (gABI chapters 4 and 5), the search, and what must fit a word.
 */
module ElfPlan {
  import opened Wrappers
  import opened Bytes
  import opened LittleEndian
  import opened Elf
  import opened ElfImage
  import opened ElfProgram

  // ------------------------------------------------------------------ fields

  /** A file that `verify_elf32` accepts is long enough for its header and has entries of 32 and 40 bytes. */
  lemma VerifiedIff(data: seq<u8>)
    ensures Verified(data) <==> 52 <= |data| && U16(data, 42) == 32 && U16(data, 46) == 40
  {
  }

  /** The program headers: `phnum` entries of eight words from `phoff` on, if the file holds them all. */
  lemma HeaderFields(data: seq<u8>, k: nat)
    requires Verified(data)
    ensures var found := ProgramHeaders(data);
            && (found.Some? <==> U32(data, 28) + 32 * U16(data, 44) <= |data|)
            && (found.Some? ==> |found.value| == U16(data, 44))
            && (found.Some? && k < U16(data, 44) ==>
                  var at, h := U32(data, 28) + 32 * k, found.value[k];
                  && h.kind == U32(data, at) && h.offset == U32(data, at + 4) && h.vaddr == U32(data, at + 8)
                  && h.paddr == U32(data, at + 12) && h.filesz == U32(data, at + 16) && h.memsz == U32(data, at + 20)
                  && h.flags == U32(data, at + 24) && h.alignment == U32(data, at + 28))
  {
    hide U32, U16;
  }

  // ------------------------------------------------------------------ search

  /** An executable load segment that ends where the cave begins, in the file and in memory. */
  predicate GrowsInto(h: Header, place: Place) {
    h.kind == 1 && h.flags % 2 == 1 && h.vaddr + h.memsz == place.vaddr && h.offset + h.filesz == place.offset
  }

  predicate LoadsBehind(h: Header, bound: nat) {
    h.kind == 1 && bound <= h.vaddr
  }

  /** The load segment with the least address from `bound` on, the first of equals. */
  predicate IsNext(headers: seq<Header>, bound: nat, n: nat) {
    && n < |headers| && LoadsBehind(headers[n], bound)
    && forall k :: 0 <= k < |headers| && LoadsBehind(headers[k], bound) ==>
         headers[n].vaddr <= headers[k].vaddr && (k < n ==> headers[n].vaddr < headers[k].vaddr)
  }

  ghost predicate PowerOfTwo(a: nat) {
    exists n: nat :: a == Pow2(n)
  }

  /** The cave before segment `h` is there and empty, and can be widened if it is too small. */
  ghost predicate CaveServes(data: seq<u8>, h: Header, place: Place, size: nat) {
    && place.offset <= h.offset
    && (forall i :: place.offset <= i < h.offset && i < |data| ==> data[i] == 0)
    && (place.offset + size <= h.offset || PowerOfTwo(h.alignment))
  }

  ghost predicate Finds(data: seq<u8>, headers: seq<Header>, place: Place, size: nat) {
    && (exists k :: 0 <= k < |headers| && GrowsInto(headers[k], place))
    && exists n: nat :: IsNext(headers, place.vaddr + size, n) && CaveServes(data, headers[n], place, size)
  }

  lemma {:induction false} PowerHasOneBit(n: nat)
    ensures OneBit(Pow2(n))
  {
    if n != 0 {
      PowerHasOneBit(n - 1);
      assert And(Pow2(n), Pow2(n) - 1) == 2 * And(Pow2(n - 1), Pow2(n - 1) - 1);
    }
  }

  lemma {:induction false} OneBitIsPower(a: nat)
    requires 0 < a && OneBit(a)
    ensures PowerOfTwo(a)
  {
    if a == 1 {
      assert a == Pow2(0);
    } else {
      OneBitHalves(a);
      OneBitIsPower(a / 2);
      var n: nat :| a / 2 == Pow2(n);
      assert a == Pow2(n + 1);
    }
  }

  lemma OneBitIff(a: nat)
    ensures PowerOfTwo(a) <==> 0 < a && OneBit(a)
  {
    if a != 0 && OneBit(a) {
      OneBitIsPower(a);
    }
    if n: nat :| a == Pow2(n) {
      PowerHasOneBit(n);
    }
  }

  lemma EndsAtIff(h: Header, place: Place)
    ensures EndsAt(h, place) <==> GrowsInto(h, place)
  {
    LowestFlag(h.flags);
  }

  lemma ExecutableIs(headers: seq<Header>, place: Place)
    ensures var r := Executable(headers, place, |headers|);
            && (r.Some? <==> exists k :: 0 <= k < |headers| && GrowsInto(headers[k], place))
            && (r.Some? ==> r.value < |headers| && GrowsInto(headers[r.value], place)
                            && forall k :: 0 <= k < r.value ==> !GrowsInto(headers[k], place))
  {
    hide EndsAt, Executable, GrowsInto;
    forall k | 0 <= k < |headers|
      ensures EndsAt(headers[k], place) <==> GrowsInto(headers[k], place)
    {
      EndsAtIff(headers[k], place);
    }
  }

  lemma {:induction false} FirstOfEquals(headers: seq<Header>, bound: nat, n: nat)
    requires n <= |headers|
    ensures var r := NextLoad(headers, bound, n);
            r.Some? ==> forall k :: 0 <= k < r.value && Follows(headers[k], bound) ==> headers[r.value].vaddr < headers[k].vaddr
  {
    hide Follows;
    if n != 0 {
      FirstOfEquals(headers, bound, n - 1);
    }
  }

  lemma NextIs(headers: seq<Header>, bound: nat)
    ensures var r := NextLoad(headers, bound, |headers|);
            && (r.Some? ==> IsNext(headers, bound, r.value))
            && forall n: nat :: IsNext(headers, bound, n) ==> r == Some(n)
  {
    hide NextLoad;
    FirstOfEquals(headers, bound, |headers|);
    var r := NextLoad(headers, bound, |headers|);
    forall n: nat | IsNext(headers, bound, n)
      ensures r == Some(n)
    {
      assert Follows(headers[n], bound);
    }
  }

  /**
   * A plan is found exactly if an executable load segment ends at the cave, a load segment follows
   * the payload, the cave before it is empty, and its alignment lets the cave grow if it has to.
   */
  lemma PlanFoundIff(data: seq<u8>, headers: seq<Header>, place: Place, size: nat)
    ensures MakePlan(data, headers, place, size).Some? <==> Finds(data, headers, place, size)
  {
    hide Executable, NextLoad, EndsAt, Follows, OneBit, Shift, GrowsInto, IsNext, PowerOfTwo;
    ExecutableIs(headers, place);
    NextIs(headers, place.vaddr + size);
    var next := NextLoad(headers, place.vaddr + size, |headers|);
    if next.Some? {
      OneBitIff(headers[next.value].alignment);
    }
  }

  /**
   * The plan found grows the first such segment, inserts before the next load segment, and adds the
   * least multiple of that segment's alignment by which the cave then holds the payload.
   */
  lemma PlanIs(data: seq<u8>, headers: seq<Header>, place: Place, size: nat, n: nat)
    requires MakePlan(data, headers, place, size).Some? && IsNext(headers, place.vaddr + size, n)
    ensures var plan, alignment := MakePlan(data, headers, place, size).value, headers[n].alignment;
            && plan.executable < |headers| && GrowsInto(headers[plan.executable], place)
            && (forall k :: 0 <= k < plan.executable ==> !GrowsInto(headers[k], place))
            && plan.insertion == headers[n].offset
            && (place.offset + size <= plan.insertion ==> plan.shift == 0)
            && (plan.insertion < place.offset + size ==>
                  && 0 < alignment && plan.shift % alignment == 0
                  && place.offset + size <= plan.insertion + plan.shift < place.offset + size + alignment)
  {
    hide Executable, NextLoad, EndsAt, Follows, OneBit, Shift, GrowsInto, IsNext;
    ExecutableIs(headers, place);
    NextIs(headers, place.vaddr + size);
    var required := Required(headers[n].offset - place.offset, size);
    if required > 0 {
      ShiftRounds(required, headers[n].alignment);
    } else {
      NoShift(headers[n].alignment);
    }
  }

  lemma NoShift(alignment: nat)
    ensures Shift(0, alignment) == 0
  {
  }

  // ------------------------------------------------------------------- words

  /** An offset that must move, and then does not fit its word any more. */
  predicate Outgrows(offset: nat, plan: Plan) {
    0 < plan.shift && 0 < offset && plan.insertion <= offset && 0x1_0000_0000 <= offset + plan.shift
  }

  /** The offset that section header `k` gives: the fifth word of an entry of 40 bytes. */
  function SectionAt(data: seq<u8>, k: nat): nat
    requires 52 <= |data| && k < U16(data, 48) && U32(data, 32) + 40 * U16(data, 48) <= |data|
  {
    U32(data, U32(data, 32) + 40 * k + 16)
  }

  /** What the writes of an injection need: a section table in the file, and words that hold the new numbers. */
  lemma WritableIff(data: seq<u8>, headers: seq<Header>, plan: Plan, size: nat)
    requires Verified(data) && ProgramHeaders(data) == Some(headers) && plan.executable < |headers|
    ensures Writable(data, headers, plan, size)
            <==> && U32(data, 32) + 40 * U16(data, 48) <= |data|
                 && (plan.insertion <= U32(data, 32) ==> U32(data, 32) + plan.shift < 0x1_0000_0000)
                 && (forall k :: 0 <= k < |headers| ==> !Outgrows(headers[k].offset, plan))
                 && headers[plan.executable].filesz + size < 0x1_0000_0000
                 && headers[plan.executable].memsz + size < 0x1_0000_0000
                 && forall k :: 0 <= k < U16(data, 48) ==> !Outgrows(SectionAt(data, k), plan)
  {
    hide U32, U16, Outgrows, MovedOffset, ProgramHeaders;
    forall k | 0 <= k < |headers|
      ensures InWord(MovedOffset(headers[k].offset, plan)) <==> !Outgrows(headers[k].offset, plan)
    {
      OffsetIsWord(data, headers, k);
      FitsIff(headers[k].offset, plan);
    }
    TableFits(data, plan);
    if U32(data, 32) + 40 * U16(data, 48) <= |data| {
      SectionsFit(data, plan);
    }
  }

  lemma TableFits(data: seq<u8>, plan: Plan)
    requires Verified(data)
    ensures InWord(NewSectionTable(U32(data, 32), plan))
            <==> (plan.insertion <= U32(data, 32) ==> U32(data, 32) + plan.shift < 0x1_0000_0000)
  {
    hide U32;
  }

  lemma SectionsFit(data: seq<u8>, plan: Plan)
    requires Verified(data) && U32(data, 32) + 40 * U16(data, 48) <= |data|
    ensures U32(data, 32) + SECTION_HEADER_SIZE * U16(data, 48) <= |data|
    ensures (forall k :: 0 <= k < U16(data, 48) ==> InWord(MovedOffset(SectionOffset(data, k), plan)))
            <==> forall k :: 0 <= k < U16(data, 48) ==> !Outgrows(SectionAt(data, k), plan)
  {
    hide U32, U16, Outgrows, MovedOffset, InWord, Verified;
    HeaderIsThere(data);
    forall k | 0 <= k < U16(data, 48)
      ensures InWord(MovedOffset(SectionOffset(data, k), plan))
              <==> !Outgrows(SectionAt(data, k), plan)
    {
      FitsIff(SectionOffset(data, k), plan);
    }
  }

  lemma HeaderIsThere(data: seq<u8>)
    requires Verified(data)
    ensures 52 <= |data|
  {
  }

  lemma OffsetIsWord(data: seq<u8>, headers: seq<Header>, k: nat)
    requires Verified(data) && ProgramHeaders(data) == Some(headers) && k < |headers|
    ensures headers[k].offset < 0x1_0000_0000
  {
    hide U16, U32;
  }

  lemma FitsIff(offset: nat, plan: Plan)
    requires offset < 0x1_0000_0000
    ensures InWord(MovedOffset(offset, plan)) <==> !Outgrows(offset, plan)
  {
  }

  /** An injection that succeeds has found its plan; without one it raises. */
  lemma InjectionNeedsPlan(data: seq<u8>, place: Place, payload: seq<u8>)
    requires Verified(data) && HEADER_SIZE <= place.offset && Inject(data, place, payload).Some?
    ensures ProgramHeaders(data).Some? && Finds(data, HeadersOf(data), place, |payload|)
  {
    hide MakePlan, Written, Writable, Finds, Congruent, Verified, ProgramHeaders;
    PlanFoundIff(data, HeadersOf(data), place, |payload|);
  }
}
