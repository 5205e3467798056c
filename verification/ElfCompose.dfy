/**
 * Two injections in a row are one injection of the concatenated payload: nickname_patch.py injects
 * behind the payload that patch_apk.py injected before.
 */
module ElfCompose {
  import opened Wrappers
  import opened Bytes
  import opened LittleEndian
  import opened Elf
  import opened ElfImage
  import opened ElfUnique
  import opened ElfProgram

  /** `r` is the result of injecting `payload` under `plan`. */
  ghost predicate Yields(data: seq<u8>, plan: Plan, place: Place, payload: seq<u8>, r: seq<u8>) {
    && Verified(data) && Laid(data, place.offset, plan.insertion)
    && Fits(plan, place, |payload|) && Injected(data, plan, place, payload, r)
  }

  function Behind(place: Place, size: nat): Place {
    Place(place.offset + size, place.vaddr + size)
  }

  /** The plan of a second injection, of shift `more`, behind one made under `plan`. */
  function Second(plan: Plan, more: nat): Plan {
    Plan(plan.executable, plan.insertion + plan.shift, more)
  }

  /** And the plan of the one injection that does both. */
  function Both(plan: Plan, more: nat): Plan {
    Plan(plan.executable, plan.insertion, plan.shift + more)
  }

  // ----------------------------------------------------------------- offsets

  lemma MovedTwice(offset: nat, plan: Plan, more: nat)
    requires 0 < plan.insertion
    ensures MovedOffset(MovedOffset(offset, plan), Second(plan, more)) == MovedOffset(offset, Both(plan, more))
    ensures NewSectionTable(NewSectionTable(offset, plan), Second(plan, more)) == NewSectionTable(offset, Both(plan, more))
    ensures MovedOffset(offset, plan) <= MovedOffset(offset, Both(plan, more))
    ensures NewSectionTable(offset, plan) <= NewSectionTable(offset, Both(plan, more))
  {
  }

  lemma HeaderMovedTwice(h: Header, plan: Plan, more: nat, k: nat, n: nat, m: nat)
    requires 0 < plan.insertion
    ensures MovedHeader(MovedHeader(h, plan, k, n), Second(plan, more), k, m) == MovedHeader(h, Both(plan, more), k, n + m)
  {
    MovedTwice(h.offset, plan, more);
  }

  // ------------------------------------------------------ layout of the result

  lemma SameSectionWords(data: seq<u8>, r: seq<u8>, table: nat)
    requires Verified(data) && Verified(r) && U16(r, 48) == U16(data, 48)
    ensures SectionWords(r, table) == SectionWords(data, table)
  {
    hide U32, U16, Verified;
  }

  lemma ResultLaid(data: seq<u8>, plan: Plan, place: Place, payload: seq<u8>, r: seq<u8>)
    requires Yields(data, plan, place, payload, r)
    ensures Verified(r) && Laid(r, place.offset + |payload|, plan.insertion + plan.shift)
  {
    hide U32, U16, Verified, HeadersOf, Ready, OldBytes, CaveHolds, HeadersMoved, SectionsMoved, ProgramHeaders;
    SameHeaderFields(data, plan, place, payload, r);
    ResultHeaders(data, plan, place, payload, r);
    ResultSections(data, plan, place, payload, r);
  }

  /** Every number that the second injection writes is the one that the single injection writes. */
  lemma SameWritable(data: seq<u8>, plan: Plan, place: Place, p: seq<u8>, r: seq<u8>, more: nat, m: nat)
    requires Yields(data, plan, place, p, r)
    ensures Verified(r)
    ensures Ready(r, HeadersOf(r), Second(plan, more), m) <==> Ready(data, HeadersOf(data), Both(plan, more), |p| + m)
  {
    hide U32, U16, Verified, HeadersOf, OldBytes, CaveHolds, HeadersMoved, SectionsMoved, ProgramHeaders,
      SectionOffset, Laid,
      MovedOffset, NewSectionTable;
    LaidBounds(data, place.offset, plan.insertion);
    ResultLaid(data, plan, place, p, r);
    ResultHeaders(data, plan, place, p, r);
    ResultSections(data, plan, place, p, r);
    LaidParses(r, place.offset + |p|, plan.insertion + plan.shift);
    LaidParses(data, place.offset, plan.insertion);
    HeadersAreParsed(r);
    HeadersAreParsed(data);
    MovedTwice(U32(data, 32), plan, more);
    forall k | 0 <= k < |HeadersOf(data)|
      ensures MovedOffset(HeadersOf(r)[k].offset, Second(plan, more)) == MovedOffset(HeadersOf(data)[k].offset, Both(plan, more))
    {
      MovedTwice(HeadersOf(data)[k].offset, plan, more);
    }
    forall k | 0 <= k < U16(data, 48)
      ensures MovedOffset(SectionOffset(r, k), Second(plan, more)) == MovedOffset(SectionOffset(data, k), Both(plan, more))
    {
      MovedTwice(SectionOffset(data, k), plan, more);
    }
  }

  lemma HeadersAreParsed(data: seq<u8>)
    requires Verified(data) && ProgramHeaders(data).Some?
    ensures ProgramHeaders(data) == Some(HeadersOf(data))
  {
  }

  // ------------------------------------------------------------ byte by byte

  /** Both injections of a pair, the second of `m` bytes behind the first. */
  ghost predicate Pair(data: seq<u8>, plan: Plan, place: Place, p: seq<u8>, r: seq<u8>, more: nat, q: seq<u8>,
          t: seq<u8>) {
    && Yields(data, plan, place, p, r)
    && Yields(r, Second(plan, more), Behind(place, |p|), q, t)
  }

  /** A byte before the cave, in it or behind it that the second injection leaves where it was. */
  lemma SecondKeeps(data: seq<u8>, plan: Plan, place: Place, p: seq<u8>, r: seq<u8>, more: nat, q: seq<u8>,
          t: seq<u8>, i: nat)
    requires Pair(data, plan, place, p, r, more, q, t)
    requires i < |r| && !(32 <= i < 36) && !(U32(data, 28) <= i < TableEnd(data))
    requires !InPlaces(SectionWords(data, NewSectionTable(U32(data, 32), plan)), i)
    requires !(place.offset + |p| <= i < plan.insertion + plan.shift)
    ensures Landing(Second(plan, more), i) < |t| && t[Landing(Second(plan, more), i)] == r[i]
  {
    hide U32, U16, HeadersOf, Ready, CaveHolds, HeadersMoved, SectionsMoved, Laid, NewSectionTable, InPlaces, TableEnd;
    SameHeaderFields(data, plan, place, p, r);
    ResultHeaders(data, plan, place, p, r);
    ResultSections(data, plan, place, p, r);
    SameSectionWords(data, r, U32(r, 32));
    assert !TableByte(r, i);
  }

  lemma PairKeepsOldByte(data: seq<u8>, plan: Plan, place: Place, p: seq<u8>, r: seq<u8>, more: nat, q: seq<u8>,
          t: seq<u8>, i: nat)
    requires Pair(data, plan, place, p, r, more, q, t)
    requires i < |data| && !TableByte(data, i) && !(place.offset <= i < plan.insertion)
    ensures Landing(Both(plan, more), i) < |t| && t[Landing(Both(plan, more), i)] == data[i]
  {
    hide U32, U16, Verified, HeadersOf, Ready, CaveHolds, HeadersMoved, SectionsMoved, Laid, NewSectionTable,
      InPlaces, TableEnd;
    LaidBounds(data, place.offset, plan.insertion);
    SectionWordLanding(data, place.offset, plan, i);
    SecondKeeps(data, plan, place, p, r, more, q, t, Landing(plan, i));
  }

  lemma PairKeepsFirstPayload(data: seq<u8>, plan: Plan, place: Place, p: seq<u8>, r: seq<u8>, more: nat, q: seq<u8>,
          t: seq<u8>, i: nat)
    requires Pair(data, plan, place, p, r, more, q, t)
    requires place.offset <= i < place.offset + |p|
    ensures i < |t| && t[i] == p[i - place.offset]
  {
    hide U32, U16, Verified, HeadersOf, Ready, OldBytes, HeadersMoved, SectionsMoved, Laid, NewSectionTable,
      InPlaces, TableEnd;
    LaidBounds(data, place.offset, plan.insertion);
    if InPlaces(SectionWords(data, NewSectionTable(U32(data, 32), plan)), i) {
      SectionWordsClear(data, place.offset, plan, i);
    }
    SecondKeeps(data, plan, place, p, r, more, q, t, i);
  }

  lemma PairFillsCave(data: seq<u8>, plan: Plan, place: Place, p: seq<u8>, r: seq<u8>, more: nat, q: seq<u8>,
          t: seq<u8>)
    requires Pair(data, plan, place, p, r, more, q, t)
    ensures Fits(Both(plan, more), place, |p + q|) && |t| == |data| + plan.shift + more
    ensures CaveHolds(t, place.offset, p + q, plan.insertion + plan.shift + more)
  {
    hide U32, U16, Verified, HeadersOf, Ready, OldBytes, HeadersMoved, SectionsMoved, Laid;
    LaidBounds(data, place.offset, plan.insertion);
    forall i | place.offset <= i < place.offset + |p|
      ensures t[i] == p[i - place.offset]
    {
      PairKeepsFirstPayload(data, plan, place, p, r, more, q, t, i);
    }
  }

  lemma PairMovesHeader(data: seq<u8>, plan: Plan, place: Place, p: seq<u8>, r: seq<u8>, more: nat, q: seq<u8>,
          t: seq<u8>, k: nat)
    requires Pair(data, plan, place, p, r, more, q, t) && k < |HeadersOf(data)|
    ensures SegmentHeader(data, k) + 32 <= |t|
    ensures HeaderAt(t, SegmentHeader(data, k)) == MovedHeader(HeadersOf(data)[k], Both(plan, more), k, |p| + |q|)
  {
    hide U32, U16, HeadersOf, Ready, Injected, Fits, HeadersMoved, Laid, HeaderAt, MovedHeader, MovedOffset,
      ProgramHeaders, Verified;
    LaidBounds(data, place.offset, plan.insertion);
    SameHeaderFields(data, plan, place, p, r);
    ResultHeaders(data, plan, place, p, r);
    HeaderMovedTwice(HeadersOf(data)[k], plan, more, k, |p|, |q|);
    HeaderOfSecond(r, Second(plan, more), Behind(place, |p|), q, t, k);
  }

  lemma PairMovesHeaders(data: seq<u8>, plan: Plan, place: Place, p: seq<u8>, r: seq<u8>, more: nat, q: seq<u8>,
          t: seq<u8>)
    requires Verified(data) && Pair(data, plan, place, p, r, more, q, t)
    ensures HeadersMoved(data, Both(plan, more), |p| + |q|, t)
  {
    hide Pair, U32, U16, HeadersOf, HeaderAt, MovedHeader, MovedOffset, ProgramHeaders, Verified, SegmentHeader, Ready;
    forall k | 0 <= k < |HeadersOf(data)|
      ensures SegmentHeader(data, k) + 32 <= |t|
      ensures HeaderAt(t, SegmentHeader(data, k)) == MovedHeader(HeadersOf(data)[k], Both(plan, more), k, |p| + |q|)
    {
      PairMovesHeader(data, plan, place, p, r, more, q, t, k);
    }
  }

  lemma HeaderOfSecond(r: seq<u8>, plan: Plan, place: Place, q: seq<u8>, t: seq<u8>, k: nat)
    requires Yields(r, plan, place, q, t) && k < |HeadersOf(r)|
    ensures SegmentHeader(r, k) + 32 <= |t|
    ensures HeaderAt(t, SegmentHeader(r, k)) == MovedHeader(HeadersOf(r)[k], plan, k, |q|)
  {
    hide U32, HeaderAt, MovedHeader, HeadersOf, Laid, OldBytes, CaveHolds, SectionsMoved, ProgramHeaders;
  }

  lemma PairMovesSections(data: seq<u8>, plan: Plan, place: Place, p: seq<u8>, r: seq<u8>, more: nat, q: seq<u8>,
          t: seq<u8>)
    requires Pair(data, plan, place, p, r, more, q, t)
    ensures SectionsEnd(data) <= |data| && SectionsMoved(data, Both(plan, more), t)
    ensures U32(t, 32) == NewSectionTable(U32(data, 32), Both(plan, more))
  {
    hide U32, U16, Verified, HeadersOf, Ready, OldBytes, CaveHolds, HeadersMoved, Laid, HeaderAt, MovedHeader,
      MovedOffset,
      NewSectionTable, SectionOffset;
    LaidBounds(data, place.offset, plan.insertion);
    ResultSections(data, plan, place, p, r);
    MovedTwice(U32(data, 32), plan, more);
    forall k | 0 <= k < U16(data, 48)
      ensures var word := MovedSectionWord(data, Both(plan, more), k);
              word + 4 <= |t| && U32(t, word) == MovedOffset(SectionOffset(data, k), Both(plan, more))
    {
      assert MovedSectionWord(data, Both(plan, more), k) == MovedSectionWord(r, Second(plan, more), k);
      MovedTwice(SectionOffset(data, k), plan, more);
    }
  }

  /** What two injections leave is what one injection of both payloads leaves. */
  lemma PairIsOne(data: seq<u8>, plan: Plan, place: Place, p: seq<u8>, r: seq<u8>, more: nat, q: seq<u8>, t: seq<u8>)
    requires Pair(data, plan, place, p, r, more, q, t)
    ensures Yields(data, Both(plan, more), place, p + q, t)
  {
    hide U32, U16, Verified, HeadersOf, Ready, CaveHolds, HeadersMoved, SectionsMoved, TableByte;
    PairFillsCave(data, plan, place, p, r, more, q, t);
    PairMovesHeaders(data, plan, place, p, r, more, q, t);
    PairMovesSections(data, plan, place, p, r, more, q, t);
    forall i | 0 <= i < |data| && !TableByte(data, i) && !(place.offset <= i < plan.insertion)
      ensures t[Landing(Both(plan, more), i)] == data[i]
    {
      PairKeepsOldByte(data, plan, place, p, r, more, q, t, i);
    }
  }

  // ------------------------------------------------------------- the two plans

  lemma MultipleAdds(s: nat, z: nat, a: nat)
    requires 0 < a && s % a == 0
    ensures (s + z) - (s + z) % a == s + (z - z % a)
  {
    assert s == a * (s / a) && z == a * (z / a) + z % a;
    SplitMod(s, z, a, z % a, s / a + z / a);
  }

  /** Rounding up past a multiple. */
  lemma ShiftAdds(s: nat, y: nat, a: nat)
    requires 0 < a && OneBit(a) && s % a == 0 && 0 < y
    ensures Shift(s + y, a) == s + Shift(y, a)
  {
    hide AndMinus, OneBit;
    AndMinusRoundsDown(s + y + a - 1, a);
    AndMinusRoundsDown(y + a - 1, a);
    MultipleAdds(s, y + a - 1, a);
  }

  /** Rounding up what the multiple already covers. */
  lemma ShiftAbsorbs(s: nat, x: nat, a: nat)
    requires 0 < a && OneBit(a) && s % a == 0 && 0 < x <= s < x + a
    ensures Shift(x, a) == s
  {
    hide AndMinus, OneBit;
    AndMinusRoundsDown(x + a - 1, a);
    MultipleAdds(s, x + a - 1 - s, a);
    ModUnique(x + a - 1 - s, a, 0, x + a - 1 - s);
  }

  predicate Alignable(required: nat, alignment: nat) {
    required == 0 || (0 < alignment && OneBit(alignment))
  }

  /** Whatever the gap and the alignment, the shifts of two injections add up to that of one. */
  lemma ShiftsAdd(gap: nat, n: nat, m: nat, alignment: nat)
    requires Alignable(Required(gap, n), alignment)
    ensures var s := Shift(Required(gap, n), alignment);
            && n <= gap + s
            && (Alignable(Required(gap + s - n, m), alignment) <==> Alignable(Required(gap, n + m), alignment))
            && (Alignable(Required(gap, n + m), alignment) ==>
                  Shift(Required(gap, n + m), alignment) == s + Shift(Required(gap + s - n, m), alignment))
  {
    hide AndMinus, OneBit, Shift;
    var x := Required(gap, n);
    assert x == 0 ==> Shift(x, alignment) == 0 by { NothingRequired(alignment); }
    if 0 < x {
      ShiftRounds(x, alignment);
      var s := Shift(x, alignment);
      if x + m <= s {
        ShiftAbsorbs(s, x + m, alignment);
        NothingRequired(alignment);
      } else {
        ShiftAdds(s, x + m - s, alignment);
      }
    }
  }

  lemma NothingRequired(alignment: nat)
    ensures Shift(0, alignment) == 0
  {
  }

  /** The headers that an injection of `n` bytes leaves. */
  function Advance(headers: seq<Header>, plan: Plan, n: nat): (r: seq<Header>)
    ensures |r| == |headers| && forall k :: 0 <= k < |r| ==> r[k] == MovedHeader(headers[k], plan, k, n)
  {
    seq(|headers|, k requires 0 <= k < |headers| => MovedHeader(headers[k], plan, k, n))
  }

  /**
   * The searches of the second injection find what those of the first found: the segment that follows
   * `total` bytes of payload follows `n` of them, and the segment that was grown is the first to end
   * at the second place.
   */
  ghost predicate SearchesAgree(headers: seq<Header>, plan: Plan, place: Place, n: nat, total: nat) {
    && NextLoad(headers, place.vaddr + total, |headers|) == NextLoad(headers, place.vaddr + n, |headers|)
    && Executable(Advance(headers, plan, n), Behind(place, n), |headers|) == Some(plan.executable)
  }

  /**
   * Every load segment takes up addresses, and none of them lies in the payload's range: each ends
   * at or before it, or starts at or behind it.
   */
  predicate LoadsApart(headers: seq<Header>, vaddr: nat, size: nat) {
    forall k :: 0 <= k < |headers| && headers[k].kind == LOAD ==>
      0 < headers[k].memsz && (headers[k].vaddr + headers[k].memsz <= vaddr || vaddr + size <= headers[k].vaddr)
  }

  lemma {:induction false} NextLoadSame(h: seq<Header>, bound: nat, h': seq<Header>, bound': nat, n: nat)
    requires n <= |h| == |h'|
    requires forall k :: 0 <= k < n ==>
               h[k].vaddr == h'[k].vaddr && (Follows(h[k], bound) <==> Follows(h'[k], bound'))
    ensures NextLoad(h, bound, n) == NextLoad(h', bound', n)
  {
    if n != 0 {
      NextLoadSame(h, bound, h', bound', n - 1);
    }
  }

  /** `after` is `headers` moved under `plan`, the executable one grown by `n`. */
  ghost predicate Advanced(headers: seq<Header>, plan: Plan, n: nat, after: seq<Header>) {
    && plan.executable < |headers| == |after| && 0 < plan.insertion
    && (forall k :: 0 <= k < |headers| ==> after[k] == MovedHeader(headers[k], plan, k, n))
  }

  lemma SameExecutable(headers: seq<Header>, plan: Plan, place: Place, n: nat, total: nat)
    requires plan.executable < |headers| && LoadsApart(headers, place.vaddr, total) && n <= total
    requires Executable(headers, place, |headers|) == Some(plan.executable)
    requires 0 < plan.insertion && place.offset <= plan.insertion && 0 < headers[plan.executable].filesz
    requires n == 0 ==> plan.shift == 0
    ensures Executable(Advance(headers, plan, n), Behind(place, n), |headers|) == Some(plan.executable)
  {
    hide And;
    var e, after := plan.executable, Advance(headers, plan, n);
    assert EndsAt(after[e], Behind(place, n));
    forall k | 0 <= k < e
      ensures !EndsAt(after[k], Behind(place, n))
    {
      assert after[k] == MovedHeader(headers[k], plan, k, n);
      assert !EndsAt(headers[k], place);
    }
  }

  lemma SameFollows(headers: seq<Header>, vaddr: nat, n: nat, total: nat, k: nat)
    requires LoadsApart(headers, vaddr, total) && n <= total && k < |headers|
    ensures Follows(headers[k], vaddr + n) <==> Follows(headers[k], vaddr + total)
  {
  }

  /** Load segments that keep out of the payload's addresses, and an executable one that is not empty, are enough. */
  lemma ApartSearchesAgree(headers: seq<Header>, plan: Plan, place: Place, n: nat, total: nat)
    requires plan.executable < |headers| && LoadsApart(headers, place.vaddr, total) && n <= total
    requires n == 0 ==> plan.shift == 0
    requires Executable(headers, place, |headers|) == Some(plan.executable)
    requires 0 < plan.insertion && place.offset <= plan.insertion && 0 < headers[plan.executable].filesz
    ensures SearchesAgree(headers, plan, place, n, total)
  {
    hide NextLoad, Executable, LoadsApart, EndsAt;
    SameExecutable(headers, plan, place, n, total);
    forall k | 0 <= k < |headers|
      ensures Follows(headers[k], place.vaddr + total) <==> Follows(headers[k], place.vaddr + n)
    {
      SameFollows(headers, place.vaddr, n, total, k);
    }
    NextLoadSame(headers, place.vaddr + total, headers, place.vaddr + n, |headers|);
  }

  lemma AdvancedNextLoad(headers: seq<Header>, plan: Plan, n: nat, bound: nat)
    ensures NextLoad(Advance(headers, plan, n), bound, |headers|) == NextLoad(headers, bound, |headers|)
  {
    hide NextLoad, MovedOffset;
    NextLoadSame(Advance(headers, plan, n), bound, headers, bound, |headers|);
  }

  /** The second injection plans the rest of what the single injection plans, or both give up. */
  lemma PlansAgree(data: seq<u8>, headers: seq<Header>, plan: Plan, place: Place, n: nat, m: nat, r: seq<u8>,
          after: seq<Header>)
    requires MakePlan(data, headers, place, n) == Some(plan)
    requires Advanced(headers, plan, n, after) && SearchesAgree(headers, plan, place, n, n + m)
    requires ZeroFilled(r, place.offset + n, plan.insertion + plan.shift)
    ensures var second := MakePlan(r, after, Behind(place, n), m);
            var single := MakePlan(data, headers, place, n + m);
            && (second.Some? <==> single.Some?)
            && (second.Some? ==> second.value == Second(plan, second.value.shift)
                                 && single.value == Both(plan, second.value.shift))
  {
    hide And, AndMinus, OneBit, Shift, Executable, NextLoad, EndsAt, Follows, ZeroFilled;
    var next := NextLoad(headers, place.vaddr + n, |headers|).value;
    var gap := headers[next].offset - place.offset;
    var alignment := headers[next].alignment;
    ShiftsAdd(gap, n, m, alignment);
    NothingRequired(alignment);
    assert after == Advance(headers, plan, n);
    AdvancedNextLoad(headers, plan, n, place.vaddr + n + m);
    assert after[next] == MovedHeader(headers[next], plan, next, n);
  }

  // ------------------------------------------------------------- the theorem

  /** An injection's outcome on top of a shift already made. */
  function OnTop(shift: nat, second: Option<Injection>): Option<Injection> {
    match second
    case None => None
    case Some(i) => Some(Injection(i.bytes, shift + i.shift))
  }

  /**
   * The plans of two injections in a row make up the plan of the single one, or neither has one: the
   * same segment grows, the shifts add up, and unless the first shifted nothing they open one gap.
   */
  predicate Composes(plan: Plan, second: Option<Plan>, single: Option<Plan>) {
    if second.None? || single.None? then second == single
    else
      && second.value.executable == single.value.executable == plan.executable
      && single.value.shift == plan.shift + second.value.shift
      && second.value.insertion == single.value.insertion + plan.shift
      && (plan.shift > 0 ==> single.value.insertion == plan.insertion)
  }

  /** The plan of a second injection, of `m` bytes behind the first. */
  ghost function SecondPlan(r: seq<u8>, place: Place, n: nat, m: nat): Option<Plan>
    requires Verified(r)
  {
    PlanFor(r, Behind(place, n), m)
  }

  /** The layout is one the code takes for granted, wherever the plan opens the file. */
  ghost predicate LaidFor(data: seq<u8>, place: Place, plan: Option<Plan>) {
    plan.Some? ==> Laid(data, place.offset, plan.value.insertion)
  }

  /** The stages of an injection once it has a plan. */
  lemma InjectUnderPlan(data: seq<u8>, plan: Plan, place: Place, payload: seq<u8>)
    requires Verified(data) && HEADER_SIZE <= place.offset && Laid(data, place.offset, plan.insertion)
    requires MakePlan(data, HeadersOf(data), place, |payload|) == Some(plan)
    ensures !Ready(data, HeadersOf(data), plan, |payload|) ==> Inject(data, place, payload).None?
    ensures Ready(data, HeadersOf(data), plan, |payload|) ==>
              var r := Written(data, HeadersOf(data), plan, place, payload);
              && Yields(data, plan, place, payload, r) && Verified(r)
              && Inject(data, place, payload) == if Congruent(HeadersOf(r)) then Some(Injection(r, plan.shift)) else None
  {
    hide U32, U16, Laid, Injected, Written, MakePlan, Writable, Congruent, Verified;
    LaidParses(data, place.offset, plan.insertion);
    HeadersAreParsed(data);
    PlanFits(data, HeadersOf(data), place, |payload|);
    if Ready(data, HeadersOf(data), plan, |payload|) {
      var r := Written(data, HeadersOf(data), plan, place, payload);
      WrittenIsInjected(data, plan, place, payload);
      ResultHeaders(data, plan, place, payload, r);
    }
  }

  lemma ResultAdvances(data: seq<u8>, plan: Plan, place: Place, p: seq<u8>, r: seq<u8>)
    requires Yields(data, plan, place, p, r) && plan.executable < |HeadersOf(data)|
    ensures Verified(r) && Advanced(HeadersOf(data), plan, |p|, HeadersOf(r))
    ensures ZeroFilled(r, place.offset + |p|, plan.insertion + plan.shift)
  {
    hide U32, U16, Laid, Verified, HeadersOf, OldBytes, HeadersMoved, SectionsMoved, MovedHeader;
    LaidBounds(data, place.offset, plan.insertion);
    ResultHeaders(data, plan, place, p, r);
  }

  /** One injection that has been planned, followed by a second that has. */
  lemma PlannedTwice(data: seq<u8>, plan: Plan, place: Place, p: seq<u8>, r: seq<u8>, q: seq<u8>, more: nat)
    requires HEADER_SIZE <= place.offset && Yields(data, plan, place, p, r) && Verified(r)
    requires MakePlan(data, HeadersOf(data), place, |p + q|) == Some(Both(plan, more))
    requires MakePlan(r, HeadersOf(r), Behind(place, |p|), |q|) == Some(Second(plan, more))
    ensures Inject(data, place, p + q) == OnTop(plan.shift, Inject(r, Behind(place, |p|), q))
  {
    hide U32, U16, Laid, Injected, Written, MakePlan, Writable, Congruent, Verified, Ready, HeadersOf, Inject, Fits;
    var second, single := Second(plan, more), Both(plan, more);
    ResultLaid(data, plan, place, p, r);
    SameWritable(data, plan, place, p, r, more, |q|);
    InjectUnderPlan(r, second, Behind(place, |p|), q);
    InjectUnderPlan(data, single, place, p + q);
    if Ready(r, HeadersOf(r), second, |q|) {
      var t := Written(r, HeadersOf(r), second, Behind(place, |p|), q);
      var u := Written(data, HeadersOf(data), single, place, p + q);
      PairIsOne(data, plan, place, p, r, more, q, t);
      InjectedIsUnique(data, single, place, p + q, t, u);
    }
  }

  lemma CaveHasNoTable(data: seq<u8>, cave: nat, insertion: nat, i: nat)
    requires Laid(data, cave, insertion) && cave <= i < insertion
    ensures !TableByte(data, i)
  {
    hide U32, U16, ProgramHeaders;
    SectionWordsSpaced(data, U32(data, 32));
  }

  /** An injection that shifts nothing moves nothing, wherever its cave ends. */
  lemma ReinsertedTables(data: seq<u8>, plan: Plan, size: nat, r: seq<u8>, insertion: nat)
    requires Verified(data) && SectionsEnd(data) <= |data| && plan.shift == 0
    requires HeadersMoved(data, plan, size, r) && SectionsMoved(data, plan, r)
    ensures var moved := plan.(insertion := insertion);
            && HeadersMoved(data, moved, size, r) && SectionsMoved(data, moved, r)
            && NewSectionTable(U32(data, 32), moved) == NewSectionTable(U32(data, 32), plan)
  {
    hide U32, U16, HeadersOf, HeaderAt, SectionOffset;
    var moved := plan.(insertion := insertion);
    forall k | 0 <= k < |HeadersOf(data)|
      ensures MovedHeader(HeadersOf(data)[k], moved, k, size) == MovedHeader(HeadersOf(data)[k], plan, k, size)
    {
    }
    forall k | 0 <= k < U16(data, 48)
      ensures MovedSectionWord(data, moved, k) == MovedSectionWord(data, plan, k)
      ensures MovedOffset(SectionOffset(data, k), moved) == MovedOffset(SectionOffset(data, k), plan)
    {
    }
  }

  /** And its cave may as well end elsewhere in the zeros. */
  lemma ReinsertedBytes(data: seq<u8>, plan: Plan, place: Place, p: seq<u8>, r: seq<u8>, insertion: nat)
    requires Laid(data, place.offset, plan.insertion) && Laid(data, place.offset, insertion)
    requires plan.shift == 0 && |r| == |data| && place.offset + |p| <= insertion && place.offset + |p| <= plan.insertion
    requires OldBytes(data, plan, place.offset, r) && CaveHolds(r, place.offset, p, plan.insertion)
    requires ZeroFilled(data, place.offset, plan.insertion) && ZeroFilled(data, place.offset, insertion)
    ensures insertion <= |r| && OldBytes(data, plan.(insertion := insertion), place.offset, r)
    ensures CaveHolds(r, place.offset, p, insertion)
  {
    hide U32, U16, ProgramHeaders, Laid, TableByte, Verified;
    LaidBounds(data, place.offset, plan.insertion);
    LaidBounds(data, place.offset, insertion);
    forall i | place.offset + |p| <= i < insertion
      ensures r[i] == 0
    {
      CaveHasNoTable(data, place.offset, insertion, i);
      if plan.insertion <= i {
        assert r[Landing(plan, i)] == data[i];
      }
    }
    forall i | 0 <= i < |data| && !TableByte(data, i) && !(place.offset <= i < insertion)
      ensures r[i] == data[i]
    {
      if i < plan.insertion && insertion <= i {
        assert r[i] == 0 && data[i] == 0;
      } else {
        assert r[Landing(plan, i)] == data[i];
      }
    }
  }

  lemma Reinserted(data: seq<u8>, plan: Plan, place: Place, p: seq<u8>, r: seq<u8>, insertion: nat)
    requires Yields(data, plan, place, p, r) && plan.shift == 0
    requires Laid(data, place.offset, insertion) && place.offset + |p| <= insertion
    requires ZeroFilled(data, place.offset, plan.insertion) && ZeroFilled(data, place.offset, insertion)
    ensures Yields(data, plan.(insertion := insertion), place, p, r)
  {
    hide U32, U16, HeadersOf, ProgramHeaders, Laid, TableByte, Verified, OldBytes, HeadersMoved, SectionsMoved, CaveHolds,
      ZeroFilled;
    LaidBounds(data, place.offset, insertion);
    SectionsInFile(data, place.offset, insertion);
    ReinsertedTables(data, plan, |p|, r, insertion);
    ReinsertedBytes(data, plan, place, p, r, insertion);
  }

  /** The plan under which the second injection follows the first. */
  function Reopened(plan: Plan, single: Plan): Plan {
    if plan.shift == 0 then plan.(insertion := single.insertion) else plan
  }

  lemma ComposedYields(data: seq<u8>, plan: Plan, place: Place, p: seq<u8>, r: seq<u8>, m: nat)
    requires Yields(data, plan, place, p, r) && Verified(r)
    requires ZeroFilled(data, place.offset, plan.insertion) && LaidFor(data, place, PlanFor(data, place, |p| + m))
    requires PlanFor(data, place, |p| + m).Some? && SecondPlan(r, place, |p|, m).Some?
    requires Composes(plan, SecondPlan(r, place, |p|, m), PlanFor(data, place, |p| + m))
    ensures var single, second := PlanFor(data, place, |p| + m).value, SecondPlan(r, place, |p|, m).value;
            var first := Reopened(plan, single);
            && Yields(data, first, place, p, r)
            && single == Both(first, second.shift) && second == Second(first, second.shift)
  {
    hide U32, U16, Laid, Injected, MakePlan, Verified, ZeroFilled;
    var single := PlanFor(data, place, |p| + m).value;
    PlanFits(data, HeadersOf(data), place, |p| + m);
    SecondBehind(r, place, |p|, m);
    if plan.shift == 0 {
      Reinserted(data, plan, place, p, r, single.insertion);
    }
  }

  lemma SecondBehind(r: seq<u8>, place: Place, n: nat, m: nat)
    requires Verified(r) && SecondPlan(r, place, n, m).Some?
    ensures place.offset + n <= SecondPlan(r, place, n, m).value.insertion
  {
    hide Executable, NextLoad, ZeroFilled, Shift, OneBit, U32, U16;
  }

  /** The first injection's plan and file, as the second finds them. */
  lemma FirstFacts(data: seq<u8>, place: Place, p: seq<u8>)
    requires Placed(data, place, |p|) && Inject(data, place, p).Some?
    ensures var plan, r := ThePlan(data, place, |p|), Inject(data, place, p).value.bytes;
            && Yields(data, plan, place, p, r) && Verified(r) && plan.executable < |HeadersOf(data)|
            && Inject(data, place, p).value.shift == plan.shift
            && Advanced(HeadersOf(data), plan, |p|, HeadersOf(r))
            && ZeroFilled(data, place.offset, plan.insertion)
            && ZeroFilled(r, place.offset + |p|, plan.insertion + plan.shift)
  {
    hide U32, U16, Laid, Injected, Written, MakePlan, Writable, Congruent, Verified, Ready, HeadersOf, Inject, Fits,
      ZeroFilled, Advanced;
    var plan := ThePlan(data, place, |p|);
    InjectDescribed(data, place, p);
    PlanFits(data, HeadersOf(data), place, |p|);
    InRange(data, HeadersOf(data), place, |p|);
    ResultAdvances(data, plan, place, p, Inject(data, place, p).value.bytes);
  }

  /**
   * Injecting a second payload right behind the first gives the very file, and the very total
   * shift, of one injection of both, wherever the plans make up one plan; and where the second fails
   * the single one fails too.
   */
  lemma TwoInjectionsAreOne(data: seq<u8>, place: Place, p: seq<u8>, q: seq<u8>)
    requires Placed(data, place, |p|) && Inject(data, place, p).Some?
    requires LaidFor(data, place, PlanFor(data, place, |p| + |q|))
    ensures var first := Inject(data, place, p).value;
            (Composes(ThePlan(data, place, |p|), SecondPlan(first.bytes, place, |p|, |q|), PlanFor(data, place, |p| + |q|)) ==>
                  Inject(data, place, p + q) == OnTop(first.shift, Inject(first.bytes, Behind(place, |p|), q)))
  {
    hide U32, U16, Laid, Injected, Written, MakePlan, Writable, Congruent, Verified, Ready, HeadersOf, Inject, Fits,
      ZeroFilled, Advanced, Yields;
    var plan := ThePlan(data, place, |p|);
    FirstFacts(data, place, p);
    var r := Inject(data, place, p).value.bytes;
    var second, single := SecondPlan(r, place, |p|, |q|), PlanFor(data, place, |p| + |q|);
    if second.Some? && single.Some? && Composes(plan, second, single) {
      ComposedYields(data, plan, place, p, r, |q|);
      PlannedTwice(data, Reopened(plan, single.value), place, p, r, q, second.value.shift);
    } else if second.None? && single.None? {
      NoPlanNoInjection(data, place, p + q);
      NoPlanNoInjection(r, Behind(place, |p|), q);
    }
  }

  // ------------------------------------------------------------- the converse

  /** What the two plans have in common with the first: the segment that grows, and the offsets of the loads that follow. */
  lemma PlansFound(data: seq<u8>, headers: seq<Header>, plan: Plan, place: Place, n: nat, m: nat, r: seq<u8>)
    requires MakePlan(data, headers, place, n) == Some(plan) && MakePlan(data, headers, place, n + m).Some?
    requires MakePlan(r, Advance(headers, plan, n), Behind(place, n), m).Some?
    ensures var single := MakePlan(data, headers, place, n + m).value;
            var second := MakePlan(r, Advance(headers, plan, n), Behind(place, n), m).value;
            && single.executable == plan.executable
            && second.insertion == MovedOffset(single.insertion, plan)
            && place.offset + n <= second.insertion
            && (exists k :: 0 <= k < |headers| && headers[k].offset == plan.insertion)
            && (plan.shift > 0 ==> plan.insertion < place.offset + n)
  {
    hide And, AndMinus, OneBit, Executable, NextLoad, EndsAt, Follows, ZeroFilled, MovedOffset;
    AdvancedNextLoad(headers, plan, n, place.vaddr + n + m);
    var next := NextLoad(headers, place.vaddr + n, |headers|).value;
    assert headers[next].offset == plan.insertion;
    var last := NextLoad(headers, place.vaddr + n + m, |headers|).value;
    assert Advance(headers, plan, n)[last].offset == MovedOffset(headers[last].offset, plan);
    NothingRequired(headers[next].alignment);
  }

  /** If both ways lead to one file, every header ended up the same. */
  lemma HeadersAgree(data: seq<u8>, plan: Plan, place: Place, p: seq<u8>, r: seq<u8>, q: seq<u8>, second: Plan, single: Plan,
                     t: seq<u8>, k: nat)
    requires Yields(data, plan, place, p, r) && Yields(data, single, place, p + q, t)
    requires Verified(r) && Yields(r, second, Behind(place, |p|), q, t) && k < |HeadersOf(data)|
    ensures k < |HeadersOf(r)| && MovedHeader(MovedHeader(HeadersOf(data)[k], plan, k, |p|), second, k, |q|)
            == MovedHeader(HeadersOf(data)[k], single, k, |p| + |q|)
  {
    hide U32, U16, Laid, Injected, Verified, HeadersOf, MovedHeader;
    ResultHeaders(data, plan, place, p, r);
    ResultHeaders(data, single, place, p + q, t);
    ResultHeaders(r, second, Behind(place, |p|), q, t);
  }

  lemma GrownAlike(h: Header, plan: Plan, second: Plan, single: Plan, n: nat, m: nat)
    requires plan.executable == single.executable && 0 < m
    requires MovedHeader(MovedHeader(h, plan, plan.executable, n), second, plan.executable, m)
             == MovedHeader(h, single, plan.executable, n + m)
    ensures second.executable == plan.executable
  {
    hide MovedOffset;
  }

  lemma MovedAlike(plan: Plan, second: Plan, single: Plan, place: Place, n: nat, offset: nat)
    requires 0 < plan.shift && 0 < place.offset <= plan.insertion == offset
    requires MovedOffset(MovedOffset(offset, plan), second) == MovedOffset(offset, single)
    requires second.insertion == MovedOffset(single.insertion, plan) && place.offset + n <= second.insertion
    requires plan.insertion < place.offset + n
    ensures single.insertion == plan.insertion && second.insertion == single.insertion + plan.shift
  {
  }

  /**
   * And only there: where both ways succeed, with a second payload that is not empty, and lead to one
   * file and shift, the plans make up one plan.
   */
  lemma OneFileComposes(data: seq<u8>, place: Place, p: seq<u8>, q: seq<u8>)
    requires Placed(data, place, |p|) && Inject(data, place, p).Some? && q != []
    requires Placed(data, place, |p + q|) && Placed(Inject(data, place, p).value.bytes, Behind(place, |p|), |q|)
    requires Inject(data, place, p + q).Some?
    requires var first := Inject(data, place, p).value;
             Inject(data, place, p + q) == OnTop(first.shift, Inject(first.bytes, Behind(place, |p|), q))
    ensures Composes(ThePlan(data, place, |p|), SecondPlan(Inject(data, place, p).value.bytes, place, |p|, |q|),
                     PlanFor(data, place, |p| + |q|))
  {
    hide U32, U16, Laid, Injected, Written, MakePlan, Verified, Ready, HeadersOf, Inject, ZeroFilled, MovedHeader, MovedOffset;
    var plan := ThePlan(data, place, |p|);
    FirstFacts(data, place, p);
    var r := Inject(data, place, p).value.bytes;
    var single, second := ThePlan(data, place, |p + q|), ThePlan(r, Behind(place, |p|), |q|);
    var t := Inject(data, place, p + q).value.bytes;
    InjectDescribed(data, place, p + q);
    InjectDescribed(r, Behind(place, |p|), q);
    assert HeadersOf(r) == Advance(HeadersOf(data), plan, |p|);
    PlansFound(data, HeadersOf(data), plan, place, |p|, |q|, r);
    HeadersAgree(data, plan, place, p, r, q, second, single, t, plan.executable);
    GrownAlike(HeadersOf(data)[plan.executable], plan, second, single, |p|, |q|);
    if 0 < plan.shift {
      var k :| 0 <= k < |HeadersOf(data)| && HeadersOf(data)[k].offset == plan.insertion;
      HeadersAgree(data, plan, place, p, r, q, second, single, t, k);
      OffsetMovedTwice(HeadersOf(data)[k], plan, second, single, k, |p|, |q|);
      MovedAlike(plan, second, single, place, |p|, plan.insertion);
    } else {
      NothingMoved(single.insertion, plan);
    }
  }

  /**
   * The exact condition: with a second payload that is not empty, the two ways agree if and only if the
   * plans make up one plan, or both ways fail.
   */
  lemma TwoInjectionsAreOneIff(data: seq<u8>, place: Place, p: seq<u8>, q: seq<u8>)
    requires Placed(data, place, |p|) && Inject(data, place, p).Some? && q != []
    requires LaidFor(data, place, PlanFor(data, place, |p| + |q|))
    requires LaidFor(Inject(data, place, p).value.bytes, Behind(place, |p|),
                     SecondPlan(Inject(data, place, p).value.bytes, place, |p|, |q|))
    ensures var first := Inject(data, place, p).value;
            var second := Inject(first.bytes, Behind(place, |p|), q);
            Inject(data, place, p + q) == OnTop(first.shift, second)
            <==> Composes(ThePlan(data, place, |p|), SecondPlan(first.bytes, place, |p|, |q|), PlanFor(data, place, |p| + |q|))
                 || (Inject(data, place, p + q).None? && second.None?)
  {
    hide U32, U16, Laid, Written, MakePlan, Verified, Inject, Composes;
    var first := Inject(data, place, p).value;
    TwoInjectionsAreOne(data, place, p, q);
    if Inject(data, place, p + q).Some? && Inject(data, place, p + q) == OnTop(first.shift, Inject(first.bytes, Behind(place, |p|), q)) {
      SucceedsPlanned(data, place, p + q);
      SucceedsPlanned(first.bytes, Behind(place, |p|), q);
      OneFileComposes(data, place, p, q);
    }
  }

  lemma SucceedsPlanned(data: seq<u8>, place: Place, payload: seq<u8>)
    requires Verified(data) && HEADER_SIZE <= place.offset && Inject(data, place, payload).Some?
    ensures PlanFor(data, place, |payload|).Some?
  {
    hide U32, U16, Verified, MakePlan, Inject;
    if PlanFor(data, place, |payload|).None? {
      NoPlanNoInjection(data, place, payload);
    }
  }

  lemma OffsetMovedTwice(h: Header, plan: Plan, second: Plan, single: Plan, k: nat, n: nat, m: nat)
    requires MovedHeader(MovedHeader(h, plan, k, n), second, k, m) == MovedHeader(h, single, k, n + m)
    ensures MovedOffset(MovedOffset(h.offset, plan), second) == MovedOffset(h.offset, single)
  {
    hide MovedOffset;
  }

  lemma NothingMoved(offset: nat, plan: Plan)
    requires plan.shift == 0
    ensures MovedOffset(offset, plan) == offset
  {
  }

  /** Searches that find the same segments are enough for the plans to make up one plan. */
  lemma AgreeingSearchesCompose(data: seq<u8>, place: Place, p: seq<u8>, m: nat)
    requires Placed(data, place, |p|) && Inject(data, place, p).Some?
    requires SearchesAgree(HeadersOf(data), ThePlan(data, place, |p|), place, |p|, |p| + m)
    ensures LaidFor(data, place, PlanFor(data, place, |p| + m))
    ensures var r := Inject(data, place, p).value.bytes;
            Verified(r) && Composes(ThePlan(data, place, |p|), SecondPlan(r, place, |p|, m), PlanFor(data, place, |p| + m))
  {
    hide U32, U16, Laid, Injected, MakePlan, Verified, Ready, HeadersOf, Inject, ZeroFilled, SearchesAgree;
    var plan := ThePlan(data, place, |p|);
    FirstFacts(data, place, p);
    var r := Inject(data, place, p).value.bytes;
    PlansAgree(data, HeadersOf(data), plan, place, |p|, m, r, HeadersOf(r));
  }

  lemma InRange(data: seq<u8>, headers: seq<Header>, place: Place, n: nat)
    requires MakePlan(data, headers, place, n).Some?
    ensures MakePlan(data, headers, place, n).value.executable < |headers|
  {
  }

  lemma NoPlanNoInjection(data: seq<u8>, place: Place, payload: seq<u8>)
    requires Verified(data) && HEADER_SIZE <= place.offset
    requires MakePlan(data, HeadersOf(data), place, |payload|).None?
    ensures Inject(data, place, payload).None?
  {
    hide U32, U16, Verified, MakePlan, Written, Writable;
  }
}
