/**
 * What an injection leaves of the file, byte by byte, and of the image the loader makes of it.
 */
module ElfImage {
  import opened Wrappers
  import opened Bytes
  import opened LittleEndian
  import opened Elf

  // ----------------------------------------------------------- preconditions

  ghost function HeadersOf(data: seq<u8>): seq<Header>
    requires Verified(data)
  {
    if ProgramHeaders(data).Some? then ProgramHeaders(data).value else []
  }

  function TableEnd(data: seq<u8>): nat
    requires Verified(data)
  {
    U32(data, 28) + PROGRAM_HEADER_SIZE * U16(data, 44)
  }

  function SectionsEnd(data: seq<u8>): nat
    requires Verified(data)
  {
    U32(data, 32) + SECTION_HEADER_SIZE * U16(data, 48)
  }

  /**
   * What the code leaves unchecked: the program header table lies between the ELF header and the
   * cave, and a section table lies whole before the cave, clear of both, or whole behind it.
   */
  ghost predicate Laid(data: seq<u8>, cave: nat, insertion: nat) {
    && Verified(data) && ProgramHeaders(data).Some?
    && HEADER_SIZE <= U32(data, 28) && TableEnd(data) <= cave <= insertion <= |data|
    && SectionsEnd(data) <= |data|
    && (U16(data, 48) == 0 || insertion <= U32(data, 32)
        || (HEADER_SIZE <= U32(data, 32) && SectionsEnd(data) <= cave
            && (SectionsEnd(data) <= U32(data, 28) || TableEnd(data) <= U32(data, 32))))
  }

  // ------------------------------------------------------- bytes of the tables

  ghost predicate InPlaces(places: seq<nat>, i: int) {
    exists k :: 0 <= k < |places| && places[k] <= i < places[k] + 4
  }

  /** The bytes of the original that an injection may rewrite. */
  ghost predicate TableByte(data: seq<u8>, i: int)
    requires Verified(data)
  {
    || 32 <= i < 36
    || U32(data, 28) <= i < TableEnd(data)
    || InPlaces(SectionWords(data, U32(data, 32)), i)
  }

  /** Where byte `i` of the original ends up. */
  function Landing(plan: Plan, i: nat): nat {
    if i < plan.insertion then i else i + plan.shift
  }

  /**
   * The whole result of an injection, without its construction: every old byte outside the
   * tables in its place, the cave holding the payload and then zeros, and every table word.
   */
  ghost predicate Injected(data: seq<u8>, plan: Plan, place: Place, payload: seq<u8>, r: seq<u8>)
    requires Laid(data, place.offset, plan.insertion) && Fits(plan, place, |payload|)
  {
    && |r| == |data| + plan.shift
    && OldBytes(data, plan, place.offset, r)
    && CaveHolds(r, place.offset, payload, plan.insertion + plan.shift)
    && U32(r, 32) == NewSectionTable(U32(data, 32), plan)
    && HeadersMoved(data, plan, |payload|, r)
    && SectionsMoved(data, plan, r)
  }

  ghost predicate OldBytes(data: seq<u8>, plan: Plan, cave: nat, r: seq<u8>)
    requires Verified(data) && |r| == |data| + plan.shift
  {
    forall i :: 0 <= i < |data| && !TableByte(data, i) && !(cave <= i < plan.insertion) ==>
      r[Landing(plan, i)] == data[i]
  }

  ghost predicate HeadersMoved(data: seq<u8>, plan: Plan, size: nat, r: seq<u8>)
    requires Verified(data)
  {
    forall k :: 0 <= k < |HeadersOf(data)| ==>
      && SegmentHeader(data, k) + 32 <= |r|
      && HeaderAt(r, SegmentHeader(data, k)) == MovedHeader(HeadersOf(data)[k], plan, k, size)
  }

  ghost predicate SectionsMoved(data: seq<u8>, plan: Plan, r: seq<u8>)
    requires Verified(data) && SectionsEnd(data) <= |data|
  {
    forall k :: 0 <= k < U16(data, 48) ==>
      && MovedSectionWord(data, plan, k) + 4 <= |r|
      && U32(r, MovedSectionWord(data, plan, k)) == MovedOffset(SectionOffset(data, k), plan)
  }

  /** Where the moved section table keeps the offset of section `k`. */
  function MovedSectionWord(data: seq<u8>, plan: Plan, k: nat): nat
    requires Verified(data)
  {
    NewSectionTable(U32(data, 32), plan) + SECTION_HEADER_SIZE * k + 16
  }

  /** The widened cave has room for the payload. */
  predicate Fits(plan: Plan, place: Place, size: nat) {
    place.offset <= plan.insertion && place.offset + size <= plan.insertion + plan.shift
  }

  /** The payload stands at the start of the cave and zeros fill the rest. */
  ghost predicate CaveHolds(r: seq<u8>, at: nat, payload: seq<u8>, end: nat)
    requires at + |payload| <= end <= |r|
  {
    && (forall i :: at <= i < at + |payload| ==> r[i] == payload[i - at])
    && (forall i :: at + |payload| <= i < end ==> r[i] == 0)
  }

  function MovedHeader(h: Header, plan: Plan, k: nat, size: nat): Header
  {
    var moved := h.(offset := MovedOffset(h.offset, plan));
    if k == plan.executable then moved.(filesz := h.filesz + size, memsz := h.memsz + size) else moved
  }

  // ------------------------------------------------------------ single stages

  lemma U32Same(s: seq<u8>, at: nat, t: seq<u8>, to: nat)
    requires at + 4 <= |s| && to + 4 <= |t|
    requires s[at] == t[to] && s[at + 1] == t[to + 1] && s[at + 2] == t[to + 2] && s[at + 3] == t[to + 3]
    ensures U32(s, at) == U32(t, to)
  {
  }

  lemma HeaderSame(s: seq<u8>, at: nat, t: seq<u8>, to: nat)
    requires at + 32 <= |s| && to + 32 <= |t|
    requires forall i :: at <= i < at + 32 ==> s[i] == t[i - at + to]
    ensures HeaderAt(s, at) == HeaderAt(t, to)
  {
    hide U32;
    U32Same(s, at, t, to);
    U32Same(s, at + 4, t, to + 4);
    U32Same(s, at + 8, t, to + 8);
    U32Same(s, at + 12, t, to + 12);
    U32Same(s, at + 16, t, to + 16);
    U32Same(s, at + 20, t, to + 20);
    U32Same(s, at + 24, t, to + 24);
    U32Same(s, at + 28, t, to + 28);
  }

  ghost predicate Spaced(places: seq<nat>) {
    forall j, k :: 0 <= j < k < |places| ==> places[j] + 4 <= places[k]
  }

  /** Patching changes the words it has values for and nothing else. */
  lemma {:induction false} PatchEffect(s: seq<u8>, places: seq<nat>, values: seq<Option<u32>>, n: nat)
    requires n <= |places| == |values| && Spaced(places)
    requires forall k :: 0 <= k < |places| ==> places[k] + 4 <= |s|
    ensures var r := Patch(s, places, values, n);
            && (forall i :: 0 <= i < |s| && !InPlaces(places, i) ==> r[i] == s[i])
            && (forall k :: 0 <= k < |places| ==>
                  U32(r, places[k]) == if k < n && values[k].Some? then values[k].value else U32(s, places[k]))
  {
    hide U32, PutU32, Spaced, InPlaces;
    if n != 0 {
      PatchEffect(s, places, values, n - 1);
      if values[n - 1].Some? {
        OneMore(s, Patch(s, places, values, n - 1), places, n - 1, values[n - 1].value);
      }
    }
  }

  lemma OneMore(s: seq<u8>, before: seq<u8>, places: seq<nat>, m: nat, v: u32)
    requires m < |places| && Spaced(places) && |s| == |before|
    requires forall k :: 0 <= k < |places| ==> places[k] + 4 <= |s|
    requires forall i :: 0 <= i < |s| && !InPlaces(places, i) ==> before[i] == s[i]
    ensures var r := PutU32(before, places[m], v);
            && (forall i :: 0 <= i < |s| && !InPlaces(places, i) ==> r[i] == s[i])
            && (forall k :: 0 <= k < |places| && k != m ==> U32(r, places[k]) == U32(before, places[k]))
  {
    hide U32, PutU32;
    var r := PutU32(before, places[m], v);
    forall i | 0 <= i < |s| && !InPlaces(places, i)
      ensures r[i] == s[i]
    {
      assert !(places[m] <= i < places[m] + 4);
    }
    forall k | 0 <= k < |places| && k != m
      ensures U32(r, places[k]) == U32(before, places[k])
    {
      assert places[k] + 4 <= places[m] || places[m] + 4 <= places[k];
      U32Same(r, places[k], before, places[k]);
    }
  }

  lemma OpenedEffect(data: seq<u8>, plan: Plan)
    requires Verified(data) && plan.insertion <= |data| && 36 <= plan.insertion
    requires InWord(NewSectionTable(U32(data, 32), plan))
    ensures var o := Opened(data, plan);
            && (forall i :: 0 <= i < |data| && !(32 <= i < 36) ==> o[Landing(plan, i)] == data[i])
            && (forall i :: plan.insertion <= i < plan.insertion + plan.shift ==> o[i] == 0)
            && U32(o, 32) == NewSectionTable(U32(data, 32), plan)
  {
  }

  lemma GrowEffect(s: seq<u8>, h: Header, at: nat, size: nat)
    requires at + 32 <= |s| && InWord(h.filesz + size) && InWord(h.memsz + size)
    ensures var r := GrowExecutable(s, h, at, size);
            && (forall i :: 0 <= i < |s| && !(at <= i < at + 32) ==> r[i] == s[i])
            && HeaderAt(r, at) == HeaderAt(s, at).(filesz := h.filesz + size, memsz := h.memsz + size)
  {
    hide U32, PutU32;
    var once := PutU32(s, at + 16, h.filesz + size);
    var r := GrowExecutable(s, h, at, size);
    assert forall i :: 0 <= i < |s| && !(at + 16 <= i < at + 24) ==> r[i] == s[i];
    U32Same(r, at + 16, once, at + 16);
    U32Same(r, at, s, at);
    U32Same(r, at + 4, s, at + 4);
    U32Same(r, at + 8, s, at + 8);
    U32Same(r, at + 12, s, at + 12);
    U32Same(r, at + 24, s, at + 24);
    U32Same(r, at + 28, s, at + 28);
  }

  /** A header whose offset word alone was rewritten. */
  lemma OffsetEffect(s: seq<u8>, r: seq<u8>, at: nat)
    requires |s| == |r| && at + 32 <= |s|
    requires forall i :: at <= i < at + 32 && !(at + 4 <= i < at + 8) ==> r[i] == s[i]
    ensures HeaderAt(r, at) == HeaderAt(s, at).(offset := U32(r, at + 4))
  {
    hide U32;
    U32Same(r, at, s, at);
    U32Same(r, at + 8, s, at + 8);
    U32Same(r, at + 12, s, at + 12);
    U32Same(r, at + 16, s, at + 16);
    U32Same(r, at + 20, s, at + 20);
    U32Same(r, at + 24, s, at + 24);
    U32Same(r, at + 28, s, at + 28);
  }

  // -------------------------------------------------------------- all stages

  lemma SegmentWordsSpaced(data: seq<u8>)
    requires Verified(data)
    ensures Spaced(SegmentWords(data))
    ensures forall i :: InPlaces(SegmentWords(data), i) ==> U32(data, 28) <= i < TableEnd(data)
  {
    hide U32;
    var places := SegmentWords(data);
    forall i | InPlaces(places, i)
      ensures U32(data, 28) <= i < TableEnd(data)
    {
      var k :| 0 <= k < |places| && places[k] <= i < places[k] + 4;
    }
  }

  lemma SectionWordsSpaced(data: seq<u8>, table: nat)
    requires Verified(data)
    ensures Spaced(SectionWords(data, table))
    ensures forall i :: InPlaces(SectionWords(data, table), i) ==>
              table <= i < table + SECTION_HEADER_SIZE * U16(data, 48)
  {
    hide U32;
    var places := SectionWords(data, table);
    forall i | InPlaces(places, i)
      ensures table <= i < table + SECTION_HEADER_SIZE * U16(data, 48)
    {
      var k :| 0 <= k < |places| && places[k] <= i < places[k] + 4;
    }
  }

  /** A section table moves as a whole. */
  lemma SectionWordsMove(data: seq<u8>, table: nat, step: nat, i: int)
    requires Verified(data)
    ensures InPlaces(SectionWords(data, table), i) <==> InPlaces(SectionWords(data, table + step), i + step)
  {
    hide U32;
    var places, moved := SectionWords(data, table), SectionWords(data, table + step);
    assert forall k :: 0 <= k < |places| ==> moved[k] == places[k] + step;
    if InPlaces(places, i) {
      var k :| 0 <= k < |places| && places[k] <= i < places[k] + 4;
      assert moved[k] <= i + step < moved[k] + 4;
    }
    if InPlaces(moved, i + step) {
      var k :| 0 <= k < |moved| && moved[k] <= i + step < moved[k] + 4;
      assert places[k] <= i < places[k] + 4;
    }
  }

  lemma SegmentPlace(data: seq<u8>, cave: nat, insertion: nat, k: nat)
    requires Laid(data, cave, insertion) && k < |HeadersOf(data)|
    ensures HEADER_SIZE <= U32(data, 28) <= SegmentHeader(data, k)
    ensures SegmentHeader(data, k) + 32 <= TableEnd(data) <= cave <= insertion <= |data|
    ensures HeaderAt(data, SegmentHeader(data, k)) == HeadersOf(data)[k]
  {
    hide U32, HeaderAt, U16;
    assert HeadersOf(data) == Entries(data, U32(data, 28), U16(data, 44));
  }

  lemma SegmentKept(data: seq<u8>, cave: nat, plan: Plan, k: nat)
    requires Laid(data, cave, plan.insertion) && InWord(NewSectionTable(U32(data, 32), plan))
    requires k < |HeadersOf(data)|
    ensures SegmentHeader(data, k) + 32 <= TableEnd(data) <= |data|
    ensures HeaderAt(Opened(data, plan), SegmentHeader(data, k)) == HeadersOf(data)[k]
  {
    hide U32, Opened, HeaderAt, HeadersOf, ProgramHeaders, SegmentHeader, TableEnd, NewSectionTable;
    var at := SegmentHeader(data, k);
    SegmentPlace(data, cave, plan.insertion, k);
    OpenedEffect(data, plan);
    forall i | at <= i < at + 32
      ensures Opened(data, plan)[i] == data[i]
    {
      assert Landing(plan, i) == i;
    }
    HeaderSame(Opened(data, plan), at, data, at);
  }

  lemma SegmentsOutside(data: seq<u8>, cave: nat, headers: seq<Header>, plan: Plan, size: nat)
    requires Laid(data, cave, plan.insertion) && Ready(data, headers, plan, size)
    ensures var o := Opened(data, plan); var m := WithSegments(data, headers, plan, size);
            forall i :: 0 <= i < |m| && !(U32(data, 28) <= i < TableEnd(data)) ==> m[i] == o[i]
  {
    hide U32, Opened, HeaderAt, Patch;
    SegmentWordsSpaced(data);
    PatchEffect(Opened(data, plan), SegmentWords(data), SegmentMoves(headers, plan), |headers|);
  }

  lemma BetweenSegmentWords(data: seq<u8>, k: nat, i: int)
    requires Verified(data) && k < U16(data, 44)
    requires var at := SegmentHeader(data, k); at <= i < at + 32 && !(at + 4 <= i < at + 8)
    ensures !InPlaces(SegmentWords(data), i)
  {
    hide U32;
    var places := SegmentWords(data);
    assert forall j :: 0 <= j < |places| ==> places[j] == SegmentHeader(data, k) + 4 + PROGRAM_HEADER_SIZE * (j - k);
  }

  lemma SegmentsInside(data: seq<u8>, cave: nat, headers: seq<Header>, plan: Plan, size: nat, k: nat)
    requires Laid(data, cave, plan.insertion) && Ready(data, headers, plan, size)
    requires k < |headers|
    ensures HeaderAt(WithSegments(data, headers, plan, size), SegmentHeader(data, k))
            == headers[k].(offset := MovedOffset(headers[k].offset, plan))
  {
    hide U32, Opened, HeaderAt, Patch, Laid;
    var places, at := SegmentWords(data), SegmentHeader(data, k);
    SegmentWordsSpaced(data);
    SegmentPlace(data, cave, plan.insertion, k);
    SegmentKept(data, cave, plan, k);
    var o, m := Opened(data, plan), WithSegments(data, headers, plan, size);
    SegmentWordsFit(data, cave, plan.insertion);
    PatchEffect(o, places, SegmentMoves(headers, plan), |headers|);
    forall i | at <= i < at + 32 && !(at + 4 <= i < at + 8)
      ensures m[i] == o[i]
    {
      BetweenSegmentWords(data, k, i);
    }
    OffsetEffect(o, m, at);
    OffsetOf(o, at, headers[k]);
    assert places[k] == at + 4;
  }

  lemma SegmentWordsFit(data: seq<u8>, cave: nat, insertion: nat)
    requires Laid(data, cave, insertion)
    ensures forall k :: 0 <= k < |SegmentWords(data)| ==> SegmentWords(data)[k] + 4 <= |data|
  {
    hide U32;
  }

  lemma OffsetOf(s: seq<u8>, at: nat, h: Header)
    requires at + 32 <= |s| && HeaderAt(s, at) == h
    ensures U32(s, at + 4) == h.offset
  {
  }

  lemma SizesOutside(data: seq<u8>, cave: nat, headers: seq<Header>, plan: Plan, size: nat)
    requires Laid(data, cave, plan.insertion) && Ready(data, headers, plan, size)
    ensures var o := Opened(data, plan); var g := WithSizes(data, headers, plan, size);
            forall i :: 0 <= i < |g| && !(U32(data, 28) <= i < TableEnd(data)) ==> g[i] == o[i]
  {
    hide U32, Opened, HeaderAt, Patch, GrowExecutable, WithSegments, Laid, SegmentHeader, TableEnd;
    var e, h := SegmentHeader(data, plan.executable), headers[plan.executable];
    SegmentPlace(data, cave, plan.insertion, plan.executable);
    SegmentsOutside(data, cave, headers, plan, size);
    GrowEffect(WithSegments(data, headers, plan, size), h, e, size);
  }

  lemma SizesInside(data: seq<u8>, cave: nat, headers: seq<Header>, plan: Plan, size: nat, k: nat)
    requires Laid(data, cave, plan.insertion) && Ready(data, headers, plan, size)
    requires k < |headers|
    ensures HeaderAt(WithSizes(data, headers, plan, size), SegmentHeader(data, k)) == MovedHeader(headers[k], plan, k, size)
  {
    hide U32, Opened, HeaderAt, Patch, GrowExecutable, WithSegments, Laid, TableEnd;
    var e, at := SegmentHeader(data, plan.executable), SegmentHeader(data, k);
    SegmentPlace(data, cave, plan.insertion, plan.executable);
    SegmentPlace(data, cave, plan.insertion, k);
    SegmentsInside(data, cave, headers, plan, size, k);
    var m, g := WithSegments(data, headers, plan, size), WithSizes(data, headers, plan, size);
    GrowEffect(m, headers[plan.executable], e, size);
    if k != plan.executable {
      assert at + 32 <= e || e + 32 <= at;
      HeaderSame(g, at, m, at);
    }
  }

  /** The word of section header `k` before the table's own words are rewritten. */
  lemma SectionKept(data: seq<u8>, cave: nat, headers: seq<Header>, plan: Plan, size: nat, k: nat)
    requires Laid(data, cave, plan.insertion) && Ready(data, headers, plan, size)
    requires k < U16(data, 48)
    ensures var words := SectionWords(data, NewSectionTable(U32(data, 32), plan));
            && words[k] + 4 <= |data| + plan.shift
            && U32(WithSizes(data, headers, plan, size), words[k]) == SectionOffset(data, k)
  {
    hide U32, Opened, HeaderAt, WithSizes;
    var o, g := Opened(data, plan), WithSizes(data, headers, plan, size);
    SizesOutside(data, cave, headers, plan, size);
    OpenedEffect(data, plan);
    var was := U32(data, 32) + SECTION_HEADER_SIZE * k + 16;
    var word := SectionWords(data, NewSectionTable(U32(data, 32), plan))[k];
    assert word == Landing(plan, was);
    forall i | was <= i < was + 4
      ensures g[i - was + word] == data[i]
    {
      assert Landing(plan, i) == i - was + word;
      assert !(U32(data, 28) <= i - was + word < TableEnd(data));
      assert g[i - was + word] == o[i - was + word];
    }
    U32Same(g, word, data, was);
  }

  lemma SectionsEffect(data: seq<u8>, cave: nat, headers: seq<Header>, plan: Plan, size: nat)
    requires Laid(data, cave, plan.insertion) && Ready(data, headers, plan, size)
    ensures var words := SectionWords(data, NewSectionTable(U32(data, 32), plan));
            var g := WithSizes(data, headers, plan, size); var t := WithSections(data, headers, plan, size);
            && (forall i :: 0 <= i < |t| && !InPlaces(words, i) ==> t[i] == g[i])
            && (forall k :: 0 <= k < |words| ==>
                  words[k] + 4 <= |t| && U32(t, words[k]) == MovedOffset(SectionOffset(data, k), plan))
  {
    hide U32, Opened, HeaderAt, WithSizes, Patch, Laid, NewSectionTable, InPlaces, Spaced, ProgramHeaders;
    var table := NewSectionTable(U32(data, 32), plan);
    var words := SectionWords(data, table);
    SectionWordsSpaced(data, table);
    forall k | 0 <= k < |words|
      ensures words[k] + 4 <= |data| + plan.shift
      ensures U32(WithSizes(data, headers, plan, size), words[k]) == SectionOffset(data, k)
    {
      SectionKept(data, cave, headers, plan, size, k);
    }
    PatchEffect(WithSizes(data, headers, plan, size), words, SectionMoves(data, plan), U16(data, 48));
  }

  // --------------------------------------------------------------- the whole

  /** The moved section table keeps clear of the ELF header, of the program headers and of the cave. */
  lemma SectionWordsClear(data: seq<u8>, cave: nat, plan: Plan, i: int)
    requires Laid(data, cave, plan.insertion)
    requires InPlaces(SectionWords(data, NewSectionTable(U32(data, 32), plan)), i)
    ensures HEADER_SIZE <= i && !(U32(data, 28) <= i < TableEnd(data))
    ensures !(cave <= i < plan.insertion + plan.shift)
  {
    hide U32, ProgramHeaders;
    SectionWordsSpaced(data, NewSectionTable(U32(data, 32), plan));
  }

  /** Away from both tables the last stage before the payload still has the opened file's bytes. */
  lemma SectionsOutside(data: seq<u8>, cave: nat, headers: seq<Header>, plan: Plan, size: nat, i: nat)
    requires Laid(data, cave, plan.insertion) && Ready(data, headers, plan, size)
    requires i < |data| + plan.shift && !(U32(data, 28) <= i < TableEnd(data))
    requires !InPlaces(SectionWords(data, NewSectionTable(U32(data, 32), plan)), i)
    ensures WithSections(data, headers, plan, size)[i] == Opened(data, plan)[i]
  {
    hide U32, Opened, WithSizes, WithSections, InPlaces, Laid, TableEnd;
    SizesOutside(data, cave, headers, plan, size);
    SectionsEffect(data, cave, headers, plan, size);
  }

  lemma AssignEffect(s: seq<u8>, at: nat, v: seq<u8>, i: nat)
    requires at + |v| <= |s| && i < |s|
    ensures |Assign(s, at, at + |v|, v)| == |s|
    ensures Assign(s, at, at + |v|, v)[i] == if at <= i < at + |v| then v[i - at] else s[i]
  {
  }

  lemma PayloadEffect(data: seq<u8>, headers: seq<Header>, plan: Plan, place: Place, payload: seq<u8>, i: nat)
    requires Ready(data, headers, plan, |payload|) && place.offset + |payload| <= |data| + plan.shift
    requires i < |data| + plan.shift
    ensures Written(data, headers, plan, place, payload)[i]
            == if place.offset <= i < place.offset + |payload| then payload[i - place.offset]
               else WithSections(data, headers, plan, |payload|)[i]
  {
    hide U32, Writable, ProgramHeaders, WithSections, Assign;
    AssignEffect(WithSections(data, headers, plan, |payload|), place.offset, payload, i);
  }

  lemma LaidBounds(data: seq<u8>, cave: nat, insertion: nat)
    requires Laid(data, cave, insertion)
    ensures Verified(data) && HEADER_SIZE <= U32(data, 28) <= TableEnd(data) <= cave <= insertion <= |data|
  {
    hide U32, ProgramHeaders;
  }

  lemma TableInWord(data: seq<u8>, headers: seq<Header>, plan: Plan, size: nat)
    requires Ready(data, headers, plan, size)
    ensures InWord(NewSectionTable(U32(data, 32), plan))
  {
    hide U32, ProgramHeaders;
  }

  lemma OldBytesKept(data: seq<u8>, headers: seq<Header>, plan: Plan, place: Place, payload: seq<u8>, i: nat)
    requires Laid(data, place.offset, plan.insertion) && Ready(data, headers, plan, |payload|)
    requires Fits(plan, place, |payload|)
    requires i < |data| && !TableByte(data, i) && !(place.offset <= i < plan.insertion)
    ensures Written(data, headers, plan, place, payload)[Landing(plan, i)] == data[i]
  {
    hide U32, Opened, WithSections, InPlaces, Written, ProgramHeaders, Ready, NewSectionTable;
    PayloadEffect(data, headers, plan, place, payload, Landing(plan, i));
    TableInWord(data, headers, plan, |payload|);
    OpenedEffect(data, plan);
    SectionWordLanding(data, place.offset, plan, i);
    SectionsOutside(data, place.offset, headers, plan, |payload|, Landing(plan, i));
  }

  /** A byte outside the section words lands outside the moved section words. */
  lemma SectionWordLanding(data: seq<u8>, cave: nat, plan: Plan, i: nat)
    requires Laid(data, cave, plan.insertion) && i < |data|
    requires !InPlaces(SectionWords(data, U32(data, 32)), i) && !(cave <= i < plan.insertion)
    ensures !InPlaces(SectionWords(data, NewSectionTable(U32(data, 32), plan)), Landing(plan, i))
  {
    hide U32, InPlaces, ProgramHeaders;
    var table := NewSectionTable(U32(data, 32), plan);
    if InPlaces(SectionWords(data, table), Landing(plan, i)) {
      SectionWordsClear(data, cave, plan, Landing(plan, i));
      SectionWordsSpaced(data, table);
      SectionWordsMove(data, U32(data, 32), table - U32(data, 32), Landing(plan, i) - (table - U32(data, 32)));
    }
  }

  /** What an injection leaves behind the payload is zero up to the end of the widened cave. */
  lemma RestIsZero(data: seq<u8>, headers: seq<Header>, plan: Plan, place: Place, payload: seq<u8>, i: nat)
    requires Laid(data, place.offset, plan.insertion) && Ready(data, headers, plan, |payload|)
    requires Fits(plan, place, |payload|) && ZeroFilled(data, place.offset, plan.insertion)
    requires place.offset + |payload| <= i < plan.insertion + plan.shift
    ensures Written(data, headers, plan, place, payload)[i] == 0
  {
    hide U32, Opened, WithSections, InPlaces, Written, Laid, Ready, NewSectionTable, TableEnd;
    LaidBounds(data, place.offset, plan.insertion);
    PayloadEffect(data, headers, plan, place, payload, i);
    TableInWord(data, headers, plan, |payload|);
    OpenedEffect(data, plan);
    if InPlaces(SectionWords(data, NewSectionTable(U32(data, 32), plan)), i) {
      SectionWordsClear(data, place.offset, plan, i);
    }
    SectionsOutside(data, place.offset, headers, plan, |payload|, i);
    if i < plan.insertion {
      assert Landing(plan, i) == i;
    }
  }

  lemma CaveFilled(data: seq<u8>, headers: seq<Header>, plan: Plan, place: Place, payload: seq<u8>)
    requires Laid(data, place.offset, plan.insertion) && Ready(data, headers, plan, |payload|)
    requires Fits(plan, place, |payload|) && ZeroFilled(data, place.offset, plan.insertion)
    ensures CaveHolds(Written(data, headers, plan, place, payload), place.offset, payload, plan.insertion + plan.shift)
  {
    hide U32, Written, Laid, Ready, NewSectionTable, TableEnd;
    LaidBounds(data, place.offset, plan.insertion);
    var r := Written(data, headers, plan, place, payload);
    forall i | place.offset <= i < plan.insertion + plan.shift
      ensures r[i] == if i < place.offset + |payload| then payload[i - place.offset] else 0
    {
      if i < place.offset + |payload| {
        PayloadEffect(data, headers, plan, place, payload, i);
      } else {
        RestIsZero(data, headers, plan, place, payload, i);
      }
    }
  }

  /** Outside the payload's range and the moved section words, nothing happens after the program headers. */
  lemma LateStages(data: seq<u8>, headers: seq<Header>, plan: Plan, place: Place, payload: seq<u8>, i: nat)
    requires Laid(data, place.offset, plan.insertion) && Ready(data, headers, plan, |payload|)
    requires Fits(plan, place, |payload|) && i < place.offset
    requires !InPlaces(SectionWords(data, NewSectionTable(U32(data, 32), plan)), i)
    ensures Written(data, headers, plan, place, payload)[i] == WithSizes(data, headers, plan, |payload|)[i]
  {
    hide U32, WithSizes, WithSections, InPlaces, Written, Laid, Ready, NewSectionTable, TableEnd;
    LaidBounds(data, place.offset, plan.insertion);
    PayloadEffect(data, headers, plan, place, payload, i);
    SectionsEffect(data, place.offset, headers, plan, |payload|);
  }

  lemma TablePlaceNoted(data: seq<u8>, headers: seq<Header>, plan: Plan, place: Place, payload: seq<u8>)
    requires Laid(data, place.offset, plan.insertion) && Ready(data, headers, plan, |payload|)
    requires Fits(plan, place, |payload|)
    ensures U32(Written(data, headers, plan, place, payload), 32) == NewSectionTable(U32(data, 32), plan)
  {
    hide U32, Opened, WithSizes, InPlaces, Written, Laid, Ready, NewSectionTable, TableEnd;
    LaidBounds(data, place.offset, plan.insertion);
    TableInWord(data, headers, plan, |payload|);
    var r, o := Written(data, headers, plan, place, payload), Opened(data, plan);
    SizesOutside(data, place.offset, headers, plan, |payload|);
    OpenedEffect(data, plan);
    forall i | 32 <= i < 36
      ensures r[i] == o[i]
    {
      if InPlaces(SectionWords(data, NewSectionTable(U32(data, 32), plan)), i) {
        SectionWordsClear(data, place.offset, plan, i);
      }
      LateStages(data, headers, plan, place, payload, i);
    }
    U32Same(r, 32, o, 32);
  }

  lemma HeadersWritten(data: seq<u8>, plan: Plan, place: Place, payload: seq<u8>)
    requires Laid(data, place.offset, plan.insertion) && Ready(data, HeadersOf(data), plan, |payload|)
    requires Fits(plan, place, |payload|)
    ensures HeadersMoved(data, plan, |payload|, Written(data, HeadersOf(data), plan, place, payload))
  {
    hide U32, HeadersOf, WithSizes, InPlaces, Written, Laid, NewSectionTable, TableEnd, SegmentHeader, HeaderAt,
      MovedHeader;
    LaidBounds(data, place.offset, plan.insertion);
    var headers := HeadersOf(data);
    var r, g := Written(data, headers, plan, place, payload), WithSizes(data, headers, plan, |payload|);
    forall k | 0 <= k < |headers|
      ensures SegmentHeader(data, k) + 32 <= |r|
      ensures HeaderAt(r, SegmentHeader(data, k)) == MovedHeader(headers[k], plan, k, |payload|)
    {
      SegmentPlace(data, place.offset, plan.insertion, k);
      HeaderWritten(data, headers, plan, place, payload, SegmentHeader(data, k));
      SizesInside(data, place.offset, headers, plan, |payload|, k);
    }
  }

  lemma HeaderWritten(data: seq<u8>, headers: seq<Header>, plan: Plan, place: Place, payload: seq<u8>, at: nat)
    requires Laid(data, place.offset, plan.insertion) && Ready(data, headers, plan, |payload|)
    requires Fits(plan, place, |payload|) && U32(data, 28) <= at && at + 32 <= TableEnd(data)
    ensures at + 32 <= |data| + plan.shift
    ensures HeaderAt(Written(data, headers, plan, place, payload), at)
            == HeaderAt(WithSizes(data, headers, plan, |payload|), at)
  {
    hide U32, WithSizes, InPlaces, Written, Laid, Ready, NewSectionTable, TableEnd, HeaderAt;
    LaidBounds(data, place.offset, plan.insertion);
    var r, g := Written(data, headers, plan, place, payload), WithSizes(data, headers, plan, |payload|);
    forall i | at <= i < at + 32
      ensures r[i] == g[i]
    {
      if InPlaces(SectionWords(data, NewSectionTable(U32(data, 32), plan)), i) {
        SectionWordsClear(data, place.offset, plan, i);
      }
      LateStages(data, headers, plan, place, payload, i);
    }
    HeaderSame(r, at, g, at);
  }

  lemma SectionsWritten(data: seq<u8>, headers: seq<Header>, plan: Plan, place: Place, payload: seq<u8>)
    requires Laid(data, place.offset, plan.insertion) && Ready(data, headers, plan, |payload|)
    requires Fits(plan, place, |payload|)
    ensures SectionsEnd(data) <= |data|
    ensures SectionsMoved(data, plan, Written(data, headers, plan, place, payload))
  {
    hide U32, WithSections, Written, Ready, NewSectionTable, TableEnd, ProgramHeaders, SectionOffset;
    LaidBounds(data, place.offset, plan.insertion);
    var words := SectionWords(data, NewSectionTable(U32(data, 32), plan));
    var r, t := Written(data, headers, plan, place, payload), WithSections(data, headers, plan, |payload|);
    SectionsEffect(data, place.offset, headers, plan, |payload|);
    forall k | 0 <= k < U16(data, 48)
      ensures var word := MovedSectionWord(data, plan, k);
              word + 4 <= |r| && U32(r, word) == MovedOffset(SectionOffset(data, k), plan)
    {
      assert words[k] == MovedSectionWord(data, plan, k);
      SectionWordWritten(data, headers, plan, place, payload, k);
    }
  }

  lemma SectionWordWritten(data: seq<u8>, headers: seq<Header>, plan: Plan, place: Place, payload: seq<u8>, k: nat)
    requires Laid(data, place.offset, plan.insertion) && Ready(data, headers, plan, |payload|)
    requires Fits(plan, place, |payload|) && k < U16(data, 48)
    requires MovedSectionWord(data, plan, k) + 4 <= |data| + plan.shift
    ensures U32(Written(data, headers, plan, place, payload), MovedSectionWord(data, plan, k))
            == U32(WithSections(data, headers, plan, |payload|), MovedSectionWord(data, plan, k))
  {
    hide U32, WithSections, Written, Laid, Ready, NewSectionTable, TableEnd, ProgramHeaders;
    LaidBounds(data, place.offset, plan.insertion);
    var words := SectionWords(data, NewSectionTable(U32(data, 32), plan));
    var word := MovedSectionWord(data, plan, k);
    var r, t := Written(data, headers, plan, place, payload), WithSections(data, headers, plan, |payload|);
    forall i | word <= i < word + 4
      ensures r[i] == t[i]
    {
      assert words[k] <= i < words[k] + 4;
      SectionWordsClear(data, place.offset, plan, i);
      PayloadEffect(data, headers, plan, place, payload, i);
    }
    U32Same(r, word, t, word);
  }

  lemma OldBytesWritten(data: seq<u8>, headers: seq<Header>, plan: Plan, place: Place, payload: seq<u8>)
    requires Laid(data, place.offset, plan.insertion) && Ready(data, headers, plan, |payload|)
    requires Fits(plan, place, |payload|)
    ensures |Written(data, headers, plan, place, payload)| == |data| + plan.shift
    ensures OldBytes(data, plan, place.offset, Written(data, headers, plan, place, payload))
  {
    hide U32, Written, Laid, Ready, NewSectionTable, TableEnd, TableByte;
    LaidBounds(data, place.offset, plan.insertion);
    forall i | 0 <= i < |data| && !TableByte(data, i) && !(place.offset <= i < plan.insertion)
      ensures Written(data, headers, plan, place, payload)[Landing(plan, i)] == data[i]
    {
      OldBytesKept(data, headers, plan, place, payload, i);
    }
  }

  /** The construction meets the description. */
  lemma WrittenIsInjected(data: seq<u8>, plan: Plan, place: Place, payload: seq<u8>)
    requires Laid(data, place.offset, plan.insertion) && Ready(data, HeadersOf(data), plan, |payload|)
    requires Fits(plan, place, |payload|) && ZeroFilled(data, place.offset, plan.insertion)
    ensures Injected(data, plan, place, payload, Written(data, HeadersOf(data), plan, place, payload))
  {
    hide U32, U16, Written, Laid, Ready, ZeroFilled, HeadersOf, NewSectionTable, OldBytes, CaveHolds, HeadersMoved,
      SectionsMoved;
    LaidBounds(data, place.offset, plan.insertion);
    OldBytesWritten(data, HeadersOf(data), plan, place, payload);
    CaveFilled(data, HeadersOf(data), plan, place, payload);
    TablePlaceNoted(data, HeadersOf(data), plan, place, payload);
    HeadersWritten(data, plan, place, payload);
    SectionsWritten(data, HeadersOf(data), plan, place, payload);
  }
}
