/**
 * The description of an injection's result leaves no byte open, and it survives a second
 * injection: the ground for composing injections.
 */
module ElfUnique {
  import opened Wrappers
  import opened Bytes
  import opened LittleEndian
  import opened Elf
  import opened ElfImage

  lemma U32ByteAt(s: seq<u8>, t: seq<u8>, at: nat, i: nat)
    requires at + 4 <= |s| && at + 4 <= |t| && U32(s, at) == U32(t, at) && at <= i < at + 4
    ensures s[i] == t[i]
  {
    hide U32;
    U32Bytes(s, t, at);
  }

  lemma HeaderByteAt(s: seq<u8>, t: seq<u8>, at: nat, i: nat)
    requires at + 32 <= |s| && at + 32 <= |t| && HeaderAt(s, at) == HeaderAt(t, at) && at <= i < at + 32
    ensures s[i] == t[i]
  {
    hide U32;
    U32Bytes(s, t, at);
    U32Bytes(s, t, at + 4);
    U32Bytes(s, t, at + 8);
    U32Bytes(s, t, at + 12);
    U32Bytes(s, t, at + 16);
    U32Bytes(s, t, at + 20);
    U32Bytes(s, t, at + 24);
    U32Bytes(s, t, at + 28);
  }

  /** A byte of the program header table belongs to one of its headers. */
  lemma SegmentOfByte(data: seq<u8>, i: nat) returns (k: nat)
    requires Verified(data) && U32(data, 28) <= i < TableEnd(data)
    ensures k < U16(data, 44) && SegmentHeader(data, k) <= i < SegmentHeader(data, k) + 32
  {
    hide U32;
    k := (i - U32(data, 28)) / PROGRAM_HEADER_SIZE;
  }

  lemma HeaderCount(data: seq<u8>, cave: nat, insertion: nat)
    requires Laid(data, cave, insertion)
    ensures |HeadersOf(data)| == U16(data, 44)
  {
    hide U32;
  }

  /** Two files that both meet the description agree on the program header table. */
  lemma SameSegments(data: seq<u8>, cave: nat, plan: Plan, size: nat, r: seq<u8>, t: seq<u8>, i: nat)
    requires Laid(data, cave, plan.insertion)
    requires HeadersMoved(data, plan, size, r) && HeadersMoved(data, plan, size, t)
    requires U32(data, 28) <= i < TableEnd(data)
    ensures i < |r| && i < |t| && r[i] == t[i]
  {
    hide U32, Laid, HeaderAt, HeadersOf, MovedHeader, SegmentHeader, TableEnd;
    LaidBounds(data, cave, plan.insertion);
    HeaderCount(data, cave, plan.insertion);
    var k := SegmentOfByte(data, i);
    HeaderByteAt(r, t, SegmentHeader(data, k), i);
  }

  /** And on the section offsets. */
  lemma SameSections(data: seq<u8>, plan: Plan, r: seq<u8>, t: seq<u8>, i: nat)
    requires Verified(data) && SectionsEnd(data) <= |data|
    requires SectionsMoved(data, plan, r) && SectionsMoved(data, plan, t)
    requires InPlaces(SectionWords(data, NewSectionTable(U32(data, 32), plan)), i)
    ensures i < |r| && i < |t| && r[i] == t[i]
  {
    hide U32, NewSectionTable, SectionOffset, MovedOffset, SectionsEnd;
    var words := SectionWords(data, NewSectionTable(U32(data, 32), plan));
    var k :| 0 <= k < |words| && words[k] <= i < words[k] + 4;
    assert words[k] == MovedSectionWord(data, plan, k);
    U32ByteAt(r, t, MovedSectionWord(data, plan, k), i);
  }

  /** A byte that lands in a moved section word comes from a section word. */
  lemma SectionByteLands(data: seq<u8>, cave: nat, plan: Plan, i: nat)
    requires Laid(data, cave, plan.insertion) && i < |data|
    requires InPlaces(SectionWords(data, U32(data, 32)), i)
    ensures InPlaces(SectionWords(data, NewSectionTable(U32(data, 32), plan)), Landing(plan, i))
  {
    hide U32, InPlaces, ProgramHeaders;
    var table: nat := U32(data, 32);
    SectionWordsSpaced(data, table);
    SectionWordsMove(data, table, NewSectionTable(table, plan) - table, i);
  }

  lemma SameOldByte(data: seq<u8>, plan: Plan, place: Place, payload: seq<u8>, r: seq<u8>, t: seq<u8>, i: nat)
    requires Laid(data, place.offset, plan.insertion)
    requires Fits(plan, place, |payload|) && i < |data| && !(place.offset <= i < plan.insertion)
    requires Injected(data, plan, place, payload, r) && Injected(data, plan, place, payload, t)
    ensures r[Landing(plan, i)] == t[Landing(plan, i)]
  {
    hide U32, Laid, Ready, HeadersMoved, SectionsMoved, CaveHolds, InPlaces, TableEnd, SectionsEnd, NewSectionTable;
    LaidBounds(data, place.offset, plan.insertion);
    SectionsInFile(data, place.offset, plan.insertion);
    if TableByte(data, i) {
      if 32 <= i < 36 {
        U32ByteAt(r, t, 32, i);
      } else if U32(data, 28) <= i < TableEnd(data) {
        SameSegments(data, place.offset, plan, |payload|, r, t, i);
      } else {
        SectionByteLands(data, place.offset, plan, i);
        SameSections(data, plan, r, t, Landing(plan, i));
      }
    }
  }

  lemma SectionsInFile(data: seq<u8>, cave: nat, insertion: nat)
    requires Laid(data, cave, insertion)
    ensures SectionsEnd(data) <= |data|
  {
    hide U32, ProgramHeaders;
  }

  /** Only one file meets the description. */
  lemma InjectedIsUnique(data: seq<u8>, plan: Plan, place: Place, payload: seq<u8>, r: seq<u8>, t: seq<u8>)
    requires Laid(data, place.offset, plan.insertion)
    requires Fits(plan, place, |payload|)
    requires Injected(data, plan, place, payload, r) && Injected(data, plan, place, payload, t)
    ensures r == t
  {
    hide U32, Laid, Ready, HeadersMoved, SectionsMoved, OldBytes, NewSectionTable;
    LaidBounds(data, place.offset, plan.insertion);
    forall i | 0 <= i < |r|
      ensures r[i] == t[i]
    {
      if i < place.offset {
        SameOldByte(data, plan, place, payload, r, t, i);
      } else if plan.insertion + plan.shift <= i {
        SameOldByte(data, plan, place, payload, r, t, i - plan.shift);
      }
    }
  }
}
