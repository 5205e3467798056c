/**
 * patch_apk.py's `inject_payload` and `replace_exact` as they run, step by step.  The growing
 * bytearray is a local sequence; replacements, which keep the length, work on an array.
 */
module ElfInjector {
  import opened Wrappers
  import opened Bytes
  import opened LittleEndian
  import opened Elf
  import opened ElfHooks

  lemma {:induction false} ExecutableStays(headers: seq<Header>, place: Place, n: nat, m: nat)
    requires n <= m <= |headers| && Executable(headers, place, n).Some?
    ensures Executable(headers, place, m) == Executable(headers, place, n)
  {
    if n < m {
      ExecutableStays(headers, place, n, m - 1);
    }
  }

  method FindExecutable(headers: seq<Header>, place: Place) returns (r: Option<nat>)
    ensures r == Executable(headers, place, |headers|)
  {
    r := None;
    var i := 0;
    while i < |headers| && r.None?
      invariant i <= |headers| && r == Executable(headers, place, i)
    {
      if EndsAt(headers[i], place) {
        r := Some(i);
      }
      i := i + 1;
    }
    if r.Some? {
      ExecutableStays(headers, place, i, |headers|);
    }
  }

  method FindNextLoad(headers: seq<Header>, bound: nat) returns (r: Option<nat>)
    ensures r == NextLoad(headers, bound, |headers|)
  {
    r := None;
    for i := 0 to |headers|
      invariant r == NextLoad(headers, bound, i)
    {
      if Follows(headers[i], bound) && (r.None? || headers[i].vaddr < headers[r.value].vaddr) {
        r := Some(i);
      }
    }
  }

  method IsZeroFilled(data: seq<u8>, from: nat, to: nat) returns (zero: bool)
    ensures zero == ZeroFilled(data, from, to)
  {
    zero := true;
    var i := from;
    while i < to && i < |data| && zero
      invariant from <= i
      invariant zero == forall k :: from <= k < i && k < |data| && k < to ==> data[k] == 0
    {
      zero := data[i] == 0;
      i := i + 1;
    }
  }

  /** The checks of an injection, up to the choice of the shift. */
  method ChoosePlan(data: seq<u8>, headers: seq<Header>, place: Place, size: nat) returns (r: Option<Plan>)
    ensures r == MakePlan(data, headers, place, size)
  {
    hide Executable, NextLoad, ZeroFilled, AndMinus, And;
    var executable := FindExecutable(headers, place);
    if executable.None? {
      return None;
    }
    var next := FindNextLoad(headers, place.vaddr + size);
    if next.None? {
      return None;
    }
    var insertion, alignment := headers[next.value].offset, headers[next.value].alignment;
    if place.offset > insertion {
      return None;
    }
    var zero := IsZeroFilled(data, place.offset, insertion);
    if !zero {
      return None;
    }
    var required := Required(insertion - place.offset, size);
    if required > 0 && (alignment == 0 || !OneBit(alignment)) {
      return None;
    }
    return Some(Plan(executable.value, insertion, Shift(required, alignment)));
  }

  /** `original_section_offsets`. */
  method ReadSectionOffsets(data: seq<u8>) returns (offsets: seq<nat>)
    requires Verified(data) && U32(data, 32) + SECTION_HEADER_SIZE * U16(data, 48) <= |data|
    ensures |offsets| == U16(data, 48)
    ensures forall k :: 0 <= k < |offsets| ==> offsets[k] == SectionOffset(data, k)
  {
    hide U32, U16;
    offsets := [];
    for k := 0 to U16(data, 48)
      invariant |offsets| == k
      invariant forall j :: 0 <= j < k ==> offsets[j] == SectionOffset(data, j)
    {
      offsets := offsets + [SectionOffset(data, k)];
    }
  }

  /** One loop of offset writes; it gives up at the first offset that does not fit its word. */
  method MoveOffsets(s: seq<u8>, offsets: seq<nat>, plan: Plan, first: nat, step: nat, ghost places: seq<nat>,
          ghost values: seq<Option<u32>>)
    returns (r: Option<seq<u8>>)
    requires |places| == |values| == |offsets| && 0 < step
    requires forall k :: 0 <= k < |places| ==> places[k] == first + step * k && places[k] + 4 <= |s|
    requires forall k :: 0 <= k < |values| ==> values[k] == MoveTo(offsets[k], plan)
    ensures r.Some? <==> forall k :: 0 <= k < |offsets| && Moves(offsets[k], plan) ==> InWord(MovedOffset(offsets[k], plan))
    ensures r.Some? ==> r.value == Patch(s, places, values, |places|)
  {
    var result := s;
    for k := 0 to |offsets|
      invariant forall j :: 0 <= j < k && Moves(offsets[j], plan) ==> InWord(MovedOffset(offsets[j], plan))
      invariant result == Patch(s, places, values, k)
    {
      if Moves(offsets[k], plan) {
        if !InWord(offsets[k] + plan.shift) {
          return None;
        }
        assert places[k] == first + step * k;
        result := PutU32(result, first + step * k, offsets[k] + plan.shift);
      }
    }
    return Some(result);
  }

  method KeepsCongruence(headers: seq<Header>) returns (kept: bool)
    ensures kept == Congruent(headers)
  {
    kept := true;
    var i := 0;
    while i < |headers| && kept
      invariant i <= |headers|
      invariant kept == forall k :: 0 <= k < i && headers[k].kind == LOAD && headers[k].alignment != 0 ==>
                          headers[k].offset % headers[k].alignment == headers[k].vaddr % headers[k].alignment
    {
      var h := headers[i];
      if h.kind == LOAD && h.alignment != 0 {
        kept := h.offset % h.alignment == h.vaddr % h.alignment;
      }
      i := i + 1;
    }
  }

  lemma OffsetsFit(data: seq<u8>, headers: seq<Header>)
    requires Verified(data) && ProgramHeaders(data) == Some(headers)
    ensures |headers| == U16(data, 44) && U32(data, 28) + PROGRAM_HEADER_SIZE * U16(data, 44) <= |data|
    ensures forall k :: 0 <= k < |headers| ==> InWord(headers[k].offset)
  {
    hide U16;
  }

  /** The writes of an injection under its plan; None where a number does not fit its word. */
  method WriteAll(data: seq<u8>, headers: seq<Header>, plan: Plan, place: Place,
          payload: seq<u8>) returns (r: Option<seq<u8>>)
    requires Verified(data) && ProgramHeaders(data) == Some(headers) && plan.executable < |headers|
    ensures r.Some? <==> Ready(data, headers, plan, |payload|)
    ensures r.Some? ==> r.value == Written(data, headers, plan, place, payload)
  {
    hide U32, U16, Patch, PutU32, Assign, GrowExecutable, Moves, ProgramHeaders;
    OffsetsFit(data, headers);
    var shoff: nat := U32(data, 32);
    if shoff + SECTION_HEADER_SIZE * U16(data, 48) > |data| {
      return None;
    }
    var sectionOffsets := ReadSectionOffsets(data);
    var table := NewSectionTable(shoff, plan);
    if !InWord(table) {
      return None;
    }
    var result := Opened(data, plan);
    var offsets := seq(|headers|, k requires 0 <= k < |headers| => headers[k].offset);
    var moved := MoveOffsets(result, offsets, plan, U32(data, 28) + 4, PROGRAM_HEADER_SIZE,
                             SegmentWords(data), SegmentMoves(headers, plan));
    SegmentsOrNot(data, headers, plan, offsets);
    var e := headers[plan.executable];
    if moved.None? || !InWord(e.filesz + |payload|) || !InWord(e.memsz + |payload|) {
      return None;
    }
    result := GrowExecutable(moved.value, e, SegmentHeader(data, plan.executable), |payload|);
    SectionPlaces(data, plan);
    var shifted := MoveOffsets(result, sectionOffsets, plan, table + 16, SECTION_HEADER_SIZE,
                               SectionWords(data, table), SectionMoves(data, plan));
    SectionsOrNot(data, plan, sectionOffsets);
    if shifted.None? {
      return None;
    }
    return Some(Assign(shifted.value, place.offset, place.offset + |payload|, payload));
  }

  /** An offset that stays put fits already, so the writes fail exactly where a moved one does not fit. */
  lemma SegmentsOrNot(data: seq<u8>, headers: seq<Header>, plan: Plan, offsets: seq<nat>)
    requires Verified(data) && ProgramHeaders(data) == Some(headers) && |offsets| == |headers|
    requires forall k :: 0 <= k < |headers| ==> offsets[k] == headers[k].offset
    ensures (forall k :: 0 <= k < |headers| ==> InWord(MovedOffset(headers[k].offset, plan)))
            <==> forall k :: 0 <= k < |offsets| && Moves(offsets[k], plan) ==> InWord(MovedOffset(offsets[k], plan))
  {
    hide U32, U16, ProgramHeaders, Moves;
    OffsetsFit(data, headers);
    forall k | 0 <= k < |headers|
      ensures InWord(MovedOffset(headers[k].offset, plan)) <==> (Moves(offsets[k], plan) ==> InWord(MovedOffset(offsets[k], plan)))
    {
    }
  }

  lemma SectionsOrNot(data: seq<u8>, plan: Plan, offsets: seq<nat>)
    requires Verified(data) && U32(data, 32) + SECTION_HEADER_SIZE * U16(data, 48) <= |data|
    requires |offsets| == U16(data, 48) && forall k :: 0 <= k < |offsets| ==> offsets[k] == SectionOffset(data, k)
    ensures (forall k :: 0 <= k < U16(data, 48) ==> InWord(MovedOffset(SectionOffset(data, k), plan)))
            <==> forall k :: 0 <= k < |offsets| && Moves(offsets[k], plan) ==> InWord(MovedOffset(offsets[k], plan))
  {
    hide U32, U16, Moves, SectionOffset;
    forall k | 0 <= k < |offsets|
      ensures InWord(MovedOffset(SectionOffset(data, k), plan)) <==> (Moves(offsets[k], plan) ==> InWord(MovedOffset(offsets[k], plan)))
    {
    }
  }

  lemma SectionPlaces(data: seq<u8>, plan: Plan)
    requires Verified(data) && U32(data, 32) + SECTION_HEADER_SIZE * U16(data, 48) <= |data|
    ensures var words := SectionWords(data, NewSectionTable(U32(data, 32), plan));
            forall k :: 0 <= k < |words| ==> words[k] + 4 <= |data| + plan.shift
  {
    hide U32, U16;
  }

  /** `inject_payload`. */
  method InjectPayload(data: seq<u8>, place: Place, payload: seq<u8>) returns (r: Option<Injection>)
    requires Verified(data) && HEADER_SIZE <= place.offset
    ensures r == Inject(data, place, payload)
  {
    hide U32, U16, MakePlan, Ready, Written, ProgramHeaders, Congruent, Verified, Writable;
    var headers := ProgramHeaders(data);
    if headers.None? {
      return None;
    }
    var plan := ChoosePlan(data, headers.value, place, |payload|);
    if plan.None? {
      return None;
    }
    var written := WriteAll(data, headers.value, plan.value, place, payload);
    ReadyIsWritable(data, headers.value, plan.value, |payload|);
    if written.None? || !Verified(written.value) {
      return None;
    }
    var after := ProgramHeaders(written.value);
    if after.None? {
      return None;
    }
    var kept := KeepsCongruence(after.value);
    if !kept {
      return None;
    }
    return Some(Injection(written.value, plan.value.shift));
  }

  lemma ReadyIsWritable(data: seq<u8>, headers: seq<Header>, plan: Plan, size: nat)
    requires Verified(data) && ProgramHeaders(data) == Some(headers) && plan.executable < |headers|
    ensures Ready(data, headers, plan, size) <==> Writable(data, headers, plan, size)
  {
    hide Writable, ProgramHeaders, Verified;
  }

  /** `replace_exact` on the mutable library. */
  method ReplaceInPlace(data: array<u8>, hook: Hook) returns (ok: bool)
    modifies data
    ensures ok == ReplaceExact(old(data[..]), hook).Some?
    ensures data[..] == if ok then ReplaceExact(old(data[..]), hook).value else old(data[..])
  {
    if |hook.before| != |hook.after| || hook.at + |hook.before| > data.Length {
      return false;
    }
    var end := hook.at + |hook.before|;
    if data[hook.at..end] != hook.before {
      StandsAt(data[..], hook.at, hook.before);
      return false;
    }
    ghost var was := data[..];
    for i := 0 to |hook.after|
      invariant forall k :: 0 <= k < data.Length && !(hook.at <= k < hook.at + i) ==> data[k] == was[k]
      invariant forall k :: hook.at <= k < hook.at + i ==> data[k] == hook.after[k - hook.at]
    {
      data[hook.at + i] := hook.after[i];
    }
    return true;
  }
}
