/**
 * The ELF payload injector of patch_apk.py: it grows the executable load segment over the
 * zero-filled cave behind it, pushing the rest of the file back when the cave is too small.
 */
module Elf {
  import opened Wrappers
  import opened Bytes
  import opened LittleEndian

  function AtMost(i: nat, n: nat): (r: nat)
    ensures r <= n
  {
    if i <= n then i else n
  }

  /** The slice assignment s[at:end] = v, with Python's clamping of the bounds. */
  function Assign(s: seq<u8>, at: nat, end: nat, v: seq<u8>): seq<u8>
    requires at <= end
  {
    s[..AtMost(at, |s|)] + v + s[AtMost(end, |s|)..]
  }

  // ------------------------------------------------------------------ headers

  const HEADER_SIZE: nat := 52
  const PROGRAM_HEADER_SIZE: nat := 32
  const SECTION_HEADER_SIZE: nat := 40
  const LOAD: nat := 1

  datatype Header = Header(
    kind: nat,
    offset: nat,
    vaddr: nat,
    paddr: nat,
    filesz: nat,
    memsz: nat,
    flags: nat,
    alignment: nat)

  /** What `verify_elf32` has established before an injection, as far as it matters here. */
  predicate Verified(data: seq<u8>) {
    && HEADER_SIZE <= |data|
    && U16(data, 42) == PROGRAM_HEADER_SIZE
    && U16(data, 46) == SECTION_HEADER_SIZE
  }

  function HeaderAt(data: seq<u8>, at: nat): Header
    requires at + 32 <= |data|
  {
    Header(U32(data, at), U32(data, at + 4), U32(data, at + 8), U32(data, at + 12),
           U32(data, at + 16), U32(data, at + 20), U32(data, at + 24), U32(data, at + 28))
  }

  function Entries(data: seq<u8>, phoff: nat, count: nat): (r: seq<Header>)
    requires phoff + PROGRAM_HEADER_SIZE * count <= |data|
    ensures |r| == count
    ensures forall k :: 0 <= k < count ==> r[k] == HeaderAt(data, phoff + PROGRAM_HEADER_SIZE * k)
  {
    seq(count, k requires 0 <= k < count => HeaderAt(data, phoff + PROGRAM_HEADER_SIZE * k))
  }

  /** `program_headers`; None where it raises. */
  function ProgramHeaders(data: seq<u8>): Option<seq<Header>>
    requires Verified(data)
  {
    var phoff: nat := U32(data, 28);
    var count: nat := U16(data, 44);
    if phoff + PROGRAM_HEADER_SIZE * count > |data| then None else Some(Entries(data, phoff, count))
  }

  // ---------------------------------------------------------------- the plan

  /** The two fields of a ClockPatch that an injection reads: where the cave begins. */
  datatype Place = Place(offset: nat, vaddr: nat)

  predicate EndsAt(h: Header, place: Place) {
    h.kind == LOAD && And(h.flags, 1) != 0
    && h.vaddr + h.memsz == place.vaddr && h.offset + h.filesz == place.offset
  }

  /** The first executable load segment that ends at the cave. */
  function Executable(headers: seq<Header>, place: Place, n: nat): (r: Option<nat>)
    requires n <= |headers|
    ensures r.Some? ==> r.value < n && EndsAt(headers[r.value], place)
    ensures r.Some? ==> forall k :: 0 <= k < r.value ==> !EndsAt(headers[k], place)
    ensures r.None? ==> forall k :: 0 <= k < n ==> !EndsAt(headers[k], place)
  {
    if n == 0 then None
    else
      var r := Executable(headers, place, n - 1);
      if r.Some? then r else if EndsAt(headers[n - 1], place) then Some(n - 1) else None
  }

  predicate Follows(h: Header, bound: nat) {
    h.kind == LOAD && bound <= h.vaddr
  }

  /** The load segment with the least address at or after `bound`; the first of equals. */
  function NextLoad(headers: seq<Header>, bound: nat, n: nat): (r: Option<nat>)
    requires n <= |headers|
    ensures r.Some? ==> r.value < n && Follows(headers[r.value], bound)
    ensures r.Some? ==> forall k :: 0 <= k < n && Follows(headers[k], bound) ==>
                          headers[r.value].vaddr <= headers[k].vaddr
    ensures r.None? ==> forall k :: 0 <= k < n ==> !Follows(headers[k], bound)
  {
    if n == 0 then None
    else
      var r := NextLoad(headers, bound, n - 1);
      if Follows(headers[n - 1], bound) && (r.None? || headers[n - 1].vaddr < headers[r.value].vaddr)
      then Some(n - 1) else r
  }

  /** The zeros an injection must add: as many as the cave lacks, rounded up by `& -alignment`. */
  function Required(gap: nat, size: nat): nat {
    if size <= gap then 0 else size - gap
  }

  function Shift(required: nat, alignment: nat): nat
    requires required == 0 || 0 < alignment
  {
    if required == 0 then 0 else AndMinus(required + alignment - 1, alignment)
  }

  datatype Plan = Plan(executable: nat, insertion: nat, shift: nat)

  predicate ZeroFilled(data: seq<u8>, from: nat, to: nat) {
    forall i :: from <= i < to && i < |data| ==> data[i] == 0
  }

  /** What an injection of `size` bytes decides before it writes; None where it raises. */
  function MakePlan(data: seq<u8>, headers: seq<Header>, place: Place, size: nat): (r: Option<Plan>)
    ensures r.Some? ==> r.value.executable < |headers|
  {
    var executable := Executable(headers, place, |headers|);
    var next := NextLoad(headers, place.vaddr + size, |headers|);
    if executable.None? || next.None? then None
    else
      var insertion: nat := headers[next.value].offset;
      var alignment: nat := headers[next.value].alignment;
      if place.offset > insertion || !ZeroFilled(data, place.offset, insertion) then None
      else
        var required := Required(insertion - place.offset, size);
        if required > 0 && (alignment == 0 || !OneBit(alignment)) then None
        else Some(Plan(executable.value, insertion, Shift(required, alignment)))
  }

  // --------------------------------------------------------------- the writes

  /** Offsets at or behind the insertion point move by the shift; a zero offset means none. */
  function MovedOffset(offset: nat, plan: Plan): nat {
    if Moves(offset, plan) then offset + plan.shift else offset
  }

  function NewSectionTable(shoff: nat, plan: Plan): nat {
    shoff + if shoff >= plan.insertion then plan.shift else 0
  }

  predicate InWord(v: int) {
    0 <= v < 0x1_0000_0000
  }

  function SectionOffset(data: seq<u8>, k: nat): u32
    requires Verified(data) && k < U16(data, 48)
    requires U32(data, 32) + SECTION_HEADER_SIZE * U16(data, 48) <= |data|
  {
    U32(data, U32(data, 32) + SECTION_HEADER_SIZE * k + 16)
  }

  /** The section table lies in the file and every value to be written fits its 32-bit word. */
  predicate Writable(data: seq<u8>, headers: seq<Header>, plan: Plan, size: nat)
    requires Verified(data) && plan.executable < |headers|
  {
    && U32(data, 32) + SECTION_HEADER_SIZE * U16(data, 48) <= |data|
    && InWord(NewSectionTable(U32(data, 32), plan))
    && (forall k :: 0 <= k < |headers| ==> InWord(MovedOffset(headers[k].offset, plan)))
    && InWord(headers[plan.executable].filesz + size) && InWord(headers[plan.executable].memsz + size)
    && (forall k :: 0 <= k < U16(data, 48) ==> InWord(MovedOffset(SectionOffset(data, k), plan)))
  }

  /** The file with the zeros spliced in and the section table's new place noted. */
  function Opened(data: seq<u8>, plan: Plan): (r: seq<u8>)
    requires Verified(data) && InWord(NewSectionTable(U32(data, 32), plan))
    ensures |r| == |data| + plan.shift
  {
    PutU32(Assign(data, plan.insertion, plan.insertion, Zeros(plan.shift)), 32, NewSectionTable(U32(data, 32), plan))
  }

  /** Whether the offset is one that the injection moves. */
  predicate Moves(offset: nat, plan: Plan) {
    plan.shift != 0 && offset != 0 && offset >= plan.insertion
  }

  /** The first `n` of the words at `places` overwritten where there is a value for them. */
  function Patch(s: seq<u8>, places: seq<nat>, values: seq<Option<u32>>, n: nat): (r: seq<u8>)
    requires n <= |places| == |values| && forall k :: 0 <= k < n ==> places[k] + 4 <= |s|
    ensures |r| == |s|
  {
    if n == 0 then s
    else
      var before := Patch(s, places, values, n - 1);
      if values[n - 1].None? then before else PutU32(before, places[n - 1], values[n - 1].value)
  }

  /** The value to write for an offset, if it moves; `Writable` excludes one that does not fit. */
  function MoveTo(offset: nat, plan: Plan): Option<u32> {
    if Moves(offset, plan) && InWord(offset + plan.shift) then Some(offset + plan.shift) else None
  }

  function SegmentMoves(headers: seq<Header>, plan: Plan): (r: seq<Option<u32>>)
    ensures |r| == |headers|
    ensures forall k :: 0 <= k < |r| ==> r[k] == MoveTo(headers[k].offset, plan)
  {
    seq(|headers|, k requires 0 <= k < |headers| => MoveTo(headers[k].offset, plan))
  }

  function SectionMoves(data: seq<u8>, plan: Plan): (r: seq<Option<u32>>)
    requires Verified(data) && U32(data, 32) + SECTION_HEADER_SIZE * U16(data, 48) <= |data|
    ensures |r| == U16(data, 48)
    ensures forall k :: 0 <= k < |r| ==> r[k] == MoveTo(SectionOffset(data, k), plan)
  {
    seq(U16(data, 48), k requires 0 <= k < U16(data, 48) => MoveTo(SectionOffset(data, k), plan))
  }

  /** The executable segment's two sizes. */
  function GrowExecutable(s: seq<u8>, h: Header, at: nat, size: nat): (r: seq<u8>)
    requires at + 32 <= |s| && InWord(h.filesz + size) && InWord(h.memsz + size)
    ensures |r| == |s|
  {
    PutU32(PutU32(s, at + 16, h.filesz + size), at + 20, h.memsz + size)
  }

  /** Where the program headers keep their offsets. */
  function SegmentWords(data: seq<u8>): (r: seq<nat>)
    requires Verified(data)
    ensures |r| == U16(data, 44)
    ensures forall k :: 0 <= k < |r| ==> r[k] == U32(data, 28) + PROGRAM_HEADER_SIZE * k + 4
  {
    var phoff: nat := U32(data, 28);
    seq(U16(data, 44), k requires 0 <= k => phoff + PROGRAM_HEADER_SIZE * k + 4)
  }

  /** Where the section headers keep theirs, in a table at `table`. */
  function SectionWords(data: seq<u8>, table: nat): (r: seq<nat>)
    requires Verified(data)
    ensures |r| == U16(data, 48)
    ensures forall k :: 0 <= k < |r| ==> r[k] == table + SECTION_HEADER_SIZE * k + 16
  {
    seq(U16(data, 48), k requires 0 <= k => table + SECTION_HEADER_SIZE * k + 16)
  }

  predicate Ready(data: seq<u8>, headers: seq<Header>, plan: Plan, size: nat) {
    && Verified(data) && ProgramHeaders(data) == Some(headers)
    && plan.executable < |headers| && Writable(data, headers, plan, size)
  }

  /** With every program header's offset moved. */
  function WithSegments(data: seq<u8>, headers: seq<Header>, plan: Plan, size: nat): (r: seq<u8>)
    requires Ready(data, headers, plan, size)
    ensures |r| == |data| + plan.shift
  {
    Patch(Opened(data, plan), SegmentWords(data), SegmentMoves(headers, plan), |headers|)
  }

  /** Where the program header of segment `k` stands. */
  function SegmentHeader(data: seq<u8>, k: nat): nat
    requires Verified(data)
  {
    U32(data, 28) + PROGRAM_HEADER_SIZE * k
  }

  /** And the executable segment grown. */
  function WithSizes(data: seq<u8>, headers: seq<Header>, plan: Plan, size: nat): (r: seq<u8>)
    requires Ready(data, headers, plan, size)
    ensures |r| == |data| + plan.shift
  {
    GrowExecutable(WithSegments(data, headers, plan, size), headers[plan.executable],
                   SegmentHeader(data, plan.executable), size)
  }

  /** And every section header's offset moved. */
  function WithSections(data: seq<u8>, headers: seq<Header>, plan: Plan, size: nat): (r: seq<u8>)
    requires Ready(data, headers, plan, size)
    ensures |r| == |data| + plan.shift
  {
    Patch(WithSizes(data, headers, plan, size), SectionWords(data, NewSectionTable(U32(data, 32), plan)),
          SectionMoves(data, plan), U16(data, 48))
  }

  /** The file an injection writes. */
  function Written(data: seq<u8>, headers: seq<Header>, plan: Plan, place: Place, payload: seq<u8>): (r: seq<u8>)
    requires Ready(data, headers, plan, |payload|)
    ensures place.offset + |payload| <= |data| + plan.shift ==> |r| == |data| + plan.shift
  {
    Assign(WithSections(data, headers, plan, |payload|), place.offset, place.offset + |payload|, payload)
  }

  /** Every load segment's offset is congruent to its address modulo its alignment (gABI chapter 5). */
  predicate Congruent(headers: seq<Header>) {
    forall k :: 0 <= k < |headers| && headers[k].kind == LOAD && headers[k].alignment != 0 ==>
      headers[k].offset % headers[k].alignment == headers[k].vaddr % headers[k].alignment
  }

  datatype Injection = Injection(bytes: seq<u8>, shift: nat)

  /** `inject_payload`; None where it raises. */
  function Inject(data: seq<u8>, place: Place, payload: seq<u8>): (r: Option<Injection>)
    requires Verified(data) && HEADER_SIZE <= place.offset
    ensures r.Some? ==> Verified(r.value.bytes)
  {
    var headers := ProgramHeaders(data);
    if headers.None? then None
    else
      var plan := MakePlan(data, headers.value, place, |payload|);
      if plan.None? || !Writable(data, headers.value, plan.value, |payload|) then None
      else
        var bytes := Written(data, headers.value, plan.value, place, payload);
        if !Verified(bytes) then None
        else
          var after := ProgramHeaders(bytes);
          if after.None? || !Congruent(after.value) then None
          else Some(Injection(bytes, plan.value.shift))
  }
}
