/**
 * The instruction hooks: same-length replacements in the code before the cave.  They commute with
 * injections, so hooking between two injections is hooking the result of one.
 */
module ElfHooks {
  import opened Wrappers
  import opened Bytes
  import opened LittleEndian
  import opened Elf
  import opened ElfImage
  import opened ElfUnique
  import opened ElfProgram
  import opened ElfCompose

  datatype Hook = Hook(at: nat, before: seq<u8>, after: seq<u8>)

  /** `replace_exact`; None where it raises. */
  function ReplaceExact(data: seq<u8>, hook: Hook): (r: Option<seq<u8>>)
    ensures r.Some? <==>
            && |hook.before| == |hook.after| && hook.at + |hook.before| <= |data|
            && forall i :: 0 <= i < |hook.before| ==> data[hook.at + i] == hook.before[i]
    ensures r.Some? ==> |r.value| == |data| && forall i :: 0 <= i < |data| ==> r.value[i] == Hooked(data, hook, i)
  {
    if |hook.before| != |hook.after| || hook.at + |hook.before| > |data| then None
    else
      StandsAt(data, hook.at, hook.before);
      var end := hook.at + |hook.before|;
      if data[hook.at..end] != hook.before then None else Some(data[..hook.at] + hook.after + data[end..])
  }

  lemma StandsAt(data: seq<u8>, at: nat, v: seq<u8>)
    requires at + |v| <= |data|
    ensures data[at..at + |v|] == v <==> forall i :: 0 <= i < |v| ==> data[at + i] == v[i]
  {
    var slice := data[at..at + |v|];
    assert forall i :: 0 <= i < |v| ==> slice[i] == data[at + i];
  }

  function Hooked(data: seq<u8>, hook: Hook, i: nat): u8
    requires i < |data|
  {
    if hook.at <= i < hook.at + |hook.after| then hook.after[i - hook.at] else data[i]
  }

  /** The hook rewrites code before the cave, clear of every table word. */
  ghost predicate InCode(data: seq<u8>, hook: Hook, cave: nat)
    requires Verified(data)
  {
    && HEADER_SIZE <= hook.at && hook.at + |hook.after| <= cave
    && forall i :: hook.at <= i < hook.at + |hook.after| ==> !TableByte(data, i)
  }

  /** `to` is `from` with the hook's bytes in place. */
  ghost predicate Edited(from: seq<u8>, hook: Hook, to: seq<u8>) {
    |to| == |from| && forall i :: 0 <= i < |from| ==> to[i] == Hooked(from, hook, i)
  }

  predicate Apart(hook: Hook, at: nat, len: nat) {
    |hook.after| == 0 || at + len <= hook.at || hook.at + |hook.after| <= at
  }

  lemma HeaderUntouched(from: seq<u8>, hook: Hook, to: seq<u8>, at: nat)
    requires Edited(from, hook, to) && at + 32 <= |from|
    requires Apart(hook, at, 32)
    ensures HeaderAt(to, at) == HeaderAt(from, at)
  {
    hide U32, HeaderAt;
    HeaderSame(to, at, from, at);
  }

  lemma WordUntouched(from: seq<u8>, hook: Hook, to: seq<u8>, at: nat)
    requires Edited(from, hook, to) && at + 4 <= |from|
    requires Apart(hook, at, 4)
    ensures U32(to, at) == U32(from, at)
  {
    hide U32;
    U32Same(to, at, from, at);
  }

  lemma FieldsUntouched(data: seq<u8>, hook: Hook, to: seq<u8>)
    requires Verified(data) && HEADER_SIZE <= hook.at && Edited(data, hook, to)
    ensures Verified(to) && U32(to, 28) == U32(data, 28) && U32(to, 32) == U32(data, 32)
    ensures U16(to, 44) == U16(data, 44) && U16(to, 48) == U16(data, 48)
  {
    hide U32, Word;
    WordUntouched(data, hook, to, 28);
    WordUntouched(data, hook, to, 32);
    assert forall i :: 0 <= i < HEADER_SIZE ==> to[i] == data[i];
  }

  /** A hook clear of the table words does not reach into a range that is made of them. */
  lemma BesideTable(data: seq<u8>, hook: Hook, cave: nat, from: nat, len: nat)
    requires Verified(data) && InCode(data, hook, cave) && 0 < len
    requires forall i :: from <= i < from + len ==> TableByte(data, i)
    ensures Apart(hook, from, len)
  {
    hide U32, Verified, TableByte;
    var i := if hook.at < from then from else hook.at;
    assert from <= i < from + len ==> TableByte(data, i);
    assert hook.at <= i < hook.at + |hook.after| ==> !TableByte(data, i);
  }

  lemma HeadersUntouched(data: seq<u8>, hook: Hook, cave: nat, insertion: nat, to: seq<u8>)
    requires Laid(data, cave, insertion) && InCode(data, hook, cave) && Edited(data, hook, to)
    ensures Verified(to) && ProgramHeaders(to) == ProgramHeaders(data) && HeadersOf(to) == HeadersOf(data)
    ensures ProgramHeaders(data) == Some(HeadersOf(data))
  {
    hide U32, U16, Verified, InPlaces, HeaderAt, TableByte;
    LaidBounds(data, cave, insertion);
    LaidParses(data, cave, insertion);
    FieldsUntouched(data, hook, to);
    var before := Entries(data, U32(data, 28), U16(data, 44));
    var after := Entries(to, U32(to, 28), U16(to, 44));
    forall k | 0 <= k < U16(data, 44)
      ensures after[k] == before[k]
    {
      TableOfHeader(data, k);
      BesideTable(data, hook, cave, SegmentHeader(data, k), 32);
      HeaderUntouched(data, hook, to, SegmentHeader(data, k));
    }
    assert after == before;
  }

  lemma TableOfHeader(data: seq<u8>, k: nat)
    requires Verified(data) && k < U16(data, 44)
    ensures SegmentHeader(data, k) + 32 <= TableEnd(data)
    ensures forall i :: SegmentHeader(data, k) <= i < SegmentHeader(data, k) + 32 ==> TableByte(data, i)
  {
    hide U32, InPlaces;
  }

  lemma TableOfSection(data: seq<u8>, k: nat)
    requires Verified(data) && k < U16(data, 48)
    ensures var at := U32(data, 32) + SECTION_HEADER_SIZE * k + 16;
            forall i :: at <= i < at + 4 ==> TableByte(data, i)
  {
    hide U32;
    assert SectionWords(data, U32(data, 32))[k] == U32(data, 32) + SECTION_HEADER_SIZE * k + 16;
  }

  lemma SectionsUntouched(data: seq<u8>, hook: Hook, cave: nat, insertion: nat, to: seq<u8>)
    requires Laid(data, cave, insertion) && InCode(data, hook, cave) && Edited(data, hook, to)
    ensures Verified(to) && U16(to, 48) == U16(data, 48) && U32(to, 32) == U32(data, 32)
    ensures SectionsEnd(data) <= |data| && SectionsEnd(to) <= |to|
    ensures forall k :: 0 <= k < U16(data, 48) ==> SectionOffset(to, k) == SectionOffset(data, k)
  {
    hide U32, U16, Laid;
    LaidBounds(data, cave, insertion);
    SectionsInFile(data, cave, insertion);
    FieldsUntouched(data, hook, to);
    forall k | 0 <= k < U16(data, 48)
      ensures SectionOffset(to, k) == SectionOffset(data, k)
    {
      var at := U32(data, 32) + SECTION_HEADER_SIZE * k + 16;
      TableOfSection(data, k);
      BesideTable(data, hook, cave, at, 4);
      WordUntouched(data, hook, to, at);
    }
  }

  lemma HookedLaid(data: seq<u8>, hook: Hook, cave: nat, insertion: nat, to: seq<u8>)
    requires Laid(data, cave, insertion) && InCode(data, hook, cave) && Edited(data, hook, to)
    ensures Laid(to, cave, insertion)
  {
    hide U32, U16, Verified, ProgramHeaders, TableByte;
    HeadersUntouched(data, hook, cave, insertion, to);
    SectionsUntouched(data, hook, cave, insertion, to);
    FieldsUntouched(data, hook, to);
  }

  lemma SameZeros(data: seq<u8>, hook: Hook, cave: nat, to: seq<u8>, i: nat, j: nat)
    requires Edited(data, hook, to) && hook.at + |hook.after| <= cave <= i
    ensures ZeroFilled(to, i, j) <==> ZeroFilled(data, i, j)
  {
    assert forall k :: i <= k < |data| ==> to[k] == data[k];
  }

  lemma SameCave(r: seq<u8>, hook: Hook, cave: nat, hooked: seq<u8>, payload: seq<u8>, end: nat)
    requires Edited(r, hook, hooked) && hook.at + |hook.after| <= cave && cave + |payload| <= end <= |r|
    requires CaveHolds(r, cave, payload, end)
    ensures CaveHolds(hooked, cave, payload, end)
  {
    assert forall k :: cave <= k < |r| ==> hooked[k] == r[k];
  }

  /** A hook changes no plan and no number that the injection writes. */
  lemma HookedPlan(data: seq<u8>, hook: Hook, plan: Plan, place: Place, size: nat, to: seq<u8>)
    requires Laid(data, place.offset, plan.insertion) && InCode(data, hook, place.offset) && Edited(data, hook, to)
    ensures Verified(to)
    ensures MakePlan(to, HeadersOf(to), place, size) == MakePlan(data, HeadersOf(data), place, size)
    ensures Ready(to, HeadersOf(to), plan, size) <==> Ready(data, HeadersOf(data), plan, size)
  {
    hide U32, U16, Verified, ProgramHeaders, TableByte, SectionOffset, Executable, NextLoad, Shift, OneBit, MovedOffset;
    LaidBounds(data, place.offset, plan.insertion);
    HeadersUntouched(data, hook, place.offset, plan.insertion, to);
    SectionsUntouched(data, hook, place.offset, plan.insertion, to);
    forall i: nat, j: nat | place.offset <= i
      ensures ZeroFilled(to, i, j) <==> ZeroFilled(data, i, j)
    {
      SameZeros(data, hook, place.offset, to, i, j);
    }
  }

  lemma HookedOldBytes(data: seq<u8>, hook: Hook, plan: Plan, place: Place, payload: seq<u8>, to: seq<u8>,
          r: seq<u8>, hooked: seq<u8>)
    requires Yields(data, plan, place, payload, r) && InCode(data, hook, place.offset)
    requires Edited(data, hook, to) && Edited(r, hook, hooked)
    ensures Verified(to) && |hooked| == |to| + plan.shift && OldBytes(to, plan, place.offset, hooked)
  {
    hide U32, U16, Verified, ProgramHeaders, Laid, HeadersMoved, SectionsMoved, CaveHolds, InPlaces;
    LaidBounds(data, place.offset, plan.insertion);
    FieldsUntouched(data, hook, to);
    SameSectionWords(data, to, U32(to, 32));
    forall i | 0 <= i < |to| && !TableByte(to, i) && !(place.offset <= i < plan.insertion)
      ensures hooked[Landing(plan, i)] == to[i]
    {
      assert !TableByte(data, i);
      assert hooked[Landing(plan, i)] == Hooked(r, hook, Landing(plan, i));
    }
  }

  lemma HookedHeaders(data: seq<u8>, hook: Hook, plan: Plan, place: Place, payload: seq<u8>, to: seq<u8>, r: seq<u8>,
          hooked: seq<u8>)
    requires Yields(data, plan, place, payload, r) && InCode(data, hook, place.offset)
    requires Edited(data, hook, to) && Edited(r, hook, hooked)
    ensures Verified(to) && HeadersMoved(to, plan, |payload|, hooked)
  {
    hide U32, U16, Verified, ProgramHeaders, Laid, HeadersOf, SectionsMoved, CaveHolds, OldBytes, TableByte,
      HeaderAt, MovedHeader;
    LaidBounds(data, place.offset, plan.insertion);
    FieldsUntouched(data, hook, to);
    HeaderCount(data, place.offset, plan.insertion);
    HeadersUntouched(data, hook, place.offset, plan.insertion, to);
    forall k | 0 <= k < |HeadersOf(data)|
      ensures SegmentHeader(to, k) + 32 <= |hooked|
      ensures HeaderAt(hooked, SegmentHeader(to, k)) == MovedHeader(HeadersOf(to)[k], plan, k, |payload|)
    {
      TableOfHeader(data, k);
      BesideTable(data, hook, place.offset, SegmentHeader(data, k), 32);
      HeaderUntouched(r, hook, hooked, SegmentHeader(data, k));
    }
  }

  lemma MovedWordApart(data: seq<u8>, hook: Hook, plan: Plan, cave: nat, k: nat)
    requires Laid(data, cave, plan.insertion) && InCode(data, hook, cave) && k < U16(data, 48)
    ensures Apart(hook, MovedSectionWord(data, plan, k), 4)
  {
    hide U32, U16, Verified, ProgramHeaders, TableByte;
    TableOfSection(data, k);
    BesideTable(data, hook, cave, U32(data, 32) + SECTION_HEADER_SIZE * k + 16, 4);
  }

  lemma HookedSections(data: seq<u8>, hook: Hook, plan: Plan, place: Place, payload: seq<u8>, to: seq<u8>,
          r: seq<u8>, hooked: seq<u8>)
    requires Yields(data, plan, place, payload, r) && InCode(data, hook, place.offset)
    requires Edited(data, hook, to) && Edited(r, hook, hooked)
    ensures Verified(to) && SectionsEnd(to) <= |to| && SectionsMoved(to, plan, hooked)
    ensures HEADER_SIZE <= |hooked| && U32(hooked, 32) == NewSectionTable(U32(to, 32), plan)
  {
    hide U32, U16, ProgramHeaders, Laid, HeadersMoved, CaveHolds, OldBytes, TableByte, MovedOffset, NewSectionTable,
      SectionOffset;
    SectionsUntouched(data, hook, place.offset, plan.insertion, to);
    WordUntouched(r, hook, hooked, 32);
    forall k | 0 <= k < U16(data, 48)
      ensures MovedSectionWord(to, plan, k) + 4 <= |hooked|
      ensures U32(hooked, MovedSectionWord(to, plan, k)) == MovedOffset(SectionOffset(to, k), plan)
    {
      MovedWordApart(data, hook, plan, place.offset, k);
      WordUntouched(r, hook, hooked, MovedSectionWord(data, plan, k));
    }
  }

  /** Hooking an injection's result is injecting into the hooked file. */
  lemma HookedResult(data: seq<u8>, hook: Hook, plan: Plan, place: Place, payload: seq<u8>, to: seq<u8>, r: seq<u8>,
          hooked: seq<u8>)
    requires Yields(data, plan, place, payload, r) && InCode(data, hook, place.offset)
    requires Edited(data, hook, to) && Edited(r, hook, hooked)
    ensures Yields(to, plan, place, payload, hooked)
  {
    hide U32, U16, ProgramHeaders, Laid, HeadersMoved, SectionsMoved, OldBytes, TableByte, CaveHolds;
    LaidBounds(data, place.offset, plan.insertion);
    SameCave(r, hook, place.offset, hooked, payload, plan.insertion + plan.shift);
    HookedLaid(data, hook, place.offset, plan.insertion, to);
    HookedOldBytes(data, hook, plan, place, payload, to, r, hooked);
    HookedHeaders(data, hook, plan, place, payload, to, r, hooked);
    HookedSections(data, hook, plan, place, payload, to, r, hooked);
  }

  /** What hooking makes of an injection's outcome. */
  function HookOutcome(outcome: Option<Injection>, hook: Hook): Option<Injection>
    requires outcome.Some? ==> ReplaceExact(outcome.value.bytes, hook).Some?
  {
    match outcome
    case None => None
    case Some(i) => Some(Injection(ReplaceExact(i.bytes, hook).value, i.shift))
  }

  /** The layout around the cave, whether or not the injection finds a plan for it. */
  ghost predicate Sited(data: seq<u8>, place: Place, size: nat, insertion: nat) {
    && Verified(data) && HEADER_SIZE <= place.offset && Laid(data, place.offset, insertion)
    && (PlanFor(data, place, size).Some? ==> PlanFor(data, place, size).value.insertion == insertion)
  }

  /** A hook applies after an injection exactly when it applies before it. */
  lemma HookAppliesAlike(data: seq<u8>, place: Place, payload: seq<u8>, hook: Hook)
    requires Placed(data, place, |payload|) && InCode(data, hook, place.offset)
    requires Inject(data, place, payload).Some?
    ensures ReplaceExact(Inject(data, place, payload).value.bytes, hook).Some? <==> ReplaceExact(data, hook).Some?
  {
    hide U32, U16, ProgramHeaders, Laid, HeadersMoved, SectionsMoved, TableByte, Inject, Written, Ready,
      ReplaceExact, PlanFor;
    InjectDescribed(data, place, payload);
    LaidBounds(data, place.offset, ThePlan(data, place, |payload|).insertion);
    var r := Inject(data, place, payload).value.bytes;
    forall i | hook.at <= i < hook.at + |hook.after|
      ensures r[i] == data[i]
    {
      assert Landing(ThePlan(data, place, |payload|), i) == i;
    }
  }

  /** Injecting into the hooked file is hooking the injected file, failures included. */
  lemma HookCommutes(data: seq<u8>, place: Place, payload: seq<u8>, insertion: nat, hook: Hook)
    requires Sited(data, place, |payload|, insertion) && InCode(data, hook, place.offset)
    requires ReplaceExact(data, hook).Some?
    ensures var to := ReplaceExact(data, hook).value;
            && Sited(to, place, |payload|, insertion)
            && (Inject(data, place, payload).Some? ==> ReplaceExact(Inject(data, place, payload).value.bytes, hook).Some?)
            && Inject(to, place, payload) == HookOutcome(Inject(data, place, payload), hook)
  {
    hide U32, U16, ProgramHeaders, Laid, Injected, TableByte, Inject, Written, Ready, ReplaceExact, MakePlan,
      Congruent, Fits, HeadersOf;
    var to := ReplaceExact(data, hook).value;
    HookedLaid(data, hook, place.offset, insertion, to);
    HookedPlan(data, hook, Plan(0, insertion, 0), place, |payload|, to);
    if PlanFor(data, place, |payload|).None? {
      NoPlanNoInjection(data, place, payload);
      NoPlanNoInjection(to, place, payload);
    } else {
      PlannedHookCommutes(data, PlanFor(data, place, |payload|).value, place, payload, hook, to);
    }
  }

  lemma PlannedHookCommutes(data: seq<u8>, plan: Plan, place: Place, payload: seq<u8>, hook: Hook, to: seq<u8>)
    requires Verified(data) && PlanFor(data, place, |payload|) == Some(plan) && HEADER_SIZE <= place.offset
    requires Laid(data, place.offset, plan.insertion) && InCode(data, hook, place.offset)
    requires ReplaceExact(data, hook) == Some(to)
    ensures Verified(to)
    ensures Inject(data, place, payload).Some? ==> ReplaceExact(Inject(data, place, payload).value.bytes, hook).Some?
    ensures Inject(to, place, payload) == HookOutcome(Inject(data, place, payload), hook)
  {
    hide U32, U16, ProgramHeaders, Laid, Injected, TableByte, Inject, Written, Ready, ReplaceExact, MakePlan,
      Congruent, Fits, HeadersOf;
    HookedPlan(data, hook, plan, place, |payload|, to);
    HookedLaid(data, hook, place.offset, plan.insertion, to);
    InjectUnderPlan(data, plan, place, payload);
    InjectUnderPlan(to, plan, place, payload);
    if Inject(data, place, payload).Some? {
      HookAppliesAlike(data, place, payload, hook);
    }
    if Ready(data, HeadersOf(data), plan, |payload|) {
      HookedWritten(data, hook, plan, place, payload, to);
      if Inject(data, place, payload).Some? {
        var r := Inject(data, place, payload).value.bytes;
        SameEdit(r, hook, ReplaceExact(r, hook).value, Written(to, HeadersOf(to), plan, place, payload));
      }
    }
  }

  lemma SameEdit(from: seq<u8>, hook: Hook, a: seq<u8>, b: seq<u8>)
    requires Edited(from, hook, a) && Edited(from, hook, b)
    ensures a == b
  {
  }

  lemma HookedWritten(data: seq<u8>, hook: Hook, plan: Plan, place: Place, payload: seq<u8>, to: seq<u8>)
    requires Verified(data) && Verified(to) && Edited(data, hook, to) && InCode(data, hook, place.offset)
    requires Ready(data, HeadersOf(data), plan, |payload|) && Ready(to, HeadersOf(to), plan, |payload|)
    requires var r := Written(data, HeadersOf(data), plan, place, payload);
             Yields(data, plan, place, payload, r) && Verified(r)
    requires var t := Written(to, HeadersOf(to), plan, place, payload); Yields(to, plan, place, payload, t) && Verified(t)
    ensures Edited(Written(data, HeadersOf(data), plan, place, payload), hook, Written(to, HeadersOf(to), plan, place, payload))
    ensures HeadersOf(Written(to, HeadersOf(to), plan, place, payload))
            == HeadersOf(Written(data, HeadersOf(data), plan, place, payload))
  {
    hide U32, U16, ProgramHeaders, Laid, Injected, TableByte, Written, Ready, HeadersOf, Fits, Hooked;
    var r := Written(data, HeadersOf(data), plan, place, payload);
    var t := Written(to, HeadersOf(to), plan, place, payload);
    var hooked := seq(|r|, i requires 0 <= i < |r| => Hooked(r, hook, i));
    HookedResult(data, hook, plan, place, payload, to, r, hooked);
    InjectedIsUnique(to, plan, place, payload, t, hooked);
    HeadersUntouched(data, hook, place.offset, plan.insertion, to);
    ResultHeaders(data, plan, place, payload, r);
    ResultHeaders(to, plan, place, payload, t);
    assert HeadersOf(t) == HeadersOf(r);
  }

  // ------------------------------------------------------------ several hooks

  function ReplaceAll(data: seq<u8>, hooks: seq<Hook>): (r: Option<seq<u8>>)
    ensures r.Some? ==> |r.value| == |data|
    decreases |hooks|
  {
    if hooks == [] then Some(data)
    else if ReplaceExact(data, hooks[0]).None? then None
    else ReplaceAll(ReplaceExact(data, hooks[0]).value, hooks[1..])
  }

  function HooksOutcome(outcome: Option<Injection>, hooks: seq<Hook>): Option<Injection>
    requires outcome.Some? ==> ReplaceAll(outcome.value.bytes, hooks).Some?
  {
    match outcome
    case None => None
    case Some(i) => Some(Injection(ReplaceAll(i.bytes, hooks).value, i.shift))
  }

  ghost predicate AllInCode(data: seq<u8>, hooks: seq<Hook>, cave: nat)
    requires Verified(data)
  {
    forall k :: 0 <= k < |hooks| ==> InCode(data, hooks[k], cave)
  }

  lemma StillInCode(data: seq<u8>, hook: Hook, to: seq<u8>, other: Hook, cave: nat)
    requires Verified(data) && HEADER_SIZE <= hook.at && Edited(data, hook, to) && InCode(data, other, cave)
    ensures Verified(to) && InCode(to, other, cave)
  {
    hide U32, U16, InPlaces;
    FieldsUntouched(data, hook, to);
    SameSectionWords(data, to, U32(to, 32));
    assert forall i :: TableByte(to, i) <==> TableByte(data, i);
  }

  /** Any number of hooks before the cave commute with an injection. */
  lemma {:induction false} HooksCommute(data: seq<u8>, place: Place, payload: seq<u8>, insertion: nat, hooks: seq<Hook>)
    requires Sited(data, place, |payload|, insertion) && AllInCode(data, hooks, place.offset)
    requires ReplaceAll(data, hooks).Some?
    ensures var to := ReplaceAll(data, hooks).value;
            && Verified(to)
            && (Inject(data, place, payload).Some? ==> ReplaceAll(Inject(data, place, payload).value.bytes, hooks).Some?)
            && Inject(to, place, payload) == HooksOutcome(Inject(data, place, payload), hooks)
    decreases |hooks|
  {
    hide U32, U16, ProgramHeaders, Laid, InCode, Inject, ReplaceExact, PlanFor, Verified;
    if hooks != [] {
      var hook, rest := hooks[0], hooks[1..];
      var to := ReplaceExact(data, hook).value;
      HookCommutes(data, place, payload, insertion, hook);
      forall k | 0 <= k < |rest|
        ensures InCode(to, rest[k], place.offset)
      {
        BehindHeader(data, hook, place.offset);
        StillInCode(data, hook, to, hooks[k + 1], place.offset);
      }
      HooksCommute(to, place, payload, insertion, rest);
    }
  }

  lemma BehindHeader(data: seq<u8>, hook: Hook, cave: nat)
    requires Verified(data) && InCode(data, hook, cave)
    ensures HEADER_SIZE <= hook.at
  {
  }

  lemma CodeStaysCode(data: seq<u8>, plan: Plan, place: Place, p: seq<u8>, r: seq<u8>, hook: Hook)
    requires Yields(data, plan, place, p, r) && InCode(data, hook, place.offset)
    ensures Verified(r) && InCode(r, hook, place.offset + |p|)
  {
    hide U32, U16, ProgramHeaders, Laid, InPlaces, HeadersMoved, SectionsMoved, OldBytes, CaveHolds;
    LaidBounds(data, place.offset, plan.insertion);
    ResultHeaders(data, plan, place, p, r);
    ResultSections(data, plan, place, p, r);
    SameHeaderFields(data, plan, place, p, r);
    SameSectionWords(data, r, U32(r, 32));
    forall i | hook.at <= i < hook.at + |hook.after|
      ensures !TableByte(r, i)
    {
      assert !TableByte(data, i) && Landing(plan, i) == i;
      SectionWordLanding(data, place.offset, plan, i);
    }
  }

  /** Where the second injection finds the hooked file laid out, planned or not. */
  lemma SecondSited(data: seq<u8>, place: Place, p: seq<u8>, m: nat) returns (insertion: nat)
    requires Placed(data, place, |p|) && Inject(data, place, p).Some? && LaidFor(data, place, PlanFor(data, place, |p| + m))
    requires Composes(ThePlan(data, place, |p|), SecondPlan(Inject(data, place, p).value.bytes, place, |p|, m),
                      PlanFor(data, place, |p| + m))
    ensures Sited(Inject(data, place, p).value.bytes, Behind(place, |p|), m, insertion)
  {
    hide U32, U16, Laid, Injected, Written, MakePlan, Verified, HeadersOf, Inject, Fits, Ready, ZeroFilled, Advanced;
    var plan, r := ThePlan(data, place, |p|), Inject(data, place, p).value.bytes;
    FirstFacts(data, place, p);
    ResultLaid(data, plan, place, p, r);
    insertion := plan.insertion + plan.shift;
    if SecondPlan(r, place, |p|, m).Some? {
      ComposedYields(data, plan, place, p, r, m);
      var first := Reopened(plan, PlanFor(data, place, |p| + m).value);
      ResultLaid(data, first, place, p, r);
      insertion := first.insertion + first.shift;
    }
  }

  /**
   * The build as a whole: inject the clock payload, hook the code, inject the nickname payload behind
   * the first.  The file and the total shift are those of one injection of both payloads, hooked.
   */
  lemma ClockThenNickname(data: seq<u8>, place: Place, p: seq<u8>, hooks: seq<Hook>, q: seq<u8>)
    requires Placed(data, place, |p|) && LaidFor(data, place, PlanFor(data, place, |p| + |q|))
    requires AllInCode(data, hooks, place.offset)
    requires Inject(data, place, p).Some? && ReplaceAll(Inject(data, place, p).value.bytes, hooks).Some?
    requires Composes(ThePlan(data, place, |p|), SecondPlan(Inject(data, place, p).value.bytes, place, |p|, |q|),
                      PlanFor(data, place, |p| + |q|))
    ensures var first := Inject(data, place, p).value;
            var hooked := ReplaceAll(first.bytes, hooks).value;
            && Verified(hooked)
            && (Inject(data, place, p + q).Some? ==> ReplaceAll(Inject(data, place, p + q).value.bytes, hooks).Some?)
            && OnTop(first.shift, Inject(hooked, Behind(place, |p|), q)) == HooksOutcome(Inject(data, place, p + q), hooks)
  {
    hide U32, U16, Laid, Injected, Written, MakePlan, Verified, HeadersOf, Inject, Fits, Composes, InCode,
      ReplaceAll, Ready;
    var plan := ThePlan(data, place, |p|);
    InjectDescribed(data, place, p);
    var r := Inject(data, place, p).value.bytes;
    forall k | 0 <= k < |hooks|
      ensures InCode(r, hooks[k], place.offset + |p|)
    {
      CodeStaysCode(data, plan, place, p, r, hooks[k]);
    }
    var insertion := SecondSited(data, place, p, |q|);
    HooksCommute(r, Behind(place, |p|), q, insertion, hooks);
    TwoInjectionsAreOne(data, place, p, q);
  }
}
