/**
 * Evicting idle sources is invisible: the bounded, swept table of `Admission` gives the
 * decisions of one that never forgets a source, when an idle bucket has time to refill
 * (burst <= rate * ttl) and the table is never full.
 */
module AdmissionRefinement {
  import opened TokenBuckets
  import opened Admission

  /** The reference: no sweeps, no bound, every source remembered for good. */
  datatype Memory = Memory(global: Bucket, sources: Table)

  function Recall(p: Params, m: Memory, now: real, source: string): (Memory, Decision) {
    if Banned(m.sources, source, now) then (m, SourceBanned)
    else
      var global := Charge(p.global, m.global, now, 1.0);
      if !Accepts(p.global, m.global, now, 1.0) then (Memory(global, m.sources), GlobalRateLimit)
      else
        var e := if source in m.sources then m.sources[source] else NewSource(p, now);
        var (e', decision) := Admit(p, e, now);
        (Memory(global, m.sources[source := e']), decision)
  }

  function RunMemory(p: Params, start: real, arrivals: seq<Arrival>): (r: (Memory, seq<Decision>))
    ensures |r.1| == |arrivals|
  {
    if arrivals == [] then (Memory(Full(p.global, start), map[]), [])
    else
      var (m, decisions) := RunMemory(p, start, arrivals[..|arrivals| - 1]);
      var a := arrivals[|arrivals| - 1];
      var (m', decision) := Recall(p, m, a.time, a.source);
      (m', decisions + [decision])
  }

  // ------------------------------------------------------------- idle sources

  ghost predicate RefillsWithinTtl(p: Params) {
    p.source.burst <= p.source.rate * p.ttl
  }

  /** A source the table may have forgotten: not banned, its bucket full again. */
  ghost predicate Idle(p: Params, e: Source, now: real) {
    e.bannedUntil <= now && Refill(p.source, e.bucket, now) == p.source.burst
  }

  ghost predicate Sound(e: Source, now: real) {
    0.0 <= e.bucket.tokens && e.bucket.updatedAt == e.lastSeen <= now
  }

  ghost predicate SameEntry(e: Source, r: Source, now: real) {
    && e.bucket == r.bucket && e.lastSeen == r.lastSeen && e.violations == r.violations
    && SameFrom(e.bannedUntil, r.bannedUntil, now)
  }

  ghost predicate Matches(p: Params, sources: Table, memory: Table, now: real) {
    && (forall k :: k in sources ==> k in memory && SameEntry(sources[k], memory[k], now))
    && (forall k :: k in memory ==> Sound(memory[k], now))
    && (forall k :: k in memory && k !in sources ==> Idle(p, memory[k], now))
  }

  lemma IdleLater(p: Params, e: Source, then0: real, now: real)
    requires p.Valid() && then0 <= now && Idle(p, e, then0)
    ensures Idle(p, e, now)
  {
    Grows(p.source.rate, Max(0.0, then0 - e.bucket.updatedAt), Max(0.0, now - e.bucket.updatedAt));
  }

  /** What a sweep drops is idle: its bucket has had a whole ttl to fill. */
  lemma DroppedIsIdle(p: Params, e: Source, now: real)
    requires p.Valid() && RefillsWithinTtl(p) && Sound(e, now) && !Kept(p, e, now)
    ensures Idle(p, e, now)
  {
    var elapsed := now - e.bucket.updatedAt;
    Grows(p.source.rate, p.ttl, elapsed);
    assert p.source.rate * p.ttl == p.ttl * p.source.rate;
  }

  /** That an evicted bucket is always full again needs exactly burst <= rate * ttl. */
  lemma EvictedIsFullIffRefillsWithinTtl(p: Params)
    requires p.Valid()
    ensures (forall e: Source, now: real :: Sound(e, now) && !Kept(p, e, now) ==> Idle(p, e, now))
            <==> RefillsWithinTtl(p)
  {
    if RefillsWithinTtl(p) {
      forall e: Source, now: real | Sound(e, now) && !Kept(p, e, now)
        ensures Idle(p, e, now)
      {
        DroppedIsIdle(p, e, now);
      }
    } else {
      var gap := IdleGap(p);
      var e := Source(Bucket(0.0, 0.0), 0.0, 0, 0.0);
      assert Sound(e, gap) && !Kept(p, e, gap) && !Idle(p, e, gap);
    }
  }

  /** When the bucket is too slow, a gap just over the ttl leaves it short of its burst. */
  lemma IdleGap(p: Params) returns (gap: real)
    requires p.Valid() && !RefillsWithinTtl(p)
    ensures p.ttl < gap && gap * p.source.rate < p.source.burst
  {
    var (rate, burst, ttl) := (p.source.rate, p.source.burst, p.ttl);
    if rate == 0.0 {
      gap := ttl + 1.0;
    } else {
      gap := (ttl + burst / rate) / 2.0;
      QuotientAbove(rate, burst, ttl);
      assert gap < burst / rate;
      ProductBelow(rate, burst, gap);
    }
  }

  lemma QuotientAbove(rate: real, burst: real, ttl: real)
    requires 0.0 < rate && rate * ttl < burst
    ensures ttl < burst / rate
  {
    assert (burst / rate) * rate == burst;
  }

  lemma ProductBelow(rate: real, burst: real, gap: real)
    requires 0.0 < rate && gap < burst / rate
    ensures gap * rate < burst
  {
    var q := burst / rate;
    assert q * rate == burst;
    assert 0.0 < (q - gap) * rate;
    assert (q - gap) * rate == q * rate - gap * rate;
  }

  // -------------------------------------------------------------- simulation

  lemma MatchesLater(p: Params, sources: Table, memory: Table, then0: real, now: real)
    requires p.Valid() && then0 <= now && Matches(p, sources, memory, then0)
    ensures Matches(p, sources, memory, now)
  {
    hide Idle;
    forall k | k in memory && k !in sources
      ensures Idle(p, memory[k], now)
    {
      IdleLater(p, memory[k], then0, now);
    }
  }

  lemma MatchesSwept(p: Params, sources: Table, memory: Table, now: real)
    requires p.Valid() && RefillsWithinTtl(p) && Matches(p, sources, memory, now)
    ensures Matches(p, Sweep(p, sources, now), memory, now)
  {
    hide Idle;
    var swept := Sweep(p, sources, now);
    forall k | k in memory && k !in swept
      ensures Idle(p, memory[k], now)
    {
      if k in sources {
        assert SameEntry(sources[k], memory[k], now);
        DroppedIsIdle(p, memory[k], now);
      }
    }
  }

  /** From matching entries admission goes alike; from an idle one it goes as from a new one. */
  lemma AdmitAlike(p: Params, e: Source, r: Source, now: real)
    requires p.Valid() && Sound(r, now) && r.bannedUntil <= now
    requires SameEntry(e, r, now) || (e == NewSource(p, now) && Idle(p, r, now) && 0.0 <= now)
    ensures Admit(p, e, now).1 == Admit(p, r, now).1
    ensures SameEntry(Admit(p, e, now).0, Admit(p, r, now).0, now)
    ensures Sound(Admit(p, r, now).0, now)
  {
    NewSourceAllowed(p, now);
    ChargeIsNotOverdrawn(p.source, r.bucket, now);
    hide Refill;
  }

  lemma UpdatedMatches(p: Params, sources: Table, memory: Table, now: real, source: string, e: Source, r: Source)
    requires Matches(p, sources, memory, now) && SameEntry(e, r, now) && Sound(r, now)
    ensures Matches(p, sources[source := e], memory[source := r], now)
  {
    hide Idle, Sound, SameEntry;
  }

  /** How the table and the memory see the source of a datagram. */
  lemma SourceMatches(p: Params, sources: Table, memory: Table, now: real, source: string)
    requires p.Valid() && 0.0 <= now && Matches(p, sources, memory, now)
    ensures var e := if source in sources then sources[source] else NewSource(p, now);
            var r := if source in memory then memory[source] else NewSource(p, now);
            && Sound(r, now) && (SameEntry(e, r, now) || (e == NewSource(p, now) && Idle(p, r, now)))
    ensures Banned(sources, source, now) <==> Banned(memory, source, now)
  {
    NewIsSound(p, now);
    hide Refill, NewSource;
  }

  lemma StepMatches(p: Params, s: State, m: Memory, now: real, source: string)
    requires p.Valid() && RefillsWithinTtl(p) && 0.0 <= now
    requires s.global == m.global && Matches(p, s.sources, m.sources, now)
    requires Step(p, s, now, source).1 != SourceTableFull
    ensures Step(p, s, now, source).1 == Recall(p, m, now, source).1
    ensures var (s', m') := (Step(p, s, now, source).0, Recall(p, m, now, source).0);
            s'.global == m'.global && Matches(p, s'.sources, m'.sources, now)
  {
    hide Idle, Admit, Accepts, Charge, Sound, Sweep, NewSource, Matches, SameEntry, Banned;
    var s1 := if s.nextExpiry <= now
              then State(s.global, Sweep(p, s.sources, now), now + p.ttl) else s;
    MatchesSwept(p, s.sources, m.sources, now);
    MatchesSwept(p, s1.sources, m.sources, now);
    SourceMatches(p, s1.sources, m.sources, now, source);
    var e := if source in s1.sources then s1.sources[source] else NewSource(p, now);
    var r := if source in m.sources then m.sources[source] else NewSource(p, now);
    if !Banned(s1.sources, source, now) && Accepts(p.global, s.global, now, 1.0) {
      NotBanned(m.sources, source, now, p);
      AdmitAlike(p, e, r, now);
      UpdatedMatches(p, s1.sources, m.sources, now, source, Admit(p, e, now).0, Admit(p, r, now).0);
      UpdatedMatches(p, Sweep(p, s1.sources, now), m.sources, now, source, Admit(p, e, now).0, Admit(p, r, now).0);
    }
  }

  lemma NotBanned(memory: Table, source: string, now: real, p: Params)
    requires 0.0 <= now && !Banned(memory, source, now)
    ensures (if source in memory then memory[source] else NewSource(p, now)).bannedUntil <= now
  {
  }

  lemma NewIsSound(p: Params, now: real)
    requires p.Valid() && 0.0 <= now
    ensures Sound(NewSource(p, now), now) && NewSource(p, now).bannedUntil <= now
  {
  }

  lemma {:induction false} RunsMatch(p: Params, start: real, arrivals: seq<Arrival>)
    requires p.Valid() && RefillsWithinTtl(p) && Admission.Ordered(start, arrivals)
    requires SourceTableFull !in Run(p, start, arrivals).1
    ensures var (s, decisions) := Run(p, start, arrivals);
            var (m, recalled) := RunMemory(p, start, arrivals);
            && decisions == recalled && s.global == m.global
            && Matches(p, s.sources, m.sources, Now(start, arrivals))
    decreases |arrivals|
  {
    if arrivals != [] {
      hide Step, Recall, Idle;
      var n := |arrivals| - 1;
      var (init, a) := (arrivals[..n], arrivals[n]);
      var (s, decisions) := Run(p, start, init);
      var (m, _) := RunMemory(p, start, init);
      assert Run(p, start, arrivals).1[..n] == decisions;
      assert Run(p, start, arrivals).1[n] == Step(p, s, a.time, a.source).1;
      RunsMatch(p, start, init);
      MatchesLater(p, s.sources, m.sources, Now(start, init), a.time);
      StepMatches(p, s, m, a.time, a.source);
    }
  }

  lemma {:induction false} MemoryIsNeverFull(p: Params, start: real, arrivals: seq<Arrival>)
    ensures SourceTableFull !in RunMemory(p, start, arrivals).1
    decreases |arrivals|
  {
    if arrivals != [] {
      MemoryIsNeverFull(p, start, arrivals[..|arrivals| - 1]);
    }
  }

  /**
   * With burst <= rate * ttl a run's decisions are those of the table that never forgets,
   * if and only if no decision of the run is table-full.
   */
  lemma EvictionIsInvisible(p: Params, start: real, arrivals: seq<Arrival>)
    requires p.Valid() && RefillsWithinTtl(p) && Admission.Ordered(start, arrivals)
    ensures Run(p, start, arrivals).1 == RunMemory(p, start, arrivals).1
            <==> SourceTableFull !in Run(p, start, arrivals).1
  {
    MemoryIsNeverFull(p, start, arrivals);
    if SourceTableFull !in Run(p, start, arrivals).1 {
      RunsMatch(p, start, arrivals);
    }
  }

  // ---------------------------------------------- the condition is necessary

  const SOURCE := "source"

  function Repeat(t: real, n: nat): (r: seq<Arrival>)
    ensures |r| == n
  {
    seq(n, i requires 0 <= i < n => Arrival(t, SOURCE))
  }

  function AllAllowed(n: nat): (r: seq<Decision>)
    ensures |r| == n
  {
    seq(n, i requires 0 <= i < n => Allowed)
  }

  /** Only `SOURCE` is known, last seen at `t`, with `left` tokens and `globalLeft` global ones. */
  ghost predicate Only(sources: Table, global: Bucket, t: real, left: real, globalLeft: real) {
    && sources == map[SOURCE := Source(Bucket(left, t), t, 0, 0.0)]
    && global == Bucket(globalLeft, t)
  }

  lemma SpendAtOnce(limits: Limits, t: real, left: real)
    requires 1.0 <= left <= limits.burst
    ensures Accepts(limits, Bucket(left, t), t, 1.0)
    ensures Charge(limits, Bucket(left, t), t, 1.0) == Bucket(left - 1.0, t)
  {
  }

  lemma StepSpends(p: Params, s: State, t: real, left: real, globalLeft: real)
    requires p.Valid() && 0.0 <= t && 1 <= p.maxSources
    requires 1.0 <= left <= p.source.burst && 1.0 <= globalLeft <= p.global.burst
    requires Only(s.sources, s.global, t, left, globalLeft)
    ensures var (s', d) := Step(p, s, t, SOURCE);
            d == Allowed && Only(s'.sources, s'.global, t, left - 1.0, globalLeft - 1.0)
  {
    SpendAtOnce(p.source, t, left);
    SpendAtOnce(p.global, t, globalLeft);
    assert Sweep(p, s.sources, t) == s.sources;
    hide Accepts, Charge, Refill;
  }

  /** The source's first datagram, or its first after a gap that let it be evicted. */
  lemma StepFresh(p: Params, s: State, t: real, globalLeft: real)
    requires p.Valid() && 0.0 <= t && 1 <= p.maxSources
    requires Refill(p.global, s.global, t) == globalLeft && 1.0 <= globalLeft
    requires s.sources == map[] || (s.nextExpiry <= t && Sweep(p, s.sources, t) == map[])
    ensures var (s', d) := Step(p, s, t, SOURCE);
            d == Allowed && Only(s'.sources, s'.global, t, p.source.burst - 1.0, globalLeft - 1.0)
  {
    SpendAtOnce(p.source, t, p.source.burst);
    NewSourceAllowed(p, t);
    assert Sweep(p, map[], t) == map[];
    assert Accepts(p.global, s.global, t, 1.0);
    assert Charge(p.global, s.global, t, 1.0) == Bucket(globalLeft - 1.0, t);
    hide Accepts, Charge, Refill;
  }

  lemma RunSnoc(p: Params, init: seq<Arrival>, a: Arrival)
    ensures var (s, decisions) := Run(p, 0.0, init);
            var (s', d) := Step(p, s, a.time, a.source);
            Run(p, 0.0, init + [a]) == (s', decisions + [d])
  {
    hide Step;
    assert (init + [a])[..|init|] == init;
  }

  lemma MemorySnoc(p: Params, init: seq<Arrival>, a: Arrival)
    ensures var (m, decisions) := RunMemory(p, 0.0, init);
            var (m', d) := Recall(p, m, a.time, a.source);
            RunMemory(p, 0.0, init + [a]) == (m', decisions + [d])
  {
    hide Recall;
    assert (init + [a])[..|init|] == init;
  }

  lemma RepeatSnoc(base: seq<Arrival>, t: real, n: nat)
    requires 1 <= n
    ensures base + Repeat(t, n) == base + Repeat(t, n - 1) + [Arrival(t, SOURCE)]
    ensures AllAllowed(n) == AllAllowed(n - 1) + [Allowed]
  {
  }

  /** A burst at one instant after `base`, as far as the tokens reach. */
  lemma {:induction false} BurstPasses(p: Params, base: seq<Arrival>, t: real, n: nat, globalLeft: real)
    requires p.Valid() && 0.0 <= t && 1 <= p.maxSources
    requires var s := Run(p, 0.0, base).0;
             && Refill(p.global, s.global, t) == globalLeft
             && (s.sources == map[] || (s.nextExpiry <= t && Sweep(p, s.sources, t) == map[]))
    requires 1 <= n && n as real <= p.source.burst && n as real <= globalLeft <= p.global.burst
    ensures var (s, decisions) := Run(p, 0.0, base + Repeat(t, n));
            && decisions == Run(p, 0.0, base).1 + AllAllowed(n)
            && Only(s.sources, s.global, t, p.source.burst - n as real, globalLeft - n as real)
    decreases n
  {
    hide Refill, Run, Step, Sweep;
    var a := Arrival(t, SOURCE);
    RepeatSnoc(base, t, n);
    var init := base + Repeat(t, n - 1);
    RunSnoc(p, init, a);
    var (s, decisions) := Run(p, 0.0, base);
    if n == 1 {
      assert init == base;
      StepFresh(p, s, t, globalLeft);
      assert decisions + AllAllowed(0) == decisions;
    } else {
      BurstPasses(p, base, t, n - 1, globalLeft);
      StepSpends(p, Run(p, 0.0, init).0, t,
                 p.source.burst - (n - 1) as real, globalLeft - (n - 1) as real);
    }
    assert decisions + AllAllowed(n) == decisions + AllAllowed(n - 1) + [Allowed];
  }

  /** A datagram the memory allows at `t` costs it one token. */
  lemma RecallSpends(p: Params, m: Memory, t: real, level: real)
    requires p.Valid() && Recall(p, m, t, SOURCE).1 == Allowed
    requires if SOURCE in m.sources then Refill(p.source, m.sources[SOURCE].bucket, t) == level
             else level == p.source.burst
    ensures var m' := Recall(p, m, t, SOURCE).0;
            && SOURCE in m'.sources && m'.sources[SOURCE].bucket == Bucket(level - 1.0, t)
            && Refill(p.source, Bucket(level - 1.0, t), t) == level - 1.0 && 0.0 <= level - 1.0
  {
    NewSourceAllowed(p, t);
  }

  /** While everything is allowed, the memory's bucket goes down by one a datagram. */
  lemma {:induction false} MemorySpends(p: Params, base: seq<Arrival>, t: real, n: nat, level: real)
    requires p.Valid()
    requires var m := RunMemory(p, 0.0, base).0;
             if SOURCE in m.sources then Refill(p.source, m.sources[SOURCE].bucket, t) == level
             else level == p.source.burst
    requires 1 <= n && RunMemory(p, 0.0, base + Repeat(t, n)).1 == RunMemory(p, 0.0, base).1 + AllAllowed(n)
    ensures var m := RunMemory(p, 0.0, base + Repeat(t, n)).0;
            && SOURCE in m.sources && m.sources[SOURCE].bucket == Bucket(level - n as real, t)
            && Refill(p.source, Bucket(level - n as real, t), t) == level - n as real && 0.0 <= level - n as real
    decreases n
  {
    hide Refill, RunMemory, Recall;
    var a := Arrival(t, SOURCE);
    RepeatSnoc(base, t, n);
    var init := base + Repeat(t, n - 1);
    MemorySnoc(p, init, a);
    var before := RunMemory(p, 0.0, base).1;
    var (m, decisions) := RunMemory(p, 0.0, init);
    var d := Recall(p, m, t, SOURCE).1;
    assert before + AllAllowed(n) == before + AllAllowed(n - 1) + [Allowed];
    assert decisions + [d] == before + AllAllowed(n);
    assert decisions == (decisions + [d])[..|decisions|];
    assert d == (decisions + [d])[|decisions|];
    if n == 1 {
      assert init == base;
      RecallSpends(p, m, t, level);
    } else {
      MemorySpends(p, base, t, n - 1, level);
      RecallSpends(p, m, t, level - (n - 1) as real);
    }
  }

  /** The global level after a first burst and the gap. */
  function GlobalAfter(p: Params, burst: nat, gap: real): real {
    Refill(p.global, Bucket(p.global.burst - burst as real, 0.0), gap)
  }

  /** After the first burst and the gap: what the sweep and the global bucket look like. */
  lemma AfterGap(p: Params, s: State, burst: nat, gap: real)
    requires p.Valid() && Only(s.sources, s.global, 0.0, 0.0, p.global.burst - burst as real) && p.ttl < gap
    ensures Sweep(p, s.sources, gap) == map[]
    ensures Refill(p.global, s.global, gap) == GlobalAfter(p, burst, gap) <= p.global.burst
  {
  }

  lemma StepKeepsExpiry(p: Params, s: State)
    requires s.nextExpiry == p.ttl
    ensures Step(p, s, 0.0, SOURCE).0.nextExpiry == p.ttl
  {
    hide Charge, Accepts, Sweep;
  }

  lemma {:induction false} NextExpiryBound(p: Params, n: nat)
    requires 0.0 <= p.ttl
    ensures Run(p, 0.0, Repeat(0.0, n)).0.nextExpiry == p.ttl
    decreases n
  {
    hide Step;
    var all := Repeat(0.0, n);
    if n != 0 {
      NextExpiryBound(p, n - 1);
      assert all[..n - 1] == Repeat(0.0, n - 1) && all[n - 1] == Arrival(0.0, SOURCE);
      StepKeepsExpiry(p, Run(p, 0.0, Repeat(0.0, n - 1)).0);
    }
  }

  /** The table's decisions differ from the memory's, although the table was never full. */
  ghost predicate EvictionShows(p: Params, start: real, arrivals: seq<Arrival>) {
    && Admission.Ordered(start, arrivals) && SourceTableFull !in Run(p, start, arrivals).1
    && Run(p, start, arrivals).1 != RunMemory(p, start, arrivals).1
  }

  /**
   * A full burst, a gap longer than the ttl in which the bucket does not refill for the second, and a
   * second burst that the global level after the gap still covers: eviction shows.
   */
  lemma SlowBucketShowsEviction(p: Params, burst: nat, gap: real, second: nat)
    requires p.Valid() && 1 <= p.maxSources && p.source.burst == burst as real <= p.global.burst
    requires p.ttl < gap && gap * p.source.rate < second as real <= p.source.burst
    requires second as real <= GlobalAfter(p, burst, gap)
    ensures EvictionShows(p, 0.0, Repeat(0.0, burst) + Repeat(gap, second))
  {
    hide Refill, Run, RunMemory, Sweep, Repeat, Admission.Ordered, GlobalAfter;
    var first := Repeat(0.0, burst);
    var arrivals := first + Repeat(gap, second);
    assert [] + first == first;
    NoTimeNoTokensAt(p, gap);
    RunsStartFull(p);
    BurstPasses(p, [], 0.0, burst, p.global.burst);
    NextExpiryBound(p, burst);
    var s := Run(p, 0.0, first).0;
    AfterGap(p, s, burst, gap);
    BurstPasses(p, first, gap, second, Refill(p.global, s.global, gap));
    TwoBurstsInOrder(gap, burst, second);
    var all := Run(p, 0.0, arrivals).1;
    assert [] + AllAllowed(burst) == AllAllowed(burst);
    assert all == AllAllowed(burst) + AllAllowed(second);
    assert SourceTableFull !in all;
    MemoryFallsShort(p, burst, gap, second);
  }

  /** The global bucket has room to spare: a gap just over the ttl and as few datagrams as it takes. */
  lemma WideGlobalShows(p: Params, burst: nat, globalBurst: nat)
    requires p.Valid() && 1 <= p.maxSources && !RefillsWithinTtl(p)
    requires p.source.burst == burst as real && p.global.burst == globalBurst as real
    requires burst < globalBurst && p.source.rate <= p.global.rate
    ensures exists arrivals :: EvictionShows(p, 0.0, arrivals)
  {
    hide EvictionShows;
    var gap := IdleGap(p);
    NoTimeNoTokensAt(p, gap);
    var refilled := gap * p.source.rate;
    var second: nat := refilled.Floor + 1;
    assert refilled < second as real <= refilled + 1.0;
    GlobalCovers(p, burst, globalBurst, gap, second);
    assert second <= burst;
    SlowBucketShowsEviction(p, burst, gap, second);
  }

  lemma GlobalCovers(p: Params, burst: nat, globalBurst: nat, gap: real, second: nat)
    requires p.Valid() && p.global.burst == globalBurst as real && burst < globalBurst && p.source.rate <= p.global.rate
    requires 0.0 <= gap && second as real <= gap * p.source.rate + 1.0 && second <= globalBurst
    ensures second as real <= GlobalAfter(p, burst, gap)
  {
    hide Refill;
    FasterFills(gap, p.source.rate, p.global.rate);
    RefilledSince(p.global, p.global.burst - burst as real, gap);
    Covered(second as real, gap * p.source.rate, gap * p.global.rate, p.global.burst - burst as real, p.global.burst);
  }

  /** The global bucket fills faster: a gap in which it fills up and the source's does not. */
  lemma FastGlobalShows(p: Params, burst: nat)
    requires p.Valid() && 1 <= p.maxSources && !RefillsWithinTtl(p)
    requires p.source.burst == burst as real && p.source.burst == p.global.burst && p.source.rate < p.global.rate
    ensures exists arrivals :: EvictionShows(p, 0.0, arrivals)
  {
    hide EvictionShows;
    var gap := FillingGap(p);
    SlowBucketShowsEviction(p, burst, gap, burst);
  }

  lemma FillingGap(p: Params) returns (gap: real)
    requires p.Valid() && !RefillsWithinTtl(p) && p.source.rate < p.global.rate && p.source.burst == p.global.burst
    ensures p.ttl < gap && gap * p.source.rate < p.source.burst <= gap * p.global.rate
  {
    var rate, fast, burst := p.source.rate, p.global.rate, p.source.burst;
    var idle := IdleGap(p);
    var full := burst / fast;
    assert full * fast == burst;
    if full <= idle {
      gap := idle;
      Grows(fast, full, idle);
    } else {
      gap := full;
      LessRate(full, rate, fast);
    }
  }

  lemma RefilledSince(limits: Limits, left: real, gap: real)
    requires 0.0 <= gap
    ensures Refill(limits, Bucket(left, 0.0), gap) == Min(limits.burst, left + gap * limits.rate)
  {
  }

  lemma Covered(second: real, own: real, all: real, left: real, burst: real)
    requires second <= own + 1.0 && own <= all && 1.0 <= left && second <= burst
    ensures second <= Min(burst, left + all)
  {
  }

  lemma FasterFills(t: real, slow: real, fast: real)
    requires 0.0 <= t && slow <= fast
    ensures t * slow <= t * fast
  {
  }

  lemma LessRate(t: real, slow: real, fast: real)
    requires 0.0 < t && slow < fast
    ensures t * slow < t * fast
  {
  }

  // ------------------------------------------- where the global bucket hides it

  lemma RefillLater(limits: Limits, b: Bucket, t: real, now: real)
    requires limits.Valid() && b.updatedAt <= t <= now
    ensures Refill(limits, b, now) == Min(limits.burst, Refill(limits, b, t) + (now - t) * limits.rate)
  {
    var before, after := t - b.updatedAt, now - t;
    assert now - b.updatedAt == before + after;
    Distribute(before, after, limits.rate);
    assert 0.0 <= after * limits.rate && 0.0 <= before * limits.rate;
  }

  /** The source is not banned, and its bucket holds at least what the global one holds. */
  ghost predicate Covers(p: Params, e: Source, global: Bucket, now: real) {
    e.bannedUntil <= 0.0 && e.bucket.updatedAt <= now && Refill(p.source, global, now) <= Refill(p.source, e.bucket, now)
  }

  ghost predicate AllCover(p: Params, sources: Table, global: Bucket, now: real) {
    global.updatedAt <= now && forall k :: k in sources ==> Covers(p, sources[k], global, now)
  }

  lemma CoversLater(p: Params, e: Source, global: Bucket, t: real, now: real)
    requires p.Valid() && Covers(p, e, global, t) && global.updatedAt <= t <= now
    ensures Covers(p, e, global, now)
  {
    RefillLater(p.source, global, t, now);
    RefillLater(p.source, e.bucket, t, now);
    hide Refill;
  }

  lemma CoverLater(p: Params, sources: Table, global: Bucket, t: real, now: real)
    requires p.Valid() && AllCover(p, sources, global, t) && t <= now
    ensures AllCover(p, sources, global, now)
  {
    hide Covers;
    forall k | k in sources
      ensures Covers(p, sources[k], global, now)
    {
      CoversLater(p, sources[k], global, t, now);
    }
  }

  lemma RefillAtOnce(limits: Limits, level: real, now: real)
    ensures level <= limits.burst ==> Refill(limits, Bucket(level, now), now) == level
  {
  }

  lemma AdmitCovered(p: Params, e: Source, global: Bucket, now: real)
    requires p.Valid() && Covers(p, e, global, now) && Accepts(p.source, global, now, 1.0)
    ensures Admit(p, e, now).1 == Allowed && Covers(p, Admit(p, e, now).0, Charge(p.source, global, now, 1.0), now)
  {
    RefillAtOnce(p.source, Refill(p.source, global, now) - 1.0, now);
    RefillAtOnce(p.source, Refill(p.source, e.bucket, now) - 1.0, now);
  }

  lemma ChargedCover(p: Params, sources: Table, global: Bucket, now: real)
    requires p.Valid() && AllCover(p, sources, global, now)
    ensures AllCover(p, sources, Charge(p.source, global, now, 1.0), now)
  {
    forall k | k in sources
      ensures Covers(p, sources[k], Charge(p.source, global, now, 1.0), now)
    {
      assert Covers(p, sources[k], global, now);
    }
  }

  lemma NewCovers(p: Params, global: Bucket, now: real)
    requires p.Valid() && global.updatedAt <= now
    ensures Covers(p, NewSource(p, now), global, now)
  {
  }

  /** Where all sources cover the global bucket, it alone decides. */
  function GlobalDecision(p: Params, global: Bucket, now: real): Decision {
    if Accepts(p.global, global, now, 1.0) then Allowed else GlobalRateLimit
  }

  lemma RecallIsGlobal(p: Params, m: Memory, now: real, source: string)
    requires p.Valid() && p.source == p.global && 0.0 <= now && AllCover(p, m.sources, m.global, now)
    ensures var (m', d) := Recall(p, m, now, source);
            && d == GlobalDecision(p, m.global, now) && m'.global == Charge(p.global, m.global, now, 1.0)
            && AllCover(p, m'.sources, m'.global, now)
  {
    hide Refill, Admit, Charge, Accepts, Covers;
    CoveredNotBanned(p, m.sources, m.global, now, source);
    ChargedCover(p, m.sources, m.global, now);
    ChargedNow(p.global, m.global, now);
    NewCovers(p, m.global, now);
    if Accepts(p.global, m.global, now, 1.0) {
      AdmitCovered(p, if source in m.sources then m.sources[source] else NewSource(p, now), m.global, now);
    }
  }

  lemma ChargedNow(limits: Limits, b: Bucket, now: real)
    ensures Charge(limits, b, now, 1.0).updatedAt == now
  {
  }

  lemma CoveredNotBanned(p: Params, sources: Table, global: Bucket, now: real, source: string)
    requires 0.0 <= now && AllCover(p, sources, global, now)
    ensures !Banned(sources, source, now)
  {
    if source in sources {
      assert Covers(p, sources[source], global, now);
    }
  }

  lemma SweepCovers(p: Params, sources: Table, global: Bucket, now: real)
    requires AllCover(p, sources, global, now)
    ensures AllCover(p, Sweep(p, sources, now), global, now)
  {
    hide Covers;
  }

  lemma StepIsGlobal(p: Params, s: State, now: real, source: string)
    requires p.Valid() && p.source == p.global && 0.0 <= now && AllCover(p, s.sources, s.global, now)
    ensures var (s', d) := Step(p, s, now, source);
            && (d == GlobalDecision(p, s.global, now) || d == SourceTableFull)
            && s'.global == Charge(p.global, s.global, now, 1.0) && AllCover(p, s'.sources, s'.global, now)
  {
    hide Refill, Admit, Charge, Accepts, Covers, Sweep;
    var t := if s.nextExpiry <= now then State(s.global, Sweep(p, s.sources, now), now + p.ttl) else s;
    SweepCovers(p, s.sources, s.global, now);
    SweepCovers(p, t.sources, s.global, now);
    CoveredNotBanned(p, t.sources, s.global, now, source);
    ChargedCover(p, t.sources, s.global, now);
    ChargedCover(p, Sweep(p, t.sources, now), s.global, now);
    ChargedNow(p.global, s.global, now);
    NewCovers(p, s.global, now);
    if Accepts(p.global, s.global, now, 1.0) {
      AdmitCovered(p, if source in t.sources then t.sources[source] else NewSource(p, now), s.global, now);
    }
  }

  /** A global bucket no larger and no faster than a source's never lets eviction show. */
  lemma {:induction false} TightGlobalHides(p: Params, start: real, arrivals: seq<Arrival>)
    requires p.Valid() && p.source == p.global && Admission.Ordered(start, arrivals)
    requires SourceTableFull !in Run(p, start, arrivals).1
    ensures var (s, decisions) := Run(p, start, arrivals);
            var (m, recalled) := RunMemory(p, start, arrivals);
            && decisions == recalled && s.global == m.global
            && AllCover(p, s.sources, s.global, Now(start, arrivals)) && AllCover(p, m.sources, m.global, Now(start, arrivals))
    decreases |arrivals|
  {
    hide Step, Recall, Covers, Charge;
    if arrivals != [] {
      var n := |arrivals| - 1;
      var init, a := arrivals[..n], arrivals[n];
      var s, m := Run(p, start, init).0, RunMemory(p, start, init).0;
      assert Run(p, start, arrivals).1[..n] == Run(p, start, init).1;
      assert Run(p, start, arrivals).1[n] == Step(p, s, a.time, a.source).1;
      TightGlobalHides(p, start, init);
      CoverLater(p, s.sources, s.global, Now(start, init), a.time);
      CoverLater(p, m.sources, m.global, Now(start, init), a.time);
      StepIsGlobal(p, s, a.time, a.source);
      RecallIsGlobal(p, m, a.time, a.source);
    }
  }

  /**
   * For whole bursts and a global bucket at least as large and as fast as a source's, as config.py
   * demands: eviction can show if and only if a bucket may stay short over the ttl and the global
   * bucket is larger or faster than a source's.
   */
  lemma EvictionShowsIff(p: Params, burst: nat, globalBurst: nat)
    requires p.Valid() && 1 <= p.maxSources && p.source.burst == burst as real && p.global.burst == globalBurst as real
    requires burst <= globalBurst && p.source.rate <= p.global.rate
    ensures (exists start, arrivals :: EvictionShows(p, start, arrivals)) <==> !RefillsWithinTtl(p) && p.source != p.global
  {
    hide RefillsWithinTtl, Run, RunMemory;
    if !RefillsWithinTtl(p) && p.source != p.global {
      if burst < globalBurst {
        WideGlobalShows(p, burst, globalBurst);
      } else {
        FastGlobalShows(p, burst);
      }
    }
    forall start, arrivals | EvictionShows(p, start, arrivals)
      ensures !RefillsWithinTtl(p) && p.source != p.global
    {
      if RefillsWithinTtl(p) {
        EvictionIsInvisible(p, start, arrivals);
      } else if p.source == p.global {
        TightGlobalHides(p, start, arrivals);
      }
    }
  }

  lemma RunsStartFull(p: Params)
    requires p.Valid()
    ensures Run(p, 0.0, []) == (Create(p, 0.0), []) && RunMemory(p, 0.0, []) == (Memory(Full(p.global, 0.0), map[]), [])
    ensures Refill(p.global, Full(p.global, 0.0), 0.0) == p.global.burst
  {
  }

  lemma TwoBurstsInOrder(gap: real, m: nat, n: nat)
    requires 0.0 <= gap
    ensures Admission.Ordered(0.0, Repeat(0.0, m) + Repeat(gap, n))
  {
  }

  /** An empty bucket refills by the gap's worth, short of its burst. */
  lemma RefillsToLevel(p: Params, gap: real)
    requires p.Valid() && 0.0 <= gap && gap * p.source.rate < p.source.burst
    ensures Refill(p.source, Bucket(0.0, 0.0), gap) == gap * p.source.rate < p.source.burst
  {
  }

  /** The memory that lets everything of both bursts pass would have to go below zero. */
  lemma MemoryFallsShort(p: Params, burst: nat, gap: real, second: nat)
    requires p.Valid() && p.source.burst == burst as real && 1 <= burst
    requires 0.0 <= gap && gap * p.source.rate < second as real <= p.source.burst
    ensures RunMemory(p, 0.0, Repeat(0.0, burst) + Repeat(gap, second)).1 != AllAllowed(burst) + AllAllowed(second)
  {
    hide Refill, RunMemory, Recall, Repeat;
    NoTimeNoTokensAt(p, gap);
    var first := Repeat(0.0, burst);
    var all := RunMemory(p, 0.0, first + Repeat(gap, second)).1;
    assert [] + first == first && [] + AllAllowed(burst) == AllAllowed(burst);
    RunsStartFull(p);
    MemoryPrefix(p, first, Repeat(gap, second));
    RefillsToLevel(p, gap);
    if all == AllAllowed(burst) + AllAllowed(second) {
      assert RunMemory(p, 0.0, first).1 == all[..burst] == AllAllowed(burst);
      MemorySpends(p, [], 0.0, burst, p.source.burst);
      MemorySpends(p, first, gap, second, gap * p.source.rate);
    }
  }

  lemma NoTimeNoTokensAt(p: Params, gap: real)
    requires p.Valid() && 0.0 <= gap
    ensures 0.0 <= gap * p.source.rate
  {
  }

  lemma {:induction false} MemoryPrefix(p: Params, a: seq<Arrival>, b: seq<Arrival>)
    ensures RunMemory(p, 0.0, a + b).1[..|a|] == RunMemory(p, 0.0, a).1
    decreases |b|
  {
    if b == [] {
      assert a + b == a;
    } else {
      hide Recall;
      MemoryPrefix(p, a, b[..|b| - 1]);
      assert (a + b)[..|a + b| - 1] == a + b[..|b| - 1];
    }
  }
}
