/**
 * Which answer a datagram gets, told from the table and the buckets, and from the run alone for the
 * global limit; and what an answer leaves behind.
 */
module AdmissionMeaning {
  import opened Wrappers
  import opened TokenBuckets
  import opened Admission

  /** What a sweep may drop: neither banned nor heard of within its time to live. */
  predicate Stale(p: Params, e: Source, now: real) {
    e.bannedUntil <= now && p.ttl < now - e.lastSeen
  }

  /** Still known once the sweep that may be due has run. */
  predicate Known(p: Params, s: State, now: real, source: string) {
    source in s.sources && (s.nextExpiry <= now ==> !Stale(p, s.sources[source], now))
  }

  predicate UnderBan(s: State, now: real, source: string) {
    source in s.sources && now < s.sources[source].bannedUntil
  }

  /** What the source has to spend: its bucket's level, or a full bucket. */
  function Credit(p: Params, s: State, now: real, source: string): real {
    if Known(p, s, now, source) then Refill(p.source, s.sources[source].bucket, now) else p.source.burst
  }

  function Offences(p: Params, s: State, now: real, source: string): nat {
    if Known(p, s, now, source) then s.sources[source].violations else 0
  }

  function Survivors(p: Params, s: State, now: real): set<string> {
    set k | k in s.sources && !Stale(p, s.sources[k], now)
  }

  /** There is room for the source: it is known, or sweeping leaves a place free. */
  predicate HasPlace(p: Params, s: State, now: real, source: string) {
    Known(p, s, now, source) || |Survivors(p, s, now)| < p.maxSources
  }

  lemma SweptTable(p: Params, s: State, now: real)
    ensures Sweep(p, s.sources, now).Keys == Survivors(p, s, now)
    ensures |Sweep(p, s.sources, now)| == |Survivors(p, s, now)| <= |s.sources|
    ensures Sweep(p, Sweep(p, s.sources, now), now) == Sweep(p, s.sources, now)
    ensures forall k :: k in Sweep(p, s.sources, now) ==> Sweep(p, s.sources, now)[k] == s.sources[k]
  {
    SweepShrinks(p, s.sources, now);
  }

  /**
   * The answer: banned while the ban runs; else the global bucket must hold one token, the table a
   * place, and the source's bucket one token.  A source that lacks it is banned at its k-th offence.
   */
  lemma AnswerIs(p: Params, s: State, now: real, source: string)
    ensures Step(p, s, now, source).1
            == if UnderBan(s, now, source) then SourceBanned
               else if Refill(p.global, s.global, now) < 1.0 then GlobalRateLimit
               else if !HasPlace(p, s, now, source) then SourceTableFull
               else if 1.0 <= Credit(p, s, now, source) then Allowed
               else if p.violationBurst <= Offences(p, s, now, source) + 1 then SourceBanStarted
               else SourceRateLimit
  {
    hide Refill, Sweep, Survivors;
    SweptTable(p, s, now);
    FullRefills(p, now);
    SweptEntry(p, s, now, source);
  }

  lemma SweptEntry(p: Params, s: State, now: real, source: string)
    ensures source in Sweep(p, s.sources, now) <==> source in s.sources && !Stale(p, s.sources[source], now)
  {
  }

  lemma FullRefills(p: Params, now: real)
    ensures Refill(p.source, Full(p.source, now), now) == p.source.burst
  {
    assert 0.0 * p.source.rate == 0.0;
  }

  /** An answer leaves every other source alone, unless a sweep finds it stale; a sweep that is due finds all. */
  lemma OthersStay(p: Params, s: State, now: real, source: string, k: string)
    requires k != source
    ensures var t := Step(p, s, now, source).0;
            && (k in t.sources ==> k in s.sources && t.sources[k] == s.sources[k])
            && (k in s.sources && k !in t.sources ==> Stale(p, s.sources[k], now))
            && (s.nextExpiry <= now ==> (k in t.sources <==> k in Survivors(p, s, now)))
  {
    hide Refill, Accepts, Charge, Admit;
  }

  /** The clock of the sweep, and the global bucket: a token for each datagram that is not banned. */
  lemma GlobalLeft(p: Params, s: State, now: real, source: string)
    ensures var t, level := Step(p, s, now, source).0, Refill(p.global, s.global, now);
            && t.nextExpiry == (if s.nextExpiry <= now then now + p.ttl else s.nextExpiry)
            && t.global == if UnderBan(s, now, source) then s.global
                           else Bucket(if 1.0 <= level then level - 1.0 else level, now)
  {
    hide Refill, Sweep, Admit;
    SweptTable(p, s, now);
    SweptEntry(p, s, now, source);
  }

  /** The source itself: what it has left, its offences, and the end of its ban. */
  lemma SourceLeft(p: Params, s: State, now: real, source: string)
    ensures var (t, d) := Step(p, s, now, source);
            var credit, known := Credit(p, s, now, source), Known(p, s, now, source);
            && (d in {SourceBanned, GlobalRateLimit, SourceTableFull} ==>
                  (source in t.sources <==> known) && (known ==> t.sources[source] == s.sources[source]))
            && (d in {Allowed, SourceRateLimit, SourceBanStarted} ==>
                  && source in t.sources
                  && t.sources[source]
                     == Source(Bucket(if d == Allowed then credit - 1.0 else credit, now), now,
                               if d == SourceRateLimit then Offences(p, s, now, source) + 1 else 0,
                               if d == SourceBanStarted then now + p.banSeconds
                               else if known then s.sources[source].bannedUntil else 0.0))
  {
    hide Refill, Sweep;
    FullRefills(p, now);
    SweptTable(p, s, now);
    SweptEntry(p, s, now, source);
  }

  // ------------------------------------------------------------ the global limit

  /** The datagrams that reach the global bucket: all but those of banned sources. */
  function Reaching(arrivals: seq<Arrival>, decisions: seq<Decision>): (r: seq<Call>)
    requires |arrivals| == |decisions|
    ensures |r| <= |arrivals|
  {
    if arrivals == [] then []
    else
      var n := |arrivals| - 1;
      Reaching(arrivals[..n], decisions[..n]) + if decisions[n].SourceBanned? then [] else [Call(arrivals[n].time, 1.0)]
  }

  lemma AnswerCharges(p: Params, s: State, now: real, source: string)
    ensures var (t, d) := Step(p, s, now, source);
            t.global == if d == SourceBanned then s.global else Charge(p.global, s.global, now, 1.0)
  {
    hide Refill, Sweep, Admit;
    SweptTable(p, s, now);
    SweptEntry(p, s, now, source);
    AnswerIs(p, s, now, source);
  }

  /** The global bucket is one that has met just these datagrams. */
  lemma {:induction false} GlobalIsBucket(p: Params, start: real, arrivals: seq<Arrival>)
    ensures var (s, decisions) := Run(p, start, arrivals);
            s.global == After(p.global, start, Reaching(arrivals, decisions))
    decreases |arrivals|
  {
    hide Step, Charge;
    if arrivals != [] {
      var n := |arrivals| - 1;
      GlobalIsBucket(p, start, arrivals[..n]);
      var (s, decisions) := Run(p, start, arrivals[..n]);
      var a := arrivals[n];
      AnswerCharges(p, s, a.time, a.source);
      var d := Step(p, s, a.time, a.source).1;
      assert (decisions + [d])[..n] == decisions;
      var calls := Reaching(arrivals[..n], decisions);
      assert calls + [] == calls;
      assert (calls + [Call(a.time, 1.0)])[..|calls|] == calls;
    }
  }

  lemma {:induction false} ReachingOrdered(start: real, arrivals: seq<Arrival>, decisions: seq<Decision>, now: real)
    requires |arrivals| == |decisions| && 0.0 <= start <= now && Admission.Ordered(start, arrivals)
    requires forall i :: 0 <= i < |arrivals| ==> arrivals[i].time <= now
    ensures TokenBuckets.Ordered(start, Reaching(arrivals, decisions), now)
    decreases |arrivals|
  {
    if arrivals != [] {
      var n := |arrivals| - 1;
      ReachingOrdered(start, arrivals[..n], decisions[..n], arrivals[n].time);
    }
  }

  /**
   * In every run: a datagram that is not banned meets the global limit exactly if, with it, some window
   * that ends now would let pass more than the burst and what has accrued since the window opened.
   */
  lemma GlobalLimitIff(p: Params, start: real, arrivals: seq<Arrival>, now: real, source: string)
    requires p.Valid() && Admission.Ordered(start, arrivals + [Arrival(now, source)])
    ensures var (s, decisions) := Run(p, start, arrivals);
            var calls, d := Reaching(arrivals, decisions), Step(p, s, now, source).1;
            d != SourceBanned ==>
              (d == GlobalRateLimit
               <==> p.global.burst < 1.0
                    || exists i :: 0 <= i < |calls|
                                   && p.global.burst + (now - calls[i].time) * p.global.rate
                                      < SpentSince(p.global, start, calls, i) + 1.0)
  {
    hide Step, Run, Reaching, SpentSince, Accepts, Refill, Credit, UnderBan, HasPlace, Offences;
    var (s, decisions) := Run(p, start, arrivals);
    var calls := Reaching(arrivals, decisions);
    LastIsLatest(start, arrivals, now, source);
    GlobalIsBucket(p, start, arrivals);
    ReachingOrdered(start, arrivals, decisions, now);
    AnswerIs(p, s, now, source);
    AcceptsIffEveryWindowFits(p.global, start, calls, now, 1.0);
    AcceptsIs(p.global, s.global, now);
    forall i | 0 <= i < |calls|
      ensures Accrued(p.global, calls[i].time, now) == (now - calls[i].time) * p.global.rate
    {
    }
  }

  lemma AcceptsIs(limits: Limits, b: Bucket, now: real)
    ensures Accepts(limits, b, now, 1.0) <==> !(Refill(limits, b, now) < 1.0)
  {
  }

  lemma LastIsLatest(start: real, arrivals: seq<Arrival>, now: real, source: string)
    requires Admission.Ordered(start, arrivals + [Arrival(now, source)])
    ensures 0.0 <= start <= now && Admission.Ordered(start, arrivals)
    ensures forall i :: 0 <= i < |arrivals| ==> arrivals[i].time <= now
  {
    var all := arrivals + [Arrival(now, source)];
    assert all[|arrivals|] == Arrival(now, source);
    assert forall i :: 0 <= i < |arrivals| ==> all[i] == arrivals[i];
  }
}
