/**
 * UDP admission (admission.py): a global and a per-source token bucket, a bounded table of
 * sources swept of idle entries, and bans for sources that keep overrunning their bucket.
 */
module Admission {
  import opened Wrappers
  import opened Collections
  import opened TokenBuckets

  datatype Decision =
    | Allowed
    | GlobalRateLimit
    | SourceRateLimit
    | SourceBanStarted
    | SourceBanned
    | SourceTableFull

  datatype Params = Params(
    source: Limits,
    global: Limits,
    maxSources: nat,
    ttl: real,
    violationBurst: nat,
    banSeconds: real)
  {
    /** The ranges config.py enforces, as far as anything here needs them. */
    ghost predicate Valid() {
      && source.Valid() && global.Valid()
      && 1.0 <= source.burst
      && 0.0 <= ttl
      && 1 <= violationBurst
      && 0.0 <= banSeconds
    }
  }

  /** `_UdpSource`. */
  datatype Source = Source(bucket: Bucket, lastSeen: real, violations: nat, bannedUntil: real)

  type Table = map<string, Source>

  datatype State = State(global: Bucket, sources: Table, nextExpiry: real)

  function Create(p: Params, now: real): State {
    State(Full(p.global, now), map[], now + p.ttl)
  }

  /** The entries a sweep keeps. */
  predicate Kept(p: Params, e: Source, now: real) {
    e.bannedUntil > now || now - e.lastSeen <= p.ttl
  }

  function Sweep(p: Params, sources: Table, now: real): Table {
    map k | k in sources && Kept(p, sources[k], now) :: sources[k]
  }

  function NewSource(p: Params, now: real): Source {
    Source(Full(p.source, now), now, 0, 0.0)
  }

  /** A source that is not banned, after the global bucket has let its datagram pass. */
  function Admit(p: Params, e: Source, now: real): (Source, Decision) {
    var bucket := Charge(p.source, e.bucket, now, 1.0);
    if Accepts(p.source, e.bucket, now, 1.0) then
      (Source(bucket, now, 0, e.bannedUntil), Allowed)
    else if e.violations + 1 >= p.violationBurst then
      (Source(bucket, now, 0, now + p.banSeconds), SourceBanStarted)
    else
      (Source(bucket, now, e.violations + 1, e.bannedUntil), SourceRateLimit)
  }

  predicate Banned(sources: Table, source: string, now: real) {
    source in sources && sources[source].bannedUntil > now
  }

  /** `UdpAdmission.allow`. */
  function Step(p: Params, s: State, now: real, source: string): (State, Decision) {
    var s := if s.nextExpiry <= now
             then State(s.global, Sweep(p, s.sources, now), now + p.ttl) else s;
    if Banned(s.sources, source, now) then (s, SourceBanned)
    else
      var global := Charge(p.global, s.global, now, 1.0);
      if !Accepts(p.global, s.global, now, 1.0) then (s.(global := global), GlobalRateLimit)
      else
        var sources := if source !in s.sources && |s.sources| >= p.maxSources
                       then Sweep(p, s.sources, now) else s.sources;
        if source !in s.sources && |sources| >= p.maxSources then
          (State(global, sources, s.nextExpiry), SourceTableFull)
        else
          var e := if source in s.sources then sources[source] else NewSource(p, now);
          var (e', decision) := Admit(p, e, now);
          (State(global, sources[source := e'], s.nextExpiry), decision)
  }

  // ------------------------------------------------------------------- runs

  datatype Arrival = Arrival(time: real, source: string)

  /** The state and the decisions of a run that starts at `start`. */
  function Run(p: Params, start: real, arrivals: seq<Arrival>): (r: (State, seq<Decision>))
    ensures |r.1| == |arrivals|
  {
    if arrivals == [] then (Create(p, start), [])
    else
      var (s, decisions) := Run(p, start, arrivals[..|arrivals| - 1]);
      var a := arrivals[|arrivals| - 1];
      var (s', decision) := Step(p, s, a.time, a.source);
      (s', decisions + [decision])
  }

  /** A clock that does not run backwards, from a non-negative start. */
  ghost predicate Ordered(start: real, arrivals: seq<Arrival>) {
    && 0.0 <= start
    && (forall i :: 0 <= i < |arrivals| ==> start <= arrivals[i].time)
    && (forall i, j :: 0 <= i < j < |arrivals| ==> arrivals[i].time <= arrivals[j].time)
  }

  function Now(start: real, arrivals: seq<Arrival>): real {
    if arrivals == [] then start else arrivals[|arrivals| - 1].time
  }

  // --------------------------------------------- what decisions say about a source

  /** Bucket rejections of `source` since its last Allowed or ban start. */
  function Streak(arrivals: seq<Arrival>, decisions: seq<Decision>, source: string): nat
    requires |arrivals| == |decisions|
  {
    if arrivals == [] then 0
    else
      var n := |arrivals| - 1;
      var before := Streak(arrivals[..n], decisions[..n], source);
      if arrivals[n].source != source then before
      else match decisions[n]
        case Allowed => 0
        case SourceBanStarted => 0
        case SourceRateLimit => before + 1
        case _ => before
  }

  /** When the last ban of `source` ends; 0.0 before any ban. */
  function BanEnd(p: Params, arrivals: seq<Arrival>, decisions: seq<Decision>, source: string): real
    requires |arrivals| == |decisions|
  {
    if arrivals == [] then 0.0
    else
      var n := |arrivals| - 1;
      if arrivals[n].source == source && decisions[n] == SourceBanStarted then arrivals[n].time + p.banSeconds
      else BanEnd(p, arrivals[..n], decisions[..n], source)
  }

  ghost predicate SameFrom(x: real, y: real, now: real) {
    x == y || (x <= now && y <= now)
  }

  /** What the table knows about a source agrees with the decisions so far. */
  ghost predicate EntryAgrees(p: Params, arrivals: seq<Arrival>, decisions: seq<Decision>, now: real,
                              source: string, e: Source)
    requires |arrivals| == |decisions|
  {
    && e.violations == Streak(arrivals, decisions, source) < p.violationBurst
    && SameFrom(e.bannedUntil, BanEnd(p, arrivals, decisions, source), now)
    && 0.0 <= e.bucket.tokens && e.bucket.updatedAt == e.lastSeen <= now
  }

  ghost predicate Agrees(p: Params, arrivals: seq<Arrival>, decisions: seq<Decision>, now: real, s: State)
    requires |arrivals| == |decisions|
  {
    && (forall k :: k in s.sources ==> EntryAgrees(p, arrivals, decisions, now, k, s.sources[k]))
    && (forall k :: k !in s.sources ==> BanEnd(p, arrivals, decisions, k) <= now)
  }

  lemma ChargeIsNotOverdrawn(limits: Limits, b: Bucket, now: real)
    requires limits.Valid() && 0.0 <= b.tokens
    ensures 0.0 <= Charge(limits, b, now, 1.0).tokens
  {
    assert 0.0 <= Max(0.0, now - b.updatedAt) * limits.rate;
  }

  /** A fresh entry is always allowed its first datagram. */
  lemma NewSourceAllowed(p: Params, now: real)
    requires p.Valid()
    ensures Refill(p.source, Full(p.source, now), now) == p.source.burst
    ensures Admit(p, NewSource(p, now), now).1 == Allowed
  {
  }

  lemma AgreesLater(p: Params, arrivals: seq<Arrival>, decisions: seq<Decision>, s: State, then0: real, now: real)
    requires |arrivals| == |decisions| && then0 <= now && Agrees(p, arrivals, decisions, then0, s)
    ensures Agrees(p, arrivals, decisions, now, s)
  {
    hide Streak, BanEnd;
  }

  lemma AgreesSwept(p: Params, arrivals: seq<Arrival>, decisions: seq<Decision>, now: real, s: State)
    requires |arrivals| == |decisions| && Agrees(p, arrivals, decisions, now, s)
    ensures Agrees(p, arrivals, decisions, now, s.(sources := Sweep(p, s.sources, now)))
  {
    hide Streak, BanEnd;
    var t := Sweep(p, s.sources, now);
    forall k | k !in t
      ensures BanEnd(p, arrivals, decisions, k) <= now
    {
      if k in s.sources {
        assert EntryAgrees(p, arrivals, decisions, now, k, s.sources[k]);
      }
    }
  }

  /** What one more decision adds to the record of a source. */
  lemma RecordGrows(p: Params, arrivals: seq<Arrival>, decisions: seq<Decision>, a: Arrival, d: Decision,
          source: string)
    requires |arrivals| == |decisions|
    ensures Streak(arrivals + [a], decisions + [d], source)
            == (if a.source != source then Streak(arrivals, decisions, source)
                else match d
                  case Allowed => 0
                  case SourceBanStarted => 0
                  case SourceRateLimit => Streak(arrivals, decisions, source) + 1
                  case _ => Streak(arrivals, decisions, source))
    ensures BanEnd(p, arrivals + [a], decisions + [d], source)
            == (if a.source == source && d == SourceBanStarted then a.time + p.banSeconds
                else BanEnd(p, arrivals, decisions, source))
  {
    assert (arrivals + [a])[..|arrivals|] == arrivals;
    assert (decisions + [d])[..|decisions|] == decisions;
  }

  lemma StepAgrees(p: Params, arrivals: seq<Arrival>, decisions: seq<Decision>, s: State, a: Arrival)
    requires p.Valid() && |arrivals| == |decisions| && 0.0 <= a.time
    requires Agrees(p, arrivals, decisions, a.time, s)
    ensures var (s', d) := Step(p, s, a.time, a.source);
            Agrees(p, arrivals + [a], decisions + [d], a.time, s')
  {
    hide Streak, BanEnd, Refill;
    var (s', d) := Step(p, s, a.time, a.source);
    var now := a.time;
    var s1 := if s.nextExpiry <= now
              then State(s.global, Sweep(p, s.sources, now), now + p.ttl) else s;
    AgreesSwept(p, arrivals, decisions, now, s);
    AgreesSwept(p, arrivals, decisions, now, s1);
    NewSourceAllowed(p, now);
    forall k
      ensures k in s'.sources ==>
                EntryAgrees(p, arrivals + [a], decisions + [d], now, k, s'.sources[k])
      ensures k !in s'.sources ==> BanEnd(p, arrivals + [a], decisions + [d], k) <= now
    {
      RecordGrows(p, arrivals, decisions, a, d, k);
      if k == a.source && k in s'.sources {
        var e := if k in s1.sources then s1.sources[k] else NewSource(p, now);
        if k in s1.sources {
          assert EntryAgrees(p, arrivals, decisions, now, k, e);
        }
        ChargeIsNotOverdrawn(p.source, e.bucket, now);
      }
    }
  }

  lemma {:induction false} RunAgrees(p: Params, start: real, arrivals: seq<Arrival>)
    requires p.Valid() && Ordered(start, arrivals)
    ensures var (s, decisions) := Run(p, start, arrivals);
            Agrees(p, arrivals, decisions, Now(start, arrivals), s)
    decreases |arrivals|
  {
    if arrivals != [] {
      hide Step;
      var n := |arrivals| - 1;
      var (init, a) := (arrivals[..n], arrivals[n]);
      RunAgrees(p, start, init);
      var (s, decisions) := Run(p, start, init);
      AgreesLater(p, init, decisions, s, Now(start, init), a.time);
      StepAgrees(p, init, decisions, s, a);
      assert init + [a] == arrivals;
    }
  }

  /** Which answers speak of the entry that the table has before the step. */
  lemma StepAnswers(p: Params, s: State, now: real, source: string)
    requires p.Valid()
    ensures var d := Step(p, s, now, source).1;
            && (d == SourceBanned <==> Banned(s.sources, source, now))
            && (d.SourceBanStarted? || d.SourceRateLimit? ==>
                  && source in s.sources
                  && (d.SourceBanStarted? <==> s.sources[source].violations + 1 >= p.violationBurst))
  {
    hide Refill;
    NewSourceAllowed(p, now);
  }

  /**
   * A bucket rejection starts a ban exactly when it is the k-th of the source since its last
   * Allowed or ban start; until then it is a plain rate-limit answer.  Global and table-full
   * rejections do not count towards it and eviction does not split it.
   */
  lemma BanStartsOnKthRejection(p: Params, start: real, arrivals: seq<Arrival>, now: real, source: string)
    requires p.Valid() && Ordered(start, arrivals + [Arrival(now, source)])
    ensures var (s, decisions) := Run(p, start, arrivals);
            var d := Step(p, s, now, source).1;
            && (d.SourceBanStarted? || d.SourceRateLimit? ==>
                  (d.SourceBanStarted? <==> Streak(arrivals, decisions, source) + 1 == p.violationBurst))
            && Streak(arrivals, decisions, source) < p.violationBurst
  {
    hide Streak, BanEnd, Step, Run;
    var a := Arrival(now, source);
    assert forall i :: 0 <= i < |arrivals| ==> (arrivals + [a])[i] == arrivals[i];
    RunAgrees(p, start, arrivals);
    var (s, decisions) := Run(p, start, arrivals);
    assert Now(start, arrivals) <= now by {
      if arrivals != [] {
        assert (arrivals + [a])[|arrivals| - 1].time <= (arrivals + [a])[|arrivals|].time;
      } else {
        assert start <= (arrivals + [a])[0].time;
      }
    }
    AgreesLater(p, arrivals, decisions, s, Now(start, arrivals), now);
    StepAnswers(p, s, now, source);
    StreakBelowBurst(p, start, arrivals, source);
  }

  lemma {:induction false} StreakBelowBurst(p: Params, start: real, arrivals: seq<Arrival>, source: string)
    requires p.Valid() && Ordered(start, arrivals)
    ensures Streak(arrivals, Run(p, start, arrivals).1, source) < p.violationBurst
    decreases |arrivals|
  {
    if arrivals != [] {
      hide Refill;
      var n := |arrivals| - 1;
      var (init, a) := (arrivals[..n], arrivals[n]);
      StreakBelowBurst(p, start, init, source);
      RunAgrees(p, start, arrivals);
      var (s, decisions) := Run(p, start, init);
      var (s', d) := Step(p, s, a.time, a.source);
      assert init + [a] == arrivals;
      RecordGrows(p, init, decisions, a, d, source);
      hide Streak, BanEnd;
      if d.SourceRateLimit? && a.source == source {
        assert source in s'.sources;
        assert EntryAgrees(p, arrivals, decisions + [d], a.time, source, s'.sources[source]);
      }
    }
  }

  lemma {:induction false} BanEndIsLatest(p: Params, start: real, arrivals: seq<Arrival>, decisions: seq<Decision>,
                                          source: string, now: real)
    requires p.Valid() && |arrivals| == |decisions| && Ordered(start, arrivals) && 0.0 <= now
    ensures now < BanEnd(p, arrivals, decisions, source)
            <==> exists i :: 0 <= i < |arrivals| && arrivals[i].source == source
                             && decisions[i] == SourceBanStarted && now < arrivals[i].time + p.banSeconds
    decreases |arrivals|
  {
    if arrivals != [] {
      var n := |arrivals| - 1;
      BanEndIsLatest(p, start, arrivals[..n], decisions[..n], source, now);
    }
  }

  /**
   * Over every run a datagram is answered Banned exactly while a ban of its source is running:
   * no sweep, and no pressure on the table, lifts a ban early or keeps it on.
   */
  lemma BannedExactlyWhileBanRuns(p: Params, start: real, arrivals: seq<Arrival>, now: real, source: string)
    requires p.Valid() && Ordered(start, arrivals + [Arrival(now, source)])
    ensures var (s, decisions) := Run(p, start, arrivals);
            Step(p, s, now, source).1 == SourceBanned
            <==> exists i :: 0 <= i < |arrivals| && arrivals[i].source == source
                             && decisions[i] == SourceBanStarted && now < arrivals[i].time + p.banSeconds
  {
    hide Streak, BanEnd, Step, Run;
    var a := Arrival(now, source);
    assert forall i :: 0 <= i < |arrivals| ==> (arrivals + [a])[i] == arrivals[i];
    RunAgrees(p, start, arrivals);
    var (s, decisions) := Run(p, start, arrivals);
    assert Now(start, arrivals) <= now && 0.0 <= now by {
      assert start <= (arrivals + [a])[|arrivals|].time;
      if arrivals != [] {
        assert (arrivals + [a])[|arrivals| - 1].time <= (arrivals + [a])[|arrivals|].time;
      }
    }
    AgreesLater(p, arrivals, decisions, s, Now(start, arrivals), now);
    StepAnswers(p, s, now, source);
    BanEndIsLatest(p, start, arrivals, decisions, source, now);
  }

  lemma SweepShrinks(p: Params, sources: Table, now: real)
    ensures |Sweep(p, sources, now)| <= |sources|
  {
    var swept := Sweep(p, sources, now);
    SubsetSize(swept.Keys, sources.Keys);
    assert |swept| == |swept.Keys| && |sources| == |sources.Keys|;
  }

  /** The table never outgrows its bound. */
  lemma {:induction false} TableIsBounded(p: Params, start: real, arrivals: seq<Arrival>)
    ensures |Run(p, start, arrivals).0.sources| <= p.maxSources
    decreases |arrivals|
  {
    if arrivals != [] {
      hide Admit, Accepts, Charge, Kept;
      var n := |arrivals| - 1;
      var a := arrivals[n];
      TableIsBounded(p, start, arrivals[..n]);
      var s := Run(p, start, arrivals[..n]).0;
      SweepShrinks(p, s.sources, a.time);
      SweepShrinks(p, Sweep(p, s.sources, a.time), a.time);
    }
  }

  // ---------------------------------------------------------------- the class

  class UdpAdmission {
    const p: Params
    var global: Bucket
    var sources: Table
    var nextExpiry: real

    ghost function Value(): State
      reads this
    {
      State(global, sources, nextExpiry)
    }

    constructor (p: Params, now: real)
      ensures this.p == p && Value() == Create(p, now)
    {
      this.p := p;
      global := Full(p.global, now);
      sources := map[];
      nextExpiry := now + p.ttl;
    }

    method Expire(now: real)
      modifies this`sources
      ensures sources == Sweep(p, old(sources), now)
    {
      sources := map k | k in sources
                         && (sources[k].bannedUntil > now || now - sources[k].lastSeen <= p.ttl) :: sources[k];
    }

    /** `allow`, with its clock readings taken once as `now`. */
    method Allow(now: real, source: string) returns (decision: Decision)
      modifies this
      ensures (Value(), decision) == Step(p, old(Value()), now, source)
    {
      if now >= nextExpiry {
        Expire(now);
        nextExpiry := now + p.ttl;
      }
      if source in sources && sources[source].bannedUntil > now {
        return SourceBanned;
      }
      var passed := Accepts(p.global, global, now, 1.0);
      global := Charge(p.global, global, now, 1.0);
      if !passed {
        return GlobalRateLimit;
      }
      var entry: Source;
      if source !in sources {
        if |sources| >= p.maxSources {
          Expire(now);
        }
        if |sources| >= p.maxSources {
          return SourceTableFull;
        }
        entry := NewSource(p, now);
      } else {
        entry := sources[source].(lastSeen := now);
      }
      var admitted := Accepts(p.source, entry.bucket, now, 1.0);
      entry := entry.(bucket := Charge(p.source, entry.bucket, now, 1.0));
      if admitted {
        sources := sources[source := entry.(violations := 0)];
        return Allowed;
      }
      entry := entry.(violations := entry.violations + 1);
      if entry.violations >= p.violationBurst {
        sources := sources[source := entry.(violations := 0, bannedUntil := now + p.banSeconds)];
        return SourceBanStarted;
      }
      sources := sources[source := entry];
      return SourceRateLimit;
    }
  }
}
