/**
 * The token bucket that UDP admission, the PeerChat budgets and the relay's
 * per-endpoint byte limit share.  Tokens and times are reals: rounding of the
 * source's floats is not modelled.
 */
module TokenBuckets {
  import opened Wrappers

  datatype Limits = Limits(rate: real, burst: real) {
    ghost predicate Valid() {
      0.0 <= rate && 0.0 <= burst
    }
  }

  datatype Bucket = Bucket(tokens: real, updatedAt: real)

  function Max(x: real, y: real): real {
    if x < y then y else x
  }

  function Min(x: real, y: real): real {
    if x < y then x else y
  }

  function Full(limits: Limits, now: real): Bucket {
    Bucket(limits.burst, now)
  }

  /** The tokens on hand when the clock reads `now`. */
  function Refill(limits: Limits, bucket: Bucket, now: real): real {
    Min(limits.burst, bucket.tokens + Max(0.0, now - bucket.updatedAt) * limits.rate)
  }

  /** Written out; a clock that runs backwards adds nothing. */
  lemma RefillIsMin(limits: Limits, bucket: Bucket, now: real)
    ensures var elapsed := if now < bucket.updatedAt then 0.0 else now - bucket.updatedAt;
            var level := bucket.tokens + elapsed * limits.rate;
            Refill(limits, bucket, now) == if level < limits.burst then level else limits.burst
  {
  }

  predicate Accepts(limits: Limits, bucket: Bucket, now: real, cost: real) {
    cost <= Refill(limits, bucket, now)
  }

  /** The bucket after a call for `cost` at `now`: refilled, and charged if it accepts. */
  function Charge(limits: Limits, bucket: Bucket, now: real, cost: real): Bucket {
    var level := Refill(limits, bucket, now);
    Bucket(if cost <= level then level - cost else level, now)
  }

  // -------------------------------------------------------- times and rates

  lemma Grows(rate: real, a: real, b: real)
    requires 0.0 <= rate && a <= b
    ensures a * rate <= b * rate
  {
  }

  lemma Distribute(a: real, b: real, rate: real)
    ensures (a + b) * rate == a * rate + b * rate
  {
  }

  // ---------------------------------------------------------------- the class

  /** `TokenBucket` of the source; one clock reading per call, passed as `now`. */
  class TokenBucket {
    const limits: Limits
    var tokens: real
    var updatedAt: real

    ghost function State(): Bucket
      reads this
    {
      Bucket(tokens, updatedAt)
    }

    constructor (limits: Limits, now: real)
      ensures this.limits == limits && State() == Full(limits, now)
    {
      this.limits := limits;
      tokens := limits.burst;
      updatedAt := now;
    }

    /** Fails, as the source raises ValueError, exactly for a cost below one. */
    method Allow(now: real, cost: int := 1) returns (r: Result<bool>)
      modifies this
      ensures r.Failure? <==> cost < 1
      ensures r.Failure? ==> State() == old(State())
      ensures r.Success? ==>
                && r.value == Accepts(limits, old(State()), now, cost as real)
                && State() == Charge(limits, old(State()), now, cost as real)
    {
      if cost < 1 {
        return Failure("token cost must be positive");
      }
      var elapsed := Max(0.0, now - updatedAt);
      tokens := Min(limits.burst, tokens + elapsed * limits.rate);
      updatedAt := now;
      if tokens < cost as real {
        return Success(false);
      }
      tokens := tokens - cost as real;
      r := Success(true);
    }
  }

  /**
   * `_RelayEndpoint` of natneg.py.  It keeps its own copy of the arithmetic, takes the
   * limits at each call and, unlike `TokenBucket`, accepts a size of zero.
   */
  class RelayEndpoint {
    var tokens: real
    var lastRefill: real

    ghost function State(): Bucket
      reads this
    {
      Bucket(tokens, lastRefill)
    }

    constructor (burst: nat, now: real)
      ensures State() == Bucket(burst as real, now)
    {
      tokens := burst as real;
      lastRefill := now;
    }

    method Allow(size: nat, rate: nat, burst: nat, now: real) returns (ok: bool)
      modifies this
      ensures ok == Accepts(Limits(rate as real, burst as real), old(State()), now, size as real)
      ensures State() == Charge(Limits(rate as real, burst as real), old(State()), now, size as real)
    {
      var elapsed := Max(0.0, now - lastRefill);
      tokens := Min(burst as real, tokens + elapsed * rate as real);
      lastRefill := now;
      if size as real > tokens {
        return false;
      }
      tokens := tokens - size as real;
      return true;
    }
  }

  // ----------------------------------------------------- what a bucket enforces

  datatype Call = Call(time: real, cost: real)

  /** A bucket created full at `start`, after `calls`. */
  function After(limits: Limits, start: real, calls: seq<Call>): Bucket {
    if calls == [] then Full(limits, start)
    else
      var last := calls[|calls| - 1];
      Charge(limits, After(limits, start, calls[..|calls| - 1]), last.time, last.cost)
  }

  /** What call `k` took out of the bucket. */
  function Taken(limits: Limits, start: real, calls: seq<Call>, k: nat): real
    requires k < |calls|
  {
    if Accepts(limits, After(limits, start, calls[..k]), calls[k].time, calls[k].cost)
    then calls[k].cost else 0.0
  }

  /** The cost accepted from call `i` on. */
  function SpentSince(limits: Limits, start: real, calls: seq<Call>, i: nat): real
    requires i <= |calls|
  {
    if i == |calls| then 0.0
    else
      var n := |calls| - 1;
      SpentSince(limits, start, calls[..n], i) + Taken(limits, start, calls, n)
  }

  ghost predicate Ordered(start: real, calls: seq<Call>, now: real) {
    && (forall i :: 0 <= i < |calls| ==> start <= calls[i].time <= now)
    && (forall i, j :: 0 <= i < j < |calls| ==> calls[i].time <= calls[j].time)
    && start <= now
  }

  /** What accrues while the clock goes from `from` to `to`. */
  function Accrued(limits: Limits, from: real, to: real): real {
    (to - from) * limits.rate
  }

  /** What the window opening at call `i` leaves for a call at `now`. */
  function Room(limits: Limits, start: real, calls: seq<Call>, now: real, i: nat): real
    requires i < |calls|
  {
    limits.burst + Accrued(limits, calls[i].time, now) - SpentSince(limits, start, calls, i)
  }

  lemma AccruedAdds(limits: Limits, a: real, b: real, c: real)
    ensures Accrued(limits, a, c) == Accrued(limits, a, b) + Accrued(limits, b, c)
  {
  }

  lemma AccruedMonotone(limits: Limits, a: real, b: real)
    requires limits.Valid() && a <= b
    ensures 0.0 <= Accrued(limits, a, b)
  {
  }

  lemma RefillIs(limits: Limits, bucket: Bucket, now: real)
    requires bucket.updatedAt <= now
    ensures Refill(limits, bucket, now)
            == Min(limits.burst, bucket.tokens + Accrued(limits, bucket.updatedAt, now))
  {
  }

  lemma RoomExtends(limits: Limits, start: real, calls: seq<Call>, now: real, i: nat)
    requires i + 1 < |calls|
    ensures var n := |calls| - 1;
            Room(limits, start, calls, now, i)
            == Room(limits, start, calls[..n], calls[n].time, i)
               + Accrued(limits, calls[n].time, now) - Taken(limits, start, calls, n)
  {
    hide Accrued, Taken, Refill;
    var n := |calls| - 1;
    AccruedAdds(limits, calls[i].time, calls[n].time, now);
  }

  /** One step of `LevelIsLeastRoom`: the level after the last call, in terms of the level before it. */
  lemma LevelSteps(limits: Limits, start: real, calls: seq<Call>, now: real)
    requires calls != [] && calls[|calls| - 1].time <= now
    ensures var n := |calls| - 1;
            && Refill(limits, After(limits, start, calls), now)
               == Min(limits.burst,
                      Refill(limits, After(limits, start, calls[..n]), calls[n].time)
                      - Taken(limits, start, calls, n) + Accrued(limits, calls[n].time, now))
            && SpentSince(limits, start, calls, n) == Taken(limits, start, calls, n)
  {
    hide Accrued;
    RefillIs(limits, After(limits, start, calls), now);
  }

  /**
   * The tokens equal the least of the burst and the room of every window:
   * they are below each (first two clauses) and equal to one (last clause).
   */
  lemma {:induction false} LevelIsLeastRoom(limits: Limits, start: real, calls: seq<Call>, now: real)
    requires limits.Valid() && Ordered(start, calls, now)
    ensures var level := Refill(limits, After(limits, start, calls), now);
            && level <= limits.burst
            && (forall i :: 0 <= i < |calls| ==> level <= Room(limits, start, calls, now, i))
            && (level == limits.burst
                || exists i :: 0 <= i < |calls| && level == Room(limits, start, calls, now, i))
    decreases |calls|
  {
    hide Accrued, Refill, Taken, Charge;
    var level := Refill(limits, After(limits, start, calls), now);
    if calls == [] {
      RefillIs(limits, After(limits, start, calls), now);
      AccruedMonotone(limits, start, now);
    } else {
      var n := |calls| - 1;
      var (before, t) := (calls[..n], calls[n].time);
      var had := Refill(limits, After(limits, start, before), t);
      LevelIsLeastRoom(limits, start, before, t);
      LevelSteps(limits, start, calls, now);
      AccruedMonotone(limits, t, now);
      forall i | 0 <= i < |calls|
        ensures level <= Room(limits, start, calls, now, i)
      {
        if i < n {
          RoomExtends(limits, start, calls, now, i);
          assert had <= Room(limits, start, before, t, i);
        }
      }
      if level != limits.burst {
        if had == limits.burst {
          assert level == Room(limits, start, calls, now, n);
        } else {
          var i :| 0 <= i < n && had == Room(limits, start, before, t, i);
          RoomExtends(limits, start, calls, now, i);
          assert level == Room(limits, start, calls, now, i);
        }
      }
    }
  }

  /**
   * Under a clock that does not run backwards a call is accepted exactly when, together
   * with what was accepted since, it fits every window that opens at an earlier call
   * (and the empty window).
   */
  lemma AcceptsIffEveryWindowFits(limits: Limits, start: real, calls: seq<Call>, now: real, cost: real)
    requires limits.Valid() && Ordered(start, calls, now)
    ensures Accepts(limits, After(limits, start, calls), now, cost)
            <==> && cost <= limits.burst
                 && forall i :: 0 <= i < |calls| ==>
                      SpentSince(limits, start, calls, i) + cost
                      <= limits.burst + Accrued(limits, calls[i].time, now)
  {
    hide Accrued, Refill, SpentSince;
    LevelIsLeastRoom(limits, start, calls, now);
    assert forall i :: 0 <= i < |calls| ==>
      Room(limits, start, calls, now, i)
      == limits.burst + Accrued(limits, calls[i].time, now) - SpentSince(limits, start, calls, i);
  }

  /** Every window of a run stays within burst + rate * elapsed. */
  lemma WindowsAreBounded(limits: Limits, start: real, calls: seq<Call>, i: nat, j: nat)
    requires limits.Valid() && i <= j < |calls| && Ordered(start, calls, calls[|calls| - 1].time)
    ensures SpentSince(limits, start, calls[..j + 1], i)
            <= limits.burst + Accrued(limits, calls[i].time, calls[j].time)
  {
    hide Accrued, Refill, Charge;
    var (upTo, before) := (calls[..j + 1], calls[..j]);
    assert upTo[..j] == before;
    AcceptsIffEveryWindowFits(limits, start, before, calls[j].time, calls[j].cost);
    AcceptsIffEveryWindowFits(limits, start, before, calls[j].time, 0.0);
    LevelNonNegative(limits, start, before, calls[j].time);
    AccruedMonotone(limits, calls[i].time, calls[j].time);
    assert Accepts(limits, After(limits, start, before), calls[j].time, 0.0);
  }

  /** The bucket is never overdrawn. */
  lemma {:induction false} LevelNonNegative(limits: Limits, start: real, calls: seq<Call>, now: real)
    requires limits.Valid()
    ensures 0.0 <= Refill(limits, After(limits, start, calls), now)
    decreases |calls|
  {
    var bucket := After(limits, start, calls);
    assert 0.0 <= bucket.tokens by {
      if calls != [] {
        hide Refill;
        var n := |calls| - 1;
        LevelNonNegative(limits, start, calls[..n], calls[n].time);
      }
    }
    assert 0.0 <= Max(0.0, now - bucket.updatedAt) * limits.rate;
  }
}
