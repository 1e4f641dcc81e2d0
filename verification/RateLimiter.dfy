/** The login rate limiter: a fixed window per client, opened by the client's first request,
  * with expired buckets swept at most once per window.
  */
module RateLimiter {
  import opened Wrappers

  // Nanoseconds.
  type Time = int
  datatype Bucket = Bucket(startedAt: Time, count: nat)
  datatype Request = Request(key: string, now: Time)
  datatype Decision = Decision(allowed: bool, retryAfter: Time)

  const SECOND: Time := 1_000_000_000

  /** The bucket that a request at `now` counts into, and its count. */
  function Current(buckets: map<string, Bucket>, key: string, now: Time, window: Time): Bucket {
    if key !in buckets || now - buckets[key].startedAt >= window then Bucket(now, 1)
    else Bucket(buckets[key].startedAt, buckets[key].count + 1)
  }

  function Decide(b: Bucket, now: Time, limit: int, window: Time): Decision {
    Decision(b.count <= limit, window - (now - b.startedAt))
  }

  /** The limiter without sweeping: buckets are only ever added and restarted. */
  function Step(buckets: map<string, Bucket>, r: Request, limit: int, window: Time): (map<string, Bucket>, Decision) {
    var b := Current(buckets, r.key, r.now, window);
    (buckets[r.key := b], Decide(b, r.now, limit, window))
  }

  function Sweep(buckets: map<string, Bucket>, now: Time, window: Time): map<string, Bucket> {
    map k | k in buckets && now - buckets[k].startedAt < window :: buckets[k]
  }

  datatype Swept = Swept(buckets: map<string, Bucket>, lastCleanup: Time)

  function SweptStep(s: Swept, r: Request, limit: int, window: Time): (Swept, Decision) {
    var due := r.now - s.lastCleanup >= window;
    var buckets := if due then Sweep(s.buckets, r.now, window) else s.buckets;
    var (after, d) := Step(buckets, r, limit, window);
    (Swept(after, if due then r.now else s.lastCleanup), d)
  }

  class Limiter {
    const limit: int
    const window: Time
    var buckets: map<string, Bucket>
    var lastCleanup: Time

    function State(): Swept reads this { Swept(buckets, lastCleanup) }

    constructor (limit: int, window: Time, now: Time)
      ensures this.limit == limit && this.window == window && State() == Swept(map[], now)
    {
      this.limit, this.window, buckets, lastCleanup := limit, window, map[], now;
    }

    /** The handler's critical section. */
    method Handle(key: string, now: Time) returns (d: Decision)
      modifies this
      ensures (State(), d) == SweptStep(old(State()), Request(key, now), limit, window)
    {
      if now - lastCleanup >= window {
        var rest := buckets.Keys;
        while rest != {}
          invariant rest <= old(buckets).Keys
          invariant buckets == map k | k in old(buckets) && (k in rest || now - old(buckets)[k].startedAt < window) ::
                      old(buckets)[k]
        {
          var candidate :| candidate in rest;
          if now - buckets[candidate].startedAt >= window { buckets := buckets - {candidate}; }
          rest := rest - {candidate};
        }
        lastCleanup := now;
        assert buckets == Sweep(old(buckets), now, window);
      }
      var current := if key in buckets then Some(buckets[key]) else None;
      if current.None? || now - current.value.startedAt >= window { current := Some(Bucket(now, 0)); }
      current := Some(current.value.(count := current.value.count + 1));
      buckets := buckets[key := current.value];
      d := Decision(current.value.count <= limit, window - (now - current.value.startedAt));
    }
  }

  // ---------------------------------------------------------------- whole request sequences

  function Run(reqs: seq<Request>, limit: int, window: Time): (map<string, Bucket>, seq<Decision>) {
    if reqs == [] then (map[], [])
    else
      var (buckets, ds) := Run(reqs[..|reqs| - 1], limit, window);
      var (after, d) := Step(buckets, reqs[|reqs| - 1], limit, window);
      (after, ds + [d])
  }

  function SweptRun(reqs: seq<Request>, start: Time, limit: int, window: Time): (Swept, seq<Decision>) {
    if reqs == [] then (Swept(map[], start), [])
    else
      var (s, ds) := SweptRun(reqs[..|reqs| - 1], start, limit, window);
      var (after, d) := SweptStep(s, reqs[|reqs| - 1], limit, window);
      (after, ds + [d])
  }

  /** Requests take the lock in the order of their timestamps. */
  predicate InOrder(reqs: seq<Request>) { forall i, j :: 0 <= i < j < |reqs| ==> reqs[i].now <= reqs[j].now }

  // ---------------------------------------------------------------- sweeping is invisible

  // What sweeping dropped has expired by time `t`; what it kept is unchanged.
  ghost predicate Similar(swept: map<string, Bucket>, full: map<string, Bucket>, t: Time, window: Time) {
    && (forall k :: k in swept ==> k in full && swept[k] == full[k])
    && (forall k :: k in full && k !in swept ==> t - full[k].startedAt >= window)
  }

  lemma SimilarStep(s: Swept, full: map<string, Bucket>, r: Request, t: Time, limit: int, window: Time)
    requires Similar(s.buckets, full, t, window) && t <= r.now
    ensures var (s', d) := SweptStep(s, r, limit, window);
            var (full', e) := Step(full, r, limit, window);
            d == e && Similar(s'.buckets, full', r.now, window)
  {
  }

  /** Sweeping never changes an answer: on every request sequence in timestamp order the limiter
      decides exactly as one that never forgets a bucket. */
  lemma {:induction false} SweepingIsInvisible(reqs: seq<Request>, start: Time, limit: int, window: Time)
    requires InOrder(reqs)
    ensures SweptRun(reqs, start, limit, window).1 == Run(reqs, limit, window).1
    ensures forall t :: (reqs == [] || reqs[|reqs| - 1].now <= t) ==>
              Similar(SweptRun(reqs, start, limit, window).0.buckets, Run(reqs, limit, window).0, t, window)
  {
    if reqs != [] {
      var n := |reqs| - 1;
      SweepingIsInvisible(reqs[..n], start, limit, window);
      SimilarStep(SweptRun(reqs[..n], start, limit, window).0, Run(reqs[..n], limit, window).0, reqs[n], reqs[n].now,
                  limit, window);
    }
  }

  /** Timestamps are read before the lock is taken; if they arrive out of order, sweeping does
      show: the request that overtook has swept the bucket that should have denied this one. */
  lemma OutOfOrderCounterexample()
    ensures var reqs := [Request("a", 0), Request("b", 10), Request("a", 9)];
            SweptRun(reqs, 0, 1, 10).1 != Run(reqs, 1, 10).1
  {
    var a, b, c := Request("a", 0), Request("b", 10), Request("a", 9);
    var reqs := [a, b, c];
    assert reqs[..2] == [a, b] && [a, b][..1] == [a] && [a][..0] == [];
    assert Run([a], 1, 10).0 == map["a" := Bucket(0, 1)];
    assert Run([a, b], 1, 10).0 == map["a" := Bucket(0, 1), "b" := Bucket(10, 1)];
    assert SweptRun([a], 0, 1, 10).0 == Swept(map["a" := Bucket(0, 1)], 0);
    assert Sweep(map["a" := Bucket(0, 1)], 10, 10) == map[];
    assert SweptRun([a, b], 0, 1, 10).0 == Swept(map["b" := Bucket(10, 1)], 10);
    assert Run(reqs, 1, 10).1[2] == Decision(false, 1);
    assert SweptRun(reqs, 0, 1, 10).1[2] == Decision(true, 10);
  }

  /** Memory stays bounded: after every request each stored bucket started less than two windows
      before it. */
  lemma {:induction false} BucketsAreYoung(reqs: seq<Request>, start: Time, limit: int, window: Time)
    requires InOrder(reqs) && window > 0 && (forall r :: r in reqs ==> start <= r.now)
    ensures var s := SweptRun(reqs, start, limit, window).0;
            && start <= s.lastCleanup && (reqs == [] ==> s.buckets == map[])
            && (reqs != [] ==> s.lastCleanup <= reqs[|reqs| - 1].now < s.lastCleanup + window)
            && (forall k :: k in s.buckets ==> s.buckets[k].startedAt > s.lastCleanup - window)
            && (reqs != [] ==>
                  forall k :: k in s.buckets ==> reqs[|reqs| - 1].now - s.buckets[k].startedAt < 2 * window)
  {
    if reqs != [] {
      var n := |reqs| - 1;
      BucketsAreYoung(reqs[..n], start, limit, window);
      assert reqs[n] in reqs && forall r :: r in reqs[..n] ==> r in reqs;
      if n > 0 { assert reqs[..n][n - 1].now <= reqs[n].now; }
    }
  }

  // ---------------------------------------------------------------- the quota

  /** How many requests of `key` with a timestamp in [from, to) were let through. */
  function Admitted(reqs: seq<Request>, ds: seq<Decision>, key: string, from: Time, to: Time): nat
    requires |reqs| == |ds|
  {
    if reqs == [] then 0
    else
      var n := |reqs| - 1;
      Admitted(reqs[..n], ds[..n], key, from, to)
      + if reqs[n].key == key && from <= reqs[n].now < to && ds[n].allowed then 1 else 0
  }

  lemma {:induction false} RunLength(reqs: seq<Request>, limit: int, window: Time)
    ensures |Run(reqs, limit, window).1| == |reqs|
  {
    if reqs != [] { RunLength(reqs[..|reqs| - 1], limit, window); }
  }

  function Min(a: int, b: int): int { if a < b then a else b }

  // The quota used since `from`, for an interval that is still open.  A bucket that opened
  // before `from` spent one request on opening; a bucket that opened after `from` may follow
  // one such bucket.
  predicate Covered(n: nat, open: Option<Bucket>, from: Time, limit: int) {
    match open
    case None => n == 0
    case Some(b) =>
      n <= Min(b.count, limit) + if b.startedAt > from then limit - 1 else if b.startedAt == from then 0 else -1
  }

  function Open(buckets: map<string, Bucket>, key: string): Option<Bucket> {
    if key in buckets then Some(buckets[key]) else None
  }

  ghost predicate Charged(reqs: seq<Request>, key: string, from: Time, limit: int, window: Time) {
    var (buckets, ds) := Run(reqs, limit, window);
    |ds| == |reqs| && Covered(Admitted(reqs, ds, key, from, from + window), Open(buckets, key), from, limit)
  }

  // One more request of the key, before the interval ends.
  lemma CoveredStep(n: nat, buckets: map<string, Bucket>, r: Request, from: Time, limit: int, window: Time)
    requires window > 0 && limit > 0 && r.now < from + window
    requires Covered(n, Open(buckets, r.key), from, limit)
    requires r.key in buckets ==> buckets[r.key].count >= 1
    requires r.key in buckets && r.now - buckets[r.key].startedAt >= window && from >= r.now ==> n == 0
    ensures var (after, d) := Step(buckets, r, limit, window);
            Covered(n + if from <= r.now && d.allowed then 1 else 0, Open(after, r.key), from, limit)
  {
  }

  lemma {:induction false} LastSeen(reqs: seq<Request>, key: string, limit: int, window: Time)
    requires window > 0
    ensures var buckets := Run(reqs, limit, window).0;
            && (key !in buckets ==> forall r :: r in reqs ==> r.key != key)
            && (InOrder(reqs) && key in buckets ==>
                buckets[key].count >= 1
                && forall r :: r in reqs && r.key == key ==> r.now < buckets[key].startedAt + window)
  {
    if reqs != [] {
      var n := |reqs| - 1;
      LastSeen(reqs[..n], key, limit, window);
      assert reqs == reqs[..n] + [reqs[n]];
    }
  }

  lemma {:induction false} NoneAdmitted(reqs: seq<Request>, ds: seq<Decision>, key: string, from: Time, to: Time)
    requires |reqs| == |ds| && forall r :: r in reqs && r.key == key ==> r.now < from
    ensures Admitted(reqs, ds, key, from, to) == 0
  {
    if reqs != [] {
      assert reqs[|reqs| - 1] in reqs;
      NoneAdmitted(reqs[..|reqs| - 1], ds[..|reqs| - 1], key, from, to);
    }
  }

  lemma {:induction false} ChargedAlways(reqs: seq<Request>, key: string, from: Time, limit: int, window: Time)
    requires InOrder(reqs) && window > 0 && limit > 0
    requires reqs != [] ==> reqs[|reqs| - 1].now < from + window
    ensures Charged(reqs, key, from, limit, window)
  {
    if reqs != [] {
      hide Step, Covered;
      var n := |reqs| - 1;
      var r, pre := reqs[n], reqs[..n];
      if n > 0 { assert pre[n - 1] == reqs[n - 1]; }
      ChargedAlways(pre, key, from, limit, window);
      var (buckets, ds) := Run(pre, limit, window);
      assert Run(reqs, limit, window).1[..n] == ds;
      OtherKey(buckets, r, key, limit, window);
      if r.key == key {
        LastSeen(pre, key, limit, window);
        if key in buckets && r.now - buckets[key].startedAt >= window && from >= r.now {
          NoneAdmitted(pre, ds, key, from, from + window);
        }
        CoveredStep(Admitted(pre, ds, key, from, from + window), buckets, r, from, limit, window);
      }
    } else {
      assert Covered(0, None, from, limit);
    }
  }

  lemma OtherKey(buckets: map<string, Bucket>, r: Request, key: string, limit: int, window: Time)
    ensures r.key != key ==> Open(Step(buckets, r, limit, window).0, key) == Open(buckets, key)
  {
  }

  /** Sliding bound: for requests in timestamp order, no half-open interval one window long,
      wherever it starts, lets through more than twice the limit less one. */
  lemma {:induction false} SlidingBound(reqs: seq<Request>, key: string, from: Time, limit: int, window: Time)
    requires InOrder(reqs) && window > 0 && limit > 0
    ensures |Run(reqs, limit, window).1| == |reqs|
    ensures Admitted(reqs, Run(reqs, limit, window).1, key, from, from + window) <= 2 * limit - 1
  {
    RunLength(reqs, limit, window);
    if reqs != [] {
      var n := |reqs| - 1;
      if reqs[n].now < from + window {
        ChargedAlways(reqs, key, from, limit, window);
      } else {
        SlidingBound(reqs[..n], key, from, limit, window);
        assert Run(reqs, limit, window).1[..n] == Run(reqs[..n], limit, window).1;
      }
    }
  }

  /** The same of the limiter that sweeps, which is the one that runs. */
  lemma QuotaHolds(reqs: seq<Request>, start: Time, key: string, from: Time, limit: int, window: Time)
    requires InOrder(reqs) && window > 0 && limit > 0
    ensures |SweptRun(reqs, start, limit, window).1| == |reqs|
    ensures Admitted(reqs, SweptRun(reqs, start, limit, window).1, key, from, from + window) <= 2 * limit - 1
  {
    SweepingIsInvisible(reqs, start, limit, window);
    SlidingBound(reqs, key, from, limit, window);
  }

  /** A window that one bucket covers admits at most the limit itself. */
  lemma BucketAdmitsTheLimit(reqs: seq<Request>, key: string, limit: int, window: Time)
    requires InOrder(reqs) && window > 0 && limit > 0 && reqs != []
    requires key in Run(reqs, limit, window).0
    requires reqs[|reqs| - 1].now < Run(reqs, limit, window).0[key].startedAt + window
    ensures |Run(reqs, limit, window).1| == |reqs|
    ensures var s := Run(reqs, limit, window).0[key].startedAt;
            Admitted(reqs, Run(reqs, limit, window).1, key, s, s + window) <= limit
  {
    ChargedAlways(reqs, key, Run(reqs, limit, window).0[key].startedAt, limit, window);
  }

  function Repeat(r: Request, n: nat): seq<Request> { if n == 0 then [] else Repeat(r, n - 1) + [r] }

  lemma RepeatIs(r: Request, n: nat)
    ensures Repeat(r, n) == if n == 0 then [] else Repeat(r, n - 1) + [r]
  {
  }

  /** A burst into an open bucket that has room for it is let through. */
  lemma {:induction false} Burst(reqs: seq<Request>, r: Request, n: nat, from: Time, limit: int, window: Time)
    requires r.key in Run(reqs, limit, window).0
    requires var b := Run(reqs, limit, window).0[r.key]; r.now - b.startedAt < window && b.count + n <= limit
    requires from <= r.now < from + window
    ensures var all := reqs + Repeat(r, n);
            var b := Run(reqs, limit, window).0[r.key];
            && Run(all, limit, window).0 == Run(reqs, limit, window).0[r.key := Bucket(b.startedAt, b.count + n)]
            && |Run(all, limit, window).1| == |all| && |Run(reqs, limit, window).1| == |reqs|
            && Admitted(all, Run(all, limit, window).1, r.key, from, from + window)
               == Admitted(reqs, Run(reqs, limit, window).1, r.key, from, from + window) + n
  {
    hide Run, Admitted, Repeat;
    RunLength(reqs, limit, window);
    assert Repeat(r, n) == if n == 0 then [] else Repeat(r, n - 1) + [r] by { RepeatIs(r, n); }
    if n == 0 {
      assert reqs + [] == reqs;
      var b := Run(reqs, limit, window).0[r.key];
      assert Bucket(b.startedAt, b.count + n) == b;
    } else {
      var before := reqs + Repeat(r, n - 1);
      Burst(reqs, r, n - 1, from, limit, window);
      OneMore(before, r, from, limit, window);
      assert reqs + Repeat(r, n) == before + [r];
    }
  }

  lemma OneMore(reqs: seq<Request>, r: Request, from: Time, limit: int, window: Time)
    requires |Run(reqs, limit, window).1| == |reqs|
    ensures var (buckets, ds) := Run(reqs, limit, window);
            var (after, d) := Step(buckets, r, limit, window);
            && Run(reqs + [r], limit, window) == (after, ds + [d])
            && Admitted(reqs + [r], ds + [d], r.key, from, from + window)
               == Admitted(reqs, ds, r.key, from, from + window)
                  + if from <= r.now < from + window && d.allowed then 1 else 0
  {
    hide Step;
    assert (reqs + [r])[..|reqs|] == reqs;
    var ds := Run(reqs, limit, window).1;
    forall d: Decision ensures (ds + [d])[..|ds|] == ds { }
  }

  /** One request at 0, the rest of its quota at the end of its window, and a whole quota right after. */
  function Squeeze(limit: int, window: Time): seq<Request>
    requires limit >= 1
  {
    [Request("a", 0)] + Repeat(Request("a", window - 1), limit - 1) + [Request("a", window)]
      + Repeat(Request("a", window), limit - 1)
  }

  lemma {:induction false} RepeatIn(r: Request, n: nat)
    ensures |Repeat(r, n)| == n && forall i :: 0 <= i < n ==> Repeat(r, n)[i] == r
  {
    if n > 0 { RepeatIn(r, n - 1); }
  }

  /** The sliding bound is met for every limit and every window of two ticks or more: some requests in
      timestamp order are let through to exactly twice the limit less one within one window length. */
  lemma SlidingBoundIsTight(limit: int, window: Time)
    requires limit >= 1 && window >= 2
    ensures var reqs := Squeeze(limit, window);
            && InOrder(reqs) && |Run(reqs, limit, window).1| == |reqs|
            && Admitted(reqs, Run(reqs, limit, window).1, "a", 1, 1 + window) == 2 * limit - 1
  {
    hide Run, Admitted;
    var r1, r2 := Request("a", window - 1), Request("a", window);
    RepeatIn(r1, limit - 1);
    RepeatIn(r2, limit - 1);
    OpensEmpty(limit, window);
    var first := [Request("a", 0)];
    Burst(first, r1, limit - 1, 1, limit, window);
    var second := first + Repeat(r1, limit - 1);
    OneMore(second, r2, 1, limit, window);
    Burst(second + [r2], r2, limit - 1, 1, limit, window);
  }

  lemma OpensEmpty(limit: int, window: Time)
    requires limit >= 1
    ensures var reqs := [Request("a", 0)];
            && Run(reqs, limit, window).0 == map["a" := Bucket(0, 1)] && |Run(reqs, limit, window).1| == 1
            && Admitted(reqs, Run(reqs, limit, window).1, "a", 1, 1 + window) == 0
  {
    assert [Request("a", 0)][..0] == [];
  }

  // ---------------------------------------------------------------- Retry-After

  /** The header: whole seconds, rounded down and one added. */
  function RetryAfterSeconds(d: Decision): int { d.retryAfter / SECOND + 1 }

  /** A denied client that waits as told has left the window that denied it: its next request
      opens a fresh bucket and is let through. */
  lemma WaitingLeavesTheWindow(buckets: map<string, Bucket>, r: Request, later: Request, limit: int, window: Time)
    requires window > 0 && limit > 0 && later.key == r.key
    requires r.key in buckets ==> buckets[r.key].startedAt <= r.now
    requires var (_, d) := Step(buckets, r, limit, window);
             !d.allowed && later.now >= r.now + RetryAfterSeconds(d) * SECOND
    ensures var (after, d) := Step(buckets, r, limit, window);
            && 0 < d.retryAfter <= window && RetryAfterSeconds(d) >= 1
            && Current(after, later.key, later.now, window) == Bucket(later.now, 1)
            && Step(after, later, limit, window).1.allowed
  {
    var (_, d) := Step(buckets, r, limit, window);
    assert d.retryAfter / SECOND * SECOND + d.retryAfter % SECOND == d.retryAfter;
  }

  /** And the wait is exact: of a denied client's later requests, with none of its own in between, those that
      come after it are let through and those that come earlier are denied. */
  lemma WaitIsExact(buckets: map<string, Bucket>, r: Request, later: Request, limit: int, window: Time)
    requires limit > 0 && later.key == r.key && !Step(buckets, r, limit, window).1.allowed
    ensures var (after, d) := Step(buckets, r, limit, window);
            Step(after, later, limit, window).1.allowed <==> later.now >= r.now + d.retryAfter
  {
  }
}
