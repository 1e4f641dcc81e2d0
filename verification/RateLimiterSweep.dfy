/** Exactly when sweeping expired buckets shows: timestamps are read before the lock is taken, so a
  * request can arrive behind one that was stamped later and has already swept.
  */
module RateLimiterSweep {
  import opened RateLimiter

  /** The buckets, which do not depend on the limit: without sweeping and with it. */
  function Full(reqs: seq<Request>, window: Time): map<string, Bucket> { Run(reqs, 1, window).0 }

  function Kept(reqs: seq<Request>, start: Time, window: Time): map<string, Bucket> {
    SweptRun(reqs, start, 1, window).0.buckets
  }

  lemma {:induction false} BucketsIgnoreLimit(reqs: seq<Request>, start: Time, limit: int, window: Time)
    ensures Run(reqs, limit, window).0 == Full(reqs, window)
    ensures SweptRun(reqs, start, limit, window).0 == SweptRun(reqs, start, 1, window).0
  {
    if reqs != [] { BucketsIgnoreLimit(reqs[..|reqs| - 1], start, limit, window); }
  }

  /** Request i belongs into a bucket that is still open, but the bucket has been swept. */
  predicate Missed(reqs: seq<Request>, i: nat, start: Time, window: Time) {
    && i < |reqs| && reqs[i].key in Full(reqs[..i], window)
    && reqs[i].now - Full(reqs[..i], window)[reqs[i].key].startedAt < window
    && reqs[i].key !in Kept(reqs[..i], start, window)
  }

  lemma MissedPrefix(reqs: seq<Request>, n: nat, i: nat, start: Time, window: Time)
    requires i < n <= |reqs|
    ensures Missed(reqs[..n], i, start, window) <==> Missed(reqs, i, start, window)
  {
    assert reqs[..n][..i] == reqs[..i];
  }

  predicate SubMap(a: map<string, Bucket>, b: map<string, Bucket>) { forall k :: k in a ==> k in b && a[k] == b[k] }

  lemma AgreeStep(s: Swept, full: map<string, Bucket>, r: Request, limit: int, window: Time)
    requires SubMap(s.buckets, full)
    requires r.key in full && r.now - full[r.key].startedAt < window ==> r.key in s.buckets
    ensures SweptStep(s, r, limit, window).1 == Step(full, r, limit, window).1
    ensures SubMap(SweptStep(s, r, limit, window).0.buckets, Step(full, r, limit, window).0)
  {
  }

  /** Where no request misses its bucket the sweeping limiter decides as the other, and what it keeps
      is unchanged. */
  lemma {:induction false} Agree(reqs: seq<Request>, start: Time, limit: int, window: Time)
    requires forall i :: 0 <= i < |reqs| ==> !Missed(reqs, i, start, window)
    ensures SweptRun(reqs, start, limit, window).1 == Run(reqs, limit, window).1
    ensures SubMap(Kept(reqs, start, window), Full(reqs, window))
  {
    hide SweptStep, Step, SubMap;
    if reqs == [] {
      assert SubMap(map[], map[]) by { Nothing(); }
    } else {
      var n := |reqs| - 1;
      forall i | 0 <= i < n ensures !Missed(reqs[..n], i, start, window) { MissedPrefix(reqs, n, i, start, window); }
      Agree(reqs[..n], start, limit, window);
      BucketsIgnoreLimit(reqs[..n], start, limit, window);
      BucketsIgnoreLimit(reqs, start, limit, window);
      assert !Missed(reqs, n, start, window);
      AgreeStep(SweptRun(reqs[..n], start, limit, window).0, Full(reqs[..n], window), reqs[n], limit, window);
    }
  }

  lemma Nothing()
    ensures SubMap(map[], map[])
  {
  }

  lemma {:induction false} CountsPositive(reqs: seq<Request>, window: Time, k: string)
    requires k in Full(reqs, window)
    ensures Full(reqs, window)[k].count >= 1
  {
    var n := |reqs| - 1;
    if reqs != [] && k in Full(reqs[..n], window) { CountsPositive(reqs[..n], window, k); }
  }

  lemma {:induction false} DecisionAt(reqs: seq<Request>, i: nat, start: Time, window: Time)
    requires i < |reqs|
    ensures |Run(reqs, 1, window).1| == |SweptRun(reqs, start, 1, window).1| == |reqs|
    ensures Run(reqs, 1, window).1[i] == Step(Full(reqs[..i], window), reqs[i], 1, window).1
    ensures SweptRun(reqs, start, 1, window).1[i]
            == SweptStep(SweptRun(reqs[..i], start, 1, window).0, reqs[i], 1, window).1
  {
    hide Step, SweptStep;
    var n := |reqs| - 1;
    if i < n {
      DecisionAt(reqs[..n], i, start, window);
      assert reqs[..n][..i] == reqs[..i];
    } else if n > 0 {
      DecisionAt(reqs[..n], n - 1, start, window);
    }
  }

  /** A request that misses its bucket is let through with limit 1, where the other limiter denies it. */
  lemma Differ(reqs: seq<Request>, i: nat, start: Time, window: Time)
    requires Missed(reqs, i, start, window)
    ensures SweptRun(reqs, start, 1, window).1 != Run(reqs, 1, window).1
  {
    DecisionAt(reqs, i, start, window);
    CountsPositive(reqs[..i], window, reqs[i].key);
    var s := SweptRun(reqs[..i], start, 1, window).0;
    assert !Run(reqs, 1, window).1[i].allowed;
    assert SweptStep(s, reqs[i], 1, window).1.allowed;
  }

  /** Exactly when sweeping is invisible, on any request sequence in any order: the two limiters agree
      for every limit - and they already do if they agree for limit 1 - if and only if no request
      misses its bucket. */
  lemma SweepingShows(reqs: seq<Request>, start: Time, window: Time)
    ensures (forall limit :: SweptRun(reqs, start, limit, window).1 == Run(reqs, limit, window).1)
        <==> forall i :: 0 <= i < |reqs| ==> !Missed(reqs, i, start, window)
    ensures SweptRun(reqs, start, 1, window).1 == Run(reqs, 1, window).1
        <==> forall i :: 0 <= i < |reqs| ==> !Missed(reqs, i, start, window)
  {
    hide Missed, Run, SweptRun;
    if forall i :: 0 <= i < |reqs| ==> !Missed(reqs, i, start, window) {
      forall limit ensures SweptRun(reqs, start, limit, window).1 == Run(reqs, limit, window).1 {
        Agree(reqs, start, limit, window);
      }
    } else {
      var i :| 0 <= i < |reqs| && Missed(reqs, i, start, window);
      Differ(reqs, i, start, window);
    }
  }

  // ---------------------------------------------------------------- in terms of the timestamps

  /** When the buckets were last swept. */
  function LastSweep(reqs: seq<Request>, start: Time, window: Time): Time {
    if reqs == [] then start
    else
      var last := LastSweep(reqs[..|reqs| - 1], start, window);
      if reqs[|reqs| - 1].now - last >= window then reqs[|reqs| - 1].now else last
  }

  predicate Due(reqs: seq<Request>, j: nat, start: Time, window: Time) {
    j < |reqs| && reqs[j].now - LastSweep(reqs[..j], start, window) >= window
  }

  /** Request i was overtaken by the end of its bucket's window: j took the lock before i, was due for a
      sweep and stamped at or after the end of the window that i is stamped within. */
  predicate Overtaken(reqs: seq<Request>, i: nat, j: nat, start: Time, window: Time) {
    && j < i < |reqs| && Due(reqs, j, start, window)
    && var k := reqs[i].key;
       && k in Full(reqs[..j], window) && k in Full(reqs[..i], window)
       && var first := Full(reqs[..i], window)[k].startedAt;
          Full(reqs[..j], window)[k].startedAt == first && reqs[i].now < first + window <= reqs[j].now
  }

  lemma {:induction false} LastSweepIs(reqs: seq<Request>, start: Time, window: Time)
    ensures SweptRun(reqs, start, 1, window).0.lastCleanup == LastSweep(reqs, start, window)
  {
    hide Step, Sweep;
    if reqs != [] { LastSweepIs(reqs[..|reqs| - 1], start, window); }
  }

  // Bucket k after request n - 1, given what it was before.
  lemma OneRequest(reqs: seq<Request>, n: nat, start: Time, window: Time, k: string)
    requires 0 < n <= |reqs|
    ensures var r, before, after := reqs[n - 1], Full(reqs[..n - 1], window), Full(reqs[..n], window);
            && (k in before ==> k in after)
            && (r.key != k ==> (k in after <==> k in before) && (k in before ==> after[k] == before[k]))
            && (r.key == k && k in before ==>
                  after[k].startedAt == if r.now - before[k].startedAt < window then before[k].startedAt else r.now)
    ensures var r, before, after := reqs[n - 1], Kept(reqs[..n - 1], start, window), Kept(reqs[..n], start, window);
            && (r.key == k ==> k in after)
            && (r.key != k ==> (k in after <==>
                  k in before && (Due(reqs, n - 1, start, window) ==> r.now - before[k].startedAt < window)))
  {
    assert reqs[..n][..n - 1] == reqs[..n - 1];
    LastSweepIs(reqs[..n - 1], start, window);
  }

  // Windows of a key only move forward.
  lemma {:induction false} OpensLater(reqs: seq<Request>, m: nat, n: nat, start: Time, window: Time, k: string)
    requires m <= n <= |reqs| && window > 0 && k in Full(reqs[..m], window)
    ensures k in Full(reqs[..n], window)
    ensures Full(reqs[..m], window)[k].startedAt <= Full(reqs[..n], window)[k].startedAt
  {
    hide Run, SweptRun;
    if m < n {
      OpensLater(reqs, m, n - 1, start, window, k);
      OneRequest(reqs, n, start, window, k);
    }
  }

  predicate NoneMissed(reqs: seq<Request>, n: nat, start: Time, window: Time) {
    forall i :: 0 <= i < n ==> !Missed(reqs, i, start, window)
  }

  lemma KeptIsFull(reqs: seq<Request>, n: nat, start: Time, window: Time)
    requires n <= |reqs| && NoneMissed(reqs, n, start, window)
    ensures SubMap(Kept(reqs[..n], start, window), Full(reqs[..n], window))
  {
    hide Run, SweptRun, SubMap, Missed;
    forall i | 0 <= i < n ensures !Missed(reqs[..n], i, start, window) { MissedPrefix(reqs, n, i, start, window); }
    Agree(reqs[..n], start, 1, window);
  }

  /** Until the first miss, a bucket is only gone because a due request found it expired. */
  lemma {:induction false} WhySwept(reqs: seq<Request>, n: nat, start: Time, window: Time, k: string) returns (j: nat)
    requires n <= |reqs| && NoneMissed(reqs, n, start, window)
    requires k in Full(reqs[..n], window) && k !in Kept(reqs[..n], start, window)
    ensures j < n && Due(reqs, j, start, window) && k in Full(reqs[..j], window)
    ensures Full(reqs[..j], window)[k].startedAt == Full(reqs[..n], window)[k].startedAt
    ensures Full(reqs[..n], window)[k].startedAt + window <= reqs[j].now
  {
    hide Run, SweptRun, Due, Missed;
    j := 0;
    if n == 0 {
      assert reqs[..0] == [];
      NothingYet(window);
    } else {
      OneRequest(reqs, n, start, window, k);
      if k !in Kept(reqs[..n - 1], start, window) {
        j := WhySwept(reqs, n - 1, start, window, k);
      } else {
        KeptIsFull(reqs, n - 1, start, window);
        j := n - 1;
      }
    }
  }

  lemma NothingYet(window: Time)
    ensures Full([], window) == map[]
  {
  }

  /** After an overtaking sweep the bucket stays lost until a request misses it. */
  lemma {:induction false} StaysLost(reqs: seq<Request>, i: nat, j: nat, m: nat, start: Time, window: Time)
    requires window > 0 && Overtaken(reqs, i, j, start, window) && j < m <= i && NoneMissed(reqs, m, start, window)
    ensures reqs[i].key !in Kept(reqs[..m], start, window) && reqs[i].key in Full(reqs[..m], window)
    ensures Full(reqs[..m], window)[reqs[i].key].startedAt == Full(reqs[..i], window)[reqs[i].key].startedAt
  {
    hide Run, SweptRun, Due;
    var k := reqs[i].key;
    OneRequest(reqs, m, start, window, k);
    if m - 1 > j {
      StaysLost(reqs, i, j, m - 1, start, window);
      assert !Missed(reqs, m - 1, start, window);
    } else {
      KeptIsFull(reqs, j, start, window);
    }
    OpensLater(reqs, m, i, start, window, k);
  }

  lemma {:induction false} FirstMissed(reqs: seq<Request>, i: nat, start: Time, window: Time) returns (k: nat)
    requires Missed(reqs, i, start, window)
    ensures Missed(reqs, k, start, window) && NoneMissed(reqs, k, start, window)
  {
    hide Missed;
    if j :| 0 <= j < i && Missed(reqs, j, start, window) {
      k := FirstMissed(reqs, j, start, window);
    } else {
      k := i;
    }
  }

  /** Exactly when sweeping is invisible, by the timestamps alone: no request takes the lock behind one
      that was due to sweep, was stamped after the end of the bucket's window, and found the bucket
      that this one is still stamped within. */
  lemma SweepingShowsOnlyOvertaken(reqs: seq<Request>, start: Time, window: Time)
    requires window > 0
    ensures (forall limit :: SweptRun(reqs, start, limit, window).1 == Run(reqs, limit, window).1)
        <==> forall i, j :: 0 <= j < i < |reqs| ==> !Overtaken(reqs, i, j, start, window)
  {
    hide Run, SweptRun, Missed, Overtaken;
    SweepingShows(reqs, start, window);
    if i, j :| 0 <= j < i < |reqs| && Overtaken(reqs, i, j, start, window) {
      OvertakenMisses(reqs, i, j, start, window);
    }
    if i :| 0 <= i < |reqs| && Missed(reqs, i, start, window) {
      MissedIsOvertaken(reqs, i, start, window);
    }
  }

  lemma OvertakenMisses(reqs: seq<Request>, i: nat, j: nat, start: Time, window: Time)
    requires window > 0 && Overtaken(reqs, i, j, start, window)
    ensures exists m :: 0 <= m < |reqs| && Missed(reqs, m, start, window)
  {
    hide Run, SweptRun, Due;
    if NoneMissed(reqs, i, start, window) {
      StaysLost(reqs, i, j, i, start, window);
      assert Missed(reqs, i, start, window);
    }
  }

  lemma MissedIsOvertaken(reqs: seq<Request>, i: nat, start: Time, window: Time)
    requires Missed(reqs, i, start, window)
    ensures exists n, j :: 0 <= j < n < |reqs| && Overtaken(reqs, n, j, start, window)
  {
    hide Run, SweptRun, Due;
    var n := FirstMissed(reqs, i, start, window);
    var j := WhySwept(reqs, n, start, window, reqs[n].key);
    assert Overtaken(reqs, n, j, start, window);
  }

  /** In timestamp order nobody is overtaken. */
  lemma InOrderNobodyOvertaken(reqs: seq<Request>, i: nat, j: nat, start: Time, window: Time)
    requires InOrder(reqs)
    ensures !Overtaken(reqs, i, j, start, window)
  {
    hide Run, SweptRun;
  }
}
