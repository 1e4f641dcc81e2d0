/** What each transaction on a filing needs and does, in terms of the rows, the clock and the provider's
  * answer; and what no run can do.
  */
module FilingEffects {
  import opened Wrappers
  import opened FilingSubmission
  import opened FilingSafety

  // ---------------------------------------------------------------- the lease

  /** The row is in work by this worker, and its lease runs at least until `until`. */
  predicate InWork(db: Db, s: SubmissionId, worker: WorkerId, until: Time) {
    && s in db.outbox && db.outbox[s].status == PROCESSING && db.outbox[s].lockedBy == worker
    && db.outbox[s].lockedUntil.Some? && until <= db.outbox[s].lockedUntil.value
  }

  /** Exactly which rows are handed out: those of a filing being submitted that are due, or whose lease
      has run out; and the taker then holds them for the length of its lease. */
  lemma TakenIff(w: World, worker: WorkerId, s: SubmissionId, now: Time, lease: Time)
    requires worker !in w.hand
    ensures worker in Do(w, Take(worker, s, now, lease)).hand <==>
      && s in w.db.outbox && w.db.outbox[s].filing in w.db.filings
      && w.db.filings[w.db.outbox[s].filing].status == SUBMITTING
      && var o := w.db.outbox[s];
         || (o.status == PENDING && (o.nextRetryAt == None || o.nextRetryAt.value <= now))
         || (o.status == PROCESSING && o.lockedUntil.Some? && o.lockedUntil.value < now)
    ensures var v := Do(w, Take(worker, s, now, lease));
            if worker in v.hand then v.hand[worker].submission == s && InWork(v.db, s, worker, now + lease) else v == w
  {
  }

  /** Nobody claims a row whose lease has not run out: asking changes nothing at all. */
  lemma LeaseExcludes(w: World, s: SubmissionId, worker: WorkerId, other: WorkerId, now: Time, lease: Time)
    requires InWork(w.db, s, worker, now)
    ensures Do(w, Take(other, s, now, lease)) == w
  {
  }

  /** While the lease runs only its holder's own settlement can change the row. */
  lemma OnlyTheHolder(w: World, step: Step, s: SubmissionId, worker: WorkerId, until: Time)
    requires Inv(w) && InWork(w.db, s, worker, until) && w.db.outbox[s].lockedUntil == Some(until)
    requires step.Take? ==> step.now <= until
    requires !((step.Complete? || step.Fail?) && step.worker == worker && step.now <= until)
    ensures s in Do(w, step).db.outbox && Do(w, step).db.outbox[s] == w.db.outbox[s]
  {
    hide DbInv, Matches, ReceiptTaken;
  }

  predicate SettlesInTime(w: World, steps: seq<Step>, s: SubmissionId, worker: WorkerId, until: Time, i: nat) {
    && i < |steps| && (steps[i].Complete? || steps[i].Fail?) && steps[i].worker == worker && steps[i].now <= until
    && s in w.db.outbox && s in DoAll(w, steps[..i]).db.outbox
    && DoAll(w, steps[..i]).db.outbox[s] == w.db.outbox[s]
  }

  /** Over every run in which nobody looks for expired work after the end of the lease, the row stays as
      it is until its holder completes or fails it within the lease. */
  lemma {:induction false} UntouchedUntilSettled(w: World, steps: seq<Step>, s: SubmissionId, worker: WorkerId,
                                                  until: Time)
    requires Inv(w) && InWork(w.db, s, worker, until) && w.db.outbox[s].lockedUntil == Some(until)
    requires forall t :: t in steps && t.Take? ==> t.now <= until
    ensures || (s in DoAll(w, steps).db.outbox && DoAll(w, steps).db.outbox[s] == w.db.outbox[s])
            || exists i :: 0 <= i < |steps| && SettlesInTime(w, steps, s, worker, until, i)
  {
    hide Inv, Do;
    if steps != [] {
      var n := |steps| - 1;
      assert forall t :: t in steps[..n] ==> t in steps;
      UntouchedUntilSettled(w, steps[..n], s, worker, until);
      var v := DoAll(w, steps[..n]);
      InvFrom(w, steps[..n]);
      if i :| 0 <= i < n && SettlesInTime(w, steps[..n], s, worker, until, i) {
        assert steps[..n][..i] == steps[..i];
        assert SettlesInTime(w, steps, s, worker, until, i);
      } else if (steps[n].Complete? || steps[n].Fail?) && steps[n].worker == worker && steps[n].now <= until {
        assert SettlesInTime(w, steps, s, worker, until, n);
      } else {
        assert steps[n] in steps;
        OnlyTheHolder(v, steps[n], s, worker, until);
      }
    }
  }

  lemma {:induction false} InvFrom(w: World, steps: seq<Step>)
    requires Inv(w)
    ensures Inv(DoAll(w, steps))
  {
    hide Inv, Do;
    if steps != [] {
      InvFrom(w, steps[..|steps| - 1]);
      FilingSafety.StepKeeps(DoAll(w, steps[..|steps| - 1]), steps[|steps| - 1]);
    }
  }

  // ---------------------------------------------------------------- completing

  /** Some submission already has the authority's receipt of this number. */
  predicate Known(db: Db, r: Receipt) {
    exists s :: s in db.receipts && db.receipts[s].id == r.id && db.receipts[s].authority == r.authority
  }

  /** Exactly when a completion of a row that is not SENT yet goes through, and what it then leaves. */
  lemma CompletedIff(db: Db, worker: WorkerId, c: Held, r: Receipt, now: Time)
    requires c.submission in db.outbox && db.outbox[c.submission].status != SENT
    ensures var (after, err) := CompleteSpec(db, worker, c, r, now);
            var s, o := c.submission, db.outbox[c.submission];
            && (err == None <==>
                  && o.filing == c.row.filing && InWork(db, s, worker, now)
                  && o.filing in db.filings && db.filings[o.filing].status == SUBMITTING
                  && s !in db.receipts && !Known(db, r))
            && (err != None ==> after == db)
            && (err == None ==>
                  && after.receipts == db.receipts[s := r]
                  && after.filings == db.filings[o.filing := Filing(SUBMITTED, db.filings[o.filing].version + 1)]
                  && after.outbox.Keys == db.outbox.Keys && (forall t :: t in db.outbox && t != s ==>
                      after.outbox[t] == db.outbox[t])
                  && after.outbox[s]
                     == Outbox(o.filing, SENT, o.retryCount, None, "", None, o.createdAt))
  {
    assert Known(db, r) <==> ReceiptTaken(db, r);
  }

  /** What the provider must have sent back, when the row was created and it is now. */
  predicate Acceptable(r: Receipt, createdAt: Time, now: Time) {
    r.id != "" && r.authority != "" && r.receivedAt >= createdAt - 300 && r.receivedAt <= now + 300
  }

  /** The claim's submission is still the last of its filing, which is still being submitted. */
  predicate Current(db: Db, c: Held) {
    && c.submission in db.outbox && db.outbox[c.submission].filing in db.snapshots
    && (var ss := db.snapshots[db.outbox[c.submission].filing]; ss != [] && ss[|ss| - 1] == c.submission)
    && c.row.filing in db.filings && db.filings[c.row.filing].status == SUBMITTING
  }

  /** Exactly when the worker's dispatch of a claim makes its row SENT: the lease has more than a second
      to run, the submission is current and was loaded, the provider's receipt is acceptable, was
      encrypted and is nobody else's, and the lease still runs at the end.  A dispatch that comes too
      late does nothing; any other failure is counted against the row if the worker still holds it. */
  lemma DispatchSendsIff(db: Db, worker: WorkerId, c: Held, a: Answer, now: Time, done: Time)
    requires c.submission in db.outbox && db.outbox[c.submission].status != SENT
    requires db.outbox[c.submission].filing == c.row.filing
    ensures var (after, err) := DispatchSpec(db, worker, c, a, now, done);
            var s := c.submission;
            && s in after.outbox
            && (after.outbox[s].status == SENT <==>
                  && c.row.lockedUntil.Some? && c.row.lockedUntil.value > now + 1
                  && a.loaded && Current(db, c)
                  && a.receipt.Some? && Acceptable(a.receipt.value, c.row.createdAt, done) && a.encrypted
                  && InWork(db, s, worker, done) && s !in db.receipts && !Known(db, a.receipt.value))
            && (after.outbox[s].status == SENT ==> after.receipts == db.receipts[s := a.receipt.value])
            && (after.outbox[s].status != SENT ==> after.receipts == db.receipts)
            && (c.row.lockedUntil == None || c.row.lockedUntil.value <= now + 1 ==> after == db && err != None)
  {
    hide ReceiptTaken, Known;
    if a.receipt.Some? { CompletedIff(db, worker, c, a.receipt.value, done); }
  }

  /** A dispatch that is in time but gets nothing acceptable back counts one failure against the row. */
  lemma DispatchFails(w: World, worker: WorkerId, a: Answer, now: Time, done: Time)
    requires Inv(w) && worker in w.hand && InWork(w.db, w.hand[worker].submission, worker, done)
    requires var c := w.hand[worker];
             && c.row.lockedUntil.Some? && c.row.lockedUntil.value > now + 1
             && !(a.loaded && Current(w.db, c) && a.receipt.Some? && a.encrypted
                  && Acceptable(a.receipt.value, c.row.createdAt, done))
    ensures FailedOnce(w.db, DispatchSpec(w.db, worker, w.hand[worker], a, now, done).0, w.hand[worker].submission,
                       done)
  {
    hide Inv, WorkerFail, CompleteSpec, FailedOnce;
    FailureSchedule(w, worker, done);
    assert Current(w.db, w.hand[worker]) <==> Loadable(w.db, w.hand[worker]);
    assert Do(w, Fail(worker, done)).db == WorkerFail(w.db, worker, w.hand[worker], done).0;
  }

  // ---------------------------------------------------------------- activation

  /** Exactly which submissions are activated: the last ones of waiting filings; they are due at once. */
  lemma ActivatedIff(db: Db, s: SubmissionId, now: Time)
    ensures var after := ActivateOne(db, s, now);
            && (after != db <==>
                  && s in db.outbox && db.outbox[s].status == WAITING_CONTRACT
                  && var f := db.outbox[s].filing;
                     && f in db.filings && db.filings[f].status == WAITING
                     && f in db.snapshots && db.snapshots[f] != [] && db.snapshots[f][|db.snapshots[f]| - 1] == s)
            && (after != db ==>
                  && var o := db.outbox[s];
                     && s in after.outbox && after.outbox[s] == o.(status := PENDING, nextRetryAt := Some(now))
                     && o.filing in after.filings
                     && after.filings[o.filing] == Filing(SUBMITTING, db.filings[o.filing].version + 1))
  {
    if Activatable(db, s) { assert ActivateOne(db, s, now).outbox[s].status == PENDING; }
  }

  // ---------------------------------------------------------------- over whole runs

  /** No two submissions ever have the same receipt of the same authority. */
  predicate Unshared(db: Db) {
    forall s, t :: s in db.receipts && t in db.receipts && s != t ==>
      db.receipts[s].id != db.receipts[t].id || db.receipts[s].authority != db.receipts[t].authority
  }

  lemma {:induction false} ReceiptsAreUnshared(w: World, steps: seq<Step>)
    requires Initial(w)
    ensures Unshared(DoAll(w, steps).db)
  {
    hide Do;
    if steps != [] {
      ReceiptsAreUnshared(w, steps[..|steps| - 1]);
      UnsharedStep(DoAll(w, steps[..|steps| - 1]), steps[|steps| - 1]);
    }
  }

  lemma UnsharedStep(w: World, step: Step)
    requires Unshared(w.db)
    ensures Unshared(Do(w, step).db)
  {
    hide Fenced, Claimable, IsLatest;
  }

  /** A receipt, once stored, stays; and the version of a filing counts its changes of status, one by one. */
  predicate Grows(db: Db, db': Db) {
    && (forall s :: s in db.receipts ==> s in db'.receipts && db'.receipts[s] == db.receipts[s])
    && (forall f :: f in db.filings ==>
          && f in db'.filings
          && (db'.filings[f].status == db.filings[f].status <==> db'.filings[f] == db.filings[f])
          && (db'.filings[f] != db.filings[f] ==> db'.filings[f].version == db.filings[f].version + 1))
  }

  lemma StepGrows(w: World, step: Step)
    ensures Grows(w.db, Do(w, step).db)
  {
    hide Claimable, IsLatest, ReceiptTaken;
  }
}
