/** The filing, its latest outbox row and the receipt stay in step over every interleaving. */
module FilingSafety {
  import opened Wrappers
  import opened FilingSubmission

  // A change confined to the row of one filing's latest submission, to that filing and to that
  // row's receipt.
  ghost predicate Confined(db: Db, db': Db, s: SubmissionId) {
    && IsLatest(db, s) && s in db'.outbox && db.outbox[s].filing in db.filings && db.outbox[s].filing in db'.filings
    && db'.snapshots == db.snapshots
    && db'.outbox == db.outbox[s := db'.outbox[s]] && db'.outbox[s].filing == db.outbox[s].filing
    && db'.filings == db.filings[db.outbox[s].filing := db'.filings[db.outbox[s].filing]]
    && (forall t :: t != s ==> (t in db'.receipts <==> t in db.receipts))
  }

  ghost predicate Settles(db': Db, s: SubmissionId) {
    && s in db'.outbox && db'.outbox[s].filing in db'.filings
    && var o := db'.outbox[s];
       && Matches(db'.filings[o.filing].status, o.status)
       && (o.status == SENT <==> s in db'.receipts)
       && (if o.status == DEAD_LETTER then o.retryCount == MAX_ATTEMPTS else o.retryCount < MAX_ATTEMPTS)
       && (o.status == PROCESSING ==> o.lockedUntil.Some?)
  }

  lemma ConfinedFiling(db: Db, db': Db, s: SubmissionId, f: FilingId)
    requires DbInv(db) && Confined(db, db', s) && Settles(db', s) && f in db'.filings
    ensures f in db'.snapshots && FilingInv(db', f)
  {
    hide DbInv, Matches, RowInv;
    FilingOf(db, f);
    if f != db.outbox[s].filing {
      forall i | 0 <= i < |db.snapshots[f]| ensures db.snapshots[f][i] != s {
        assert db.outbox[db.snapshots[f][i]].filing == f;
      }
    }
  }

  lemma ConfinedRow(db: Db, db': Db, s: SubmissionId, t: SubmissionId)
    requires DbInv(db) && Confined(db, db', s) && Settles(db', s) && t in db'.outbox
    ensures RowInv(db', t)
  {
    hide DbInv, Matches, FilingInv;
    RowOf(db, t);
    RowOf(db, s);
  }

  lemma ConfinedKeeps(db: Db, db': Db, s: SubmissionId)
    requires DbInv(db) && Confined(db, db', s) && Settles(db', s)
    ensures DbInv(db')
  {
    hide FilingInv, RowInv, Matches;
    forall f | f in db'.filings ensures FilingInv(db', f) { ConfinedFiling(db, db', s, f); }
    forall t | t in db'.outbox ensures RowInv(db', t) { ConfinedRow(db, db', s, t); }
    forall t | t in db'.receipts ensures t in db'.outbox { if t != s { assert t in db.receipts; } }
  }

  /** A row in flight is the latest submission of a filing that is SUBMITTING, so loading its
      snapshot never meets a superseded one. */
  lemma InFlightIsLatest(db: Db, s: SubmissionId)
    requires DbInv(db) && s in db.outbox && !Over(db.outbox[s].status)
    ensures IsLatest(db, s) && db.outbox[s].filing in db.filings
    ensures db.outbox[s].status == WAITING_CONTRACT <==> db.filings[db.outbox[s].filing].status == WAITING
    ensures db.outbox[s].status != WAITING_CONTRACT <==> db.filings[db.outbox[s].filing].status == SUBMITTING
  {
    hide DbInv;
    RowOf(db, s);
    var f := db.outbox[s].filing;
    SnapshotsAreFilings(db, f);
    FilingOf(db, f);
    var i :| 0 <= i < |db.snapshots[f]| && db.snapshots[f][i] == s;
  }

  lemma RowFacts(db: Db, s: SubmissionId)
    requires DbInv(db) && s in db.outbox
    ensures db.outbox[s].status == SENT <==> s in db.receipts
    ensures db.outbox[s].status != DEAD_LETTER ==> db.outbox[s].retryCount < MAX_ATTEMPTS
  {
    hide DbInv, FilingInv;
    RowOf(db, s);
  }

  lemma CompleteKeeps(db: Db, worker: WorkerId, c: Held, r: Receipt, now: Time)
    requires DbInv(db)
    ensures DbInv(CompleteSpec(db, worker, c, r, now).0)
  {
    hide DbInv, ReceiptTaken;
    var db' := CompleteSpec(db, worker, c, r, now).0;
    if db' != db {
      RowFacts(db, c.submission);
      InFlightIsLatest(db, c.submission);
      ConfinedKeeps(db, db', c.submission);
    }
  }

  lemma FailKeeps(db: Db, worker: WorkerId, c: Held, now: Time)
    requires DbInv(db) && HandInv(db, worker, c)
    ensures DbInv(WorkerFail(db, worker, c, now).0)
  {
    hide DbInv;
    var db' := WorkerFail(db, worker, c, now).0;
    if db' != db {
      RowFacts(db, c.submission);
      InFlightIsLatest(db, c.submission);
      ConfinedKeeps(db, db', c.submission);
    }
  }

  lemma TakeKeeps(db: Db, worker: WorkerId, s: SubmissionId, now: Time, until: Time)
    requires DbInv(db) && Claimable(db, s, now)
    ensures DbInv(db.(outbox := db.outbox[s := Claimed(db.outbox[s], worker, until)]))
  {
    hide DbInv;
    var db' := db.(outbox := db.outbox[s := Claimed(db.outbox[s], worker, until)]);
    RowFacts(db, s);
    InFlightIsLatest(db, s);
    ConfinedKeeps(db, db', s);
  }

  lemma ActivateKeeps(db: Db, s: SubmissionId, now: Time)
    requires DbInv(db)
    ensures DbInv(ActivateOne(db, s, now))
  {
    hide DbInv;
    if Activatable(db, s) {
      RowFacts(db, s);
      ConfinedKeeps(db, ActivateOne(db, s, now), s);
    }
  }

  lemma FilingOf(db: Db, f: FilingId)
    requires DbInv(db) && f in db.filings
    ensures f in db.snapshots && FilingInv(db, f)
  {
    hide FilingInv, RowInv;
  }

  lemma RowOf(db: Db, s: SubmissionId)
    requires DbInv(db) && s in db.outbox
    ensures RowInv(db, s)
  {
    hide FilingInv, RowInv;
  }

  // Unlocking changes no row but waiting ones of the filing, which are cancelled.
  lemma UnlockRows(db: Db, f: FilingId, s: SubmissionId)
    requires s in db.outbox
    ensures var db' := UnlockSpec(db, f);
            && s in db'.outbox && db'.outbox[s].filing == db.outbox[s].filing
            && (db'.outbox[s] == db.outbox[s] || (db.outbox[s].filing == f && Cancelled(db.outbox[s], db'.outbox[s])))
            && (f in db.filings && db.filings[f].status == WAITING && db.outbox[s].filing == f ==>
                  db'.outbox[s].status != WAITING_CONTRACT)
  {
  }

  predicate Cancelled(o: Outbox, o': Outbox) {
    o.status == WAITING_CONTRACT && o'.status == CANCELED && o'.retryCount == o.retryCount
  }

  lemma UnlockRest(db: Db, f: FilingId)
    ensures var db' := UnlockSpec(db, f);
            && db'.outbox.Keys == db.outbox.Keys && db'.receipts == db.receipts && db'.snapshots == db.snapshots
            && db'.filings.Keys == db.filings.Keys
            && (forall g :: g in db.filings && g != f ==> db'.filings[g] == db.filings[g])
            && (f in db.filings ==>
                  if db.filings[f].status in {WAITING, FAILED, SUBMITTED} then db'.filings[f].status == DRAFT
                  else db' == db)
  {
  }

  lemma UnlockFiling(db: Db, f: FilingId, g: FilingId)
    requires DbInv(db) && g in db.filings
    ensures g in UnlockSpec(db, f).filings && g in UnlockSpec(db, f).snapshots && FilingInv(UnlockSpec(db, f), g)
  {
    hide DbInv, RowInv, UnlockSpec;
    FilingOf(db, g);
    UnlockRest(db, f);
    var ss := db.snapshots[g];
    forall i | 0 <= i < |ss|
      ensures ss[i] in UnlockSpec(db, f).outbox && UnlockSpec(db, f).outbox[ss[i]].filing == g
      ensures UnlockSpec(db, f).outbox[ss[i]] == db.outbox[ss[i]]
              || (g == f && Cancelled(db.outbox[ss[i]], UnlockSpec(db, f).outbox[ss[i]]))
    {
      UnlockRows(db, f, ss[i]);
    }
    if ss != [] { UnlockRows(db, f, ss[|ss| - 1]); }
  }

  lemma UnlockRow(db: Db, f: FilingId, t: SubmissionId)
    requires DbInv(db) && t in db.outbox
    ensures t in UnlockSpec(db, f).outbox && RowInv(UnlockSpec(db, f), t)
  {
    hide DbInv, FilingInv, UnlockSpec;
    RowOf(db, t);
    UnlockRest(db, f);
    UnlockRows(db, f, t);
  }

  lemma UnlockKeeps(db: Db, f: FilingId)
    requires DbInv(db)
    ensures DbInv(UnlockSpec(db, f))
  {
    hide FilingInv, RowInv, UnlockSpec;
    UnlockRest(db, f);
    forall g | g in db.filings ensures FilingInv(UnlockSpec(db, f), g) { UnlockFiling(db, f, g); }
    forall t | t in db.outbox ensures RowInv(UnlockSpec(db, f), t) { UnlockRow(db, f, t); }
  }

  lemma SubmitFiling(db: Db, f: FilingId, s: SubmissionId, now: Time, g: FilingId)
    requires DbInv(db) && g in db.filings
    ensures g in SubmitSpec(db, f, s, now).filings && g in SubmitSpec(db, f, s, now).snapshots
    ensures FilingInv(SubmitSpec(db, f, s, now), g)
  {
    hide DbInv, RowInv;
    FilingOf(db, g);
    var db' := SubmitSpec(db, f, s, now);
    if db' != db {
      forall i | 0 <= i < |db.snapshots[g]|
        ensures db.snapshots[g][i] != s && db'.outbox[db.snapshots[g][i]] == db.outbox[db.snapshots[g][i]]
      {
      }
    }
  }

  lemma SubmitRow(db: Db, f: FilingId, s: SubmissionId, now: Time, t: SubmissionId)
    requires DbInv(db) && t in SubmitSpec(db, f, s, now).outbox
    ensures RowInv(SubmitSpec(db, f, s, now), t)
  {
    hide DbInv, FilingInv;
    var db' := SubmitSpec(db, f, s, now);
    if t in db.outbox {
      RowOf(db, t);
    } else {
      NoReceiptAhead(db, t);
      assert db'.snapshots[f][|db.snapshots[f]|] == s;
    }
  }

  lemma NoReceiptAhead(db: Db, t: SubmissionId)
    requires DbInv(db) && t !in db.outbox
    ensures t !in db.receipts
  {
    hide FilingInv, RowInv;
  }

  lemma SubmitKeys(db: Db, f: FilingId, s: SubmissionId, now: Time)
    requires DbInv(db)
    ensures var db' := SubmitSpec(db, f, s, now);
            db'.filings.Keys == db.filings.Keys == db'.snapshots.Keys && db'.receipts.Keys <= db'.outbox.Keys
  {
    hide FilingInv, RowInv;
  }

  lemma SubmitKeeps(db: Db, f: FilingId, s: SubmissionId, now: Time)
    requires DbInv(db)
    ensures DbInv(SubmitSpec(db, f, s, now))
  {
    hide FilingInv, RowInv, SubmitSpec;
    SubmitKeys(db, f, s, now);
    var db' := SubmitSpec(db, f, s, now);
    forall g | g in db'.filings ensures FilingInv(db', g) { SubmitFiling(db, f, s, now, g); }
    forall t | t in db'.outbox ensures RowInv(db', t) { SubmitRow(db, f, s, now, t); }
  }

  lemma DraftKeeps(db: Db, f: FilingId)
    requires DbInv(db)
    ensures DbInv(DraftSpec(db, f))
  {
    hide RowInv, FilingInv;
    var db' := DraftSpec(db, f);
    if f !in db.filings {
      forall g | g in db'.filings ensures FilingInv(db', g) { DraftFiling(db, f, g); }
      forall t | t in db'.outbox ensures RowInv(db', t) { DraftRow(db, f, t); }
    }
  }

  lemma DraftFiling(db: Db, f: FilingId, g: FilingId)
    requires DbInv(db) && f !in db.filings && (g in db.filings || g == f)
    ensures g in DraftSpec(db, f).filings && g in DraftSpec(db, f).snapshots && FilingInv(DraftSpec(db, f), g)
  {
    hide DbInv, RowInv;
    if g != f { FilingOf(db, g); }
  }

  lemma DraftRow(db: Db, f: FilingId, t: SubmissionId)
    requires DbInv(db) && f !in db.filings && t in db.outbox
    ensures t in DraftSpec(db, f).outbox && RowInv(DraftSpec(db, f), t)
  {
    hide DbInv, FilingInv;
    RowOf(db, t);
    SnapshotsAreFilings(db, db.outbox[t].filing);
  }

  lemma SnapshotsAreFilings(db: Db, f: FilingId)
    requires DbInv(db)
    ensures f in db.snapshots <==> f in db.filings
  {
    hide FilingInv, RowInv;
  }

  // ---------------------------------------------------------------- what workers hold

  // What one transaction may do to a row that workers hold: leave the holder and the count alone,
  // or release the row.
  predicate RowSafe(db: Db, db': Db, s: SubmissionId)
    requires s in db.outbox
  {
    && s in db'.outbox && db'.outbox[s].filing == db.outbox[s].filing
    && (db'.outbox[s].status == PROCESSING ==> db'.outbox[s] == db.outbox[s])
  }

  predicate RowsSafe(db: Db, db': Db) { forall s :: s in db.outbox ==> RowSafe(db, db', s) }

  lemma HandsKept(w: World, w': World)
    requires Inv(w) && RowsSafe(w.db, w'.db) && DbInv(w'.db)
    requires forall worker :: worker in w'.hand ==> worker in w.hand && w'.hand[worker] == w.hand[worker]
    ensures Inv(w')
  {
    hide DbInv;
    forall worker | worker in w'.hand ensures HandInv(w'.db, worker, w'.hand[worker]) {
      assert HandInv(w.db, worker, w.hand[worker]);
      assert RowSafe(w.db, w'.db, w.hand[worker].submission);
    }
  }

  // Taking a row gives it to a worker with empty hands.
  lemma TakenHands(w: World, worker: WorkerId, s: SubmissionId, now: Time, until: Time)
    requires Inv(w) && worker !in w.hand && Claimable(w.db, s, now)
    ensures var row := Claimed(w.db.outbox[s], worker, until);
            var db' := w.db.(outbox := w.db.outbox[s := row]);
            HandsInv(db', w.hand[worker := Held(s, row)])
  {
    hide DbInv;
    forall a | a in w.hand ensures HandInv(w.db, a, w.hand[a]) { }
  }

  lemma UnlockSafe(db: Db, f: FilingId)
    ensures RowsSafe(db, UnlockSpec(db, f))
  {
    hide UnlockSpec;
    forall s | s in db.outbox ensures RowSafe(db, UnlockSpec(db, f), s) { UnlockRows(db, f, s); }
  }

  lemma ServiceSafe(db: Db, f: FilingId, s: SubmissionId, now: Time)
    ensures RowsSafe(db, DraftSpec(db, f)) && RowsSafe(db, SubmitSpec(db, f, s, now))
            && RowsSafe(db, ActivateOne(db, s, now))
    ensures RowsSafe(db, db)
  {
  }

  lemma CompleteSafe(db: Db, worker: WorkerId, c: Held, r: Receipt, now: Time)
    ensures RowsSafe(db, CompleteSpec(db, worker, c, r, now).0)
  {
    hide ReceiptTaken;
  }

  lemma FailSafe(db: Db, worker: WorkerId, c: Held, now: Time)
    ensures RowsSafe(db, WorkerFail(db, worker, c, now).0)
  {
  }

  lemma TakeStepKeeps(w: World, worker: WorkerId, s: SubmissionId, now: Time, lease: Time)
    requires Inv(w)
    ensures Inv(Do(w, Take(worker, s, now, lease)))
  {
    hide DbInv, HandInv, Claimable;
    if worker !in w.hand && Claimable(w.db, s, now) {
      TakeKeeps(w.db, worker, s, now, now + lease);
      TakenHands(w, worker, s, now, now + lease);
    }
  }

  lemma SettleStepKeeps(w: World, step: Step)
    requires Inv(w) && (step.Complete? || step.Fail?)
    ensures Inv(Do(w, step))
  {
    hide DbInv, HandInv, RowsSafe, CompleteSpec, WorkerFail;
    if step.worker in w.hand {
      var c := w.hand[step.worker];
      if step.Complete? {
        CompleteKeeps(w.db, step.worker, c, step.r, step.now);
        CompleteSafe(w.db, step.worker, c, step.r, step.now);
      } else {
        FailKeeps(w.db, step.worker, c, step.now);
        FailSafe(w.db, step.worker, c, step.now);
      }
      HandsKept(w, Do(w, step));
    }
  }

  lemma ServiceStepKeeps(w: World, step: Step)
    requires Inv(w) && (step.Draft? || step.Submit? || step.Unlock? || step.Activate? || step.Crash?)
    ensures Inv(Do(w, step))
  {
    hide DbInv, HandInv, RowsSafe, DraftSpec, SubmitSpec, UnlockSpec, ActivateOne;
    var db := w.db;
    match step {
      case Draft(f) => DraftKeeps(db, f); ServiceSafe(db, f, 0, 0);
      case Submit(f, s, now) => SubmitKeeps(db, f, s, now); ServiceSafe(db, f, s, now);
      case Unlock(f) => UnlockKeeps(db, f); UnlockSafe(db, f);
      case Activate(s, now) => ActivateKeeps(db, s, now); ServiceSafe(db, 0, s, now);
      case Crash(_) => ServiceSafe(db, 0, 0, 0);
    }
    HandsKept(w, Do(w, step));
  }

  lemma StepKeeps(w: World, step: Step)
    requires Inv(w)
    ensures Inv(Do(w, step))
  {
    hide Inv, Do;
    match step
    case Take(worker, s, now, lease) => TakeStepKeeps(w, worker, s, now, lease);
    case Complete(_, _, _) => SettleStepKeeps(w, step);
    case Fail(_, _) => SettleStepKeeps(w, step);
    case _ => ServiceStepKeeps(w, step);
  }

  /** Every reachable state: for each filing that is not being edited, its status and its latest
      outbox row's status determine each other, a row is SENT exactly when it has its one
      receipt, superseded rows are settled for good, and no row fails more than seven times. */
  lemma {:induction false} InStepAlways(w: World, steps: seq<Step>)
    requires Initial(w)
    ensures Inv(DoAll(w, steps))
  {
    hide Do;
    if steps != [] {
      InStepAlways(w, steps[..|steps| - 1]);
      StepKeeps(DoAll(w, steps[..|steps| - 1]), steps[|steps| - 1]);
    }
  }

  /** The correspondence spelled out for one filing: submitted or in between it is in step with its
      latest submission, and a draft has nothing in flight. */
  lemma InStep(w: World, f: FilingId)
    requires Inv(w) && f in w.db.filings
    ensures f in w.db.snapshots
    ensures w.db.snapshots[f] == [] ==> w.db.filings[f].status == DRAFT
    ensures w.db.snapshots[f] != [] ==>
      var s := w.db.snapshots[f][|w.db.snapshots[f]| - 1];
      && s in w.db.outbox
      && (w.db.outbox[s].status == SENT <==> s in w.db.receipts)
      && (w.db.outbox[s].status == DEAD_LETTER <==> w.db.outbox[s].retryCount == 7)
      && w.db.outbox[s].retryCount <= 7
      && (w.db.filings[f].status == DRAFT ==> Over(w.db.outbox[s].status))
      && (w.db.filings[f].status != DRAFT ==>
            && (w.db.filings[f].status == WAITING <==> w.db.outbox[s].status == WAITING_CONTRACT)
            && (w.db.filings[f].status == SUBMITTING <==> w.db.outbox[s].status in {PENDING, PROCESSING})
            && (w.db.filings[f].status == SUBMITTED <==> w.db.outbox[s].status == SENT)
            && (w.db.filings[f].status == FAILED <==> w.db.outbox[s].status == DEAD_LETTER))
  {
    hide HandsInv, DbInv;
    FilingOf(w.db, f);
    if w.db.snapshots[f] != [] { RowOf(w.db, w.db.snapshots[f][|w.db.snapshots[f]| - 1]); }
  }

  /** Completing twice is completing once: the second call accepts exactly the stored receipt,
      and whatever it is given it changes nothing. */
  lemma CompleteIdempotent(db: Db, worker: WorkerId, c: Held, r: Receipt, now: Time, worker2: WorkerId, r2: Receipt,
                           later: Time)
    requires CompleteSpec(db, worker, c, r, now).1 == None
    ensures var db' := CompleteSpec(db, worker, c, r, now).0;
            && CompleteSpec(db', worker2, c, r2, later).0 == db'
            && (CompleteSpec(db', worker2, c, r2, later).1 == None <==> r2 == r)
  {
  }

  /** An accepted completion is the only thing that turns a filing into SUBMITTED, and it leaves
      the receipt behind. */
  lemma SubmittedOnlyByReceipt(w: World, step: Step, f: FilingId)
    requires Inv(w) && f in Do(w, step).db.filings && Do(w, step).db.filings[f].status == SUBMITTED
    requires f !in w.db.filings || w.db.filings[f].status != SUBMITTED
    ensures step.Complete? && step.worker in w.hand
    ensures w.db.outbox[w.hand[step.worker].submission].filing == f
    ensures w.hand[step.worker].submission !in w.db.receipts
    ensures Do(w, step).db.receipts == w.db.receipts[w.hand[step.worker].submission := step.r]
  {
    hide DbInv;
    if step.Complete? && step.worker in w.hand { assert HandInv(w.db, step.worker, w.hand[step.worker]); }
  }

  /** A row that other hands took over, or that was settled, rejects the late worker. */
  lemma LateWorkerRejected(db: Db, worker: WorkerId, c: Held, r: Receipt, now: Time)
    requires c.submission in db.outbox
             && (db.outbox[c.submission].lockedBy != worker || db.outbox[c.submission].status != PROCESSING)
    ensures CompleteSpec(db, worker, c, r, now).0 == db && WorkerFail(db, worker, c, now).0 == db
  {
  }

  /** The row after a failure: counted once, and either back in the queue or dead. */
  predicate FailedOnce(db: Db, db': Db, s: SubmissionId, now: Time) {
    && s in db.outbox && s in db'.outbox
    && var o, o' := db.outbox[s], db'.outbox[s];
       && o'.retryCount == o.retryCount + 1
       && (o'.status == DEAD_LETTER <==> o.retryCount == 6)
       && (o'.status == PENDING <==> o.retryCount < 6)
       && (o'.status == PENDING ==> o'.nextRetryAt == Some(now + 60 * o'.retryCount * o'.retryCount))
  }

  /** Seven recorded failures end in DEAD_LETTER, and no fewer. */
  lemma FailureSchedule(w: World, worker: WorkerId, now: Time)
    requires Inv(w) && worker in w.hand
    requires Fenced(w.db, w.hand[worker].submission, worker, now)
    ensures FailedOnce(w.db, Do(w, Fail(worker, now)).db, w.hand[worker].submission, now)
  {
    hide DbInv;
    var s := w.hand[worker].submission;
    assert HandInv(w.db, worker, w.hand[worker]);
    RowFacts(w.db, s);
    InFlightIsLatest(w.db, s);
  }

  // ---------------------------------------------------------------- the worker is one of the world's

  lemma {:induction false} DoAllConcat(w: World, a: seq<Step>, b: seq<Step>)
    ensures DoAll(w, a + b) == DoAll(DoAll(w, a), b)
  {
    hide Do;
    if b == [] {
      assert a + b == a;
    } else {
      var ab := a + b;
      assert ab[..|ab| - 1] == a + b[..|b| - 1];
      DoAllConcat(w, a, b[..|b| - 1]);
    }
  }

  lemma DoTwo(w: World, a: Step, b: Step)
    ensures DoAll(w, [a, b]) == Do(Do(w, a), b)
  {
    hide Do;
    assert [a, b][..1] == [a] && [a][..0] == [];
    assert DoAll(w, [a]) == Do(w, a);
  }

  lemma TurnIsWorldRun(w: World, worker: WorkerId, t: Turn) returns (steps: seq<Step>)
    requires worker !in w.hand
    ensures DoAll(w, steps).db == TurnSpec(w.db, worker, t).0 && DoAll(w, steps).hand == w.hand
  {
    hide CompleteSpec, WorkerFail, Loadable, ValidReceipt;
    if !Claimable(w.db, t.offer, t.claimedAt) {
      steps := [];
    } else {
      var row := Claimed(w.db.outbox[t.offer], worker, t.claimedAt + t.lease);
      var c := Held(t.offer, row);
      var a := t.answer;
      var db := w.db.(outbox := w.db.outbox[t.offer := row]);
      var settle :=
        if row.lockedUntil.value <= t.now + 1 then Crash(worker)
        else if a.loaded && Loadable(db, c) && a.receipt.Some? && ValidReceipt(a.receipt.value, row.createdAt, t.done)
            && a.encrypted
        then Complete(worker, a.receipt.value, t.done)
        else Fail(worker, t.done);
      steps := [Take(worker, t.offer, t.claimedAt, t.lease), settle];
      DoTwo(w, steps[0], settle);
      assert w.hand[worker := c] - {worker} == w.hand;
    }
  }

  lemma {:induction false} ActivationIsWorldRun(w: World, waiting: seq<SubmissionId>, at: Time)
    returns (steps: seq<Step>)
    ensures DoAll(w, steps) == w.(db := ActivateAll(w.db, waiting, at))
  {
    hide ActivateOne;
    if waiting == [] {
      steps := [];
    } else {
      steps := ActivationIsWorldRun(w, waiting[..|waiting| - 1], at);
      var more := Activate(waiting[|waiting| - 1], at);
      assert (steps + [more])[..|steps|] == steps;
      steps := steps + [more];
    }
  }

  /** A poll with nobody else in between is a run of the world, so everything proved of all runs holds
      of it. */
  lemma PollIsWorldRun(w: World, worker: WorkerId, waiting: seq<SubmissionId>, at: Time, turns: seq<Turn>)
    returns (steps: seq<Step>)
    requires worker !in w.hand
    ensures DoAll(w, steps) == w.(db := PollSpec(ActivateAll(w.db, waiting, at), worker, turns).0)
  {
    hide *;
    var first := ActivationIsWorldRun(w, waiting, at);
    var v := w.(db := ActivateAll(w.db, waiting, at));
    var rest := TurnsAreWorldRun(v, worker, turns);
    DoAllConcat(w, first, rest);
    steps := first + rest;
  }

  lemma {:induction false} TurnsAreWorldRun(w: World, worker: WorkerId, turns: seq<Turn>) returns (steps: seq<Step>)
    requires worker !in w.hand
    ensures DoAll(w, steps) == w.(db := PollSpec(w.db, worker, turns).0)
  {
    hide Do, TurnSpec;
    if turns == [] {
      steps := [];
    } else {
      var n := |turns| - 1;
      steps := TurnsAreWorldRun(w, worker, turns[..n]);
      var v := DoAll(w, steps);
      if PollSpec(w.db, worker, turns[..n]).1 {
        var more := TurnIsWorldRun(v, worker, turns[n]);
        DoAllConcat(w, steps, more);
        steps := steps + more;
      }
    }
  }
}
