/** The attempt ledger of the contract transfer outbox over every interleaving of workers. */
module ContractLedger {
  import opened Wrappers
  import opened ContractTransfer

  lemma HistorySnoc(attempts: seq<Attempt>, a: Attempt, id: EventId)
    ensures History(attempts + [a], id) == History(attempts, id) + if a.event == id then [a] else []
  {
    assert (attempts + [a])[..|attempts|] == attempts;
  }

  lemma {:induction false} HistoryIn(attempts: seq<Attempt>, id: EventId, a: Attempt)
    ensures a in History(attempts, id) <==> a in attempts && a.event == id
  {
    if attempts != [] {
      HistoryIn(attempts[..|attempts| - 1], id, a);
      assert attempts == attempts[..|attempts| - 1] + [attempts[|attempts| - 1]];
    }
  }

  lemma {:induction false} NoHistory(attempts: seq<Attempt>, id: EventId)
    requires forall a :: a in attempts ==> a.event != id
    ensures History(attempts, id) == []
  {
    if attempts != [] {
      assert attempts[|attempts| - 1] in attempts;
      NoHistory(attempts[..|attempts| - 1], id);
    }
  }

  // ---------------------------------------------------------------- the unique attempt key

  lemma AccountOf(w: World, id: EventId)
    requires Inv(w) && id in w.db.events
    ensures Account(w.db, w.requeued, id) && LockOk(w, id)
  {
    hide Account, LockOk, ClaimsOk, SentOk;
  }

  lemma ClaimOf(w: World, t: Token)
    requires Inv(w) && t in w.claims
    ensures ClaimOk(w, t)
  {
    hide Accounts, ClaimOk, LocksOk, SentOk;
  }

  /** For the claimant that holds the row the unique attempt key fires exactly where an operator has
      put the event back. */
  lemma KeyFiresIffRequeued(w: World, t: Token, now: Time)
    requires Inv(w) && t in w.claims && Fenced(w.db, w.claims[t].claim, now)
    ensures Recorded(w.db, w.claims[t].claim.id, (w.claims[t].claim.retryCount + 1) % 256)
        <==> w.claims[t].claim.id in w.requeued
  {
    hide Inv, History, Recorded;
    var c := w.claims[t].claim;
    ClaimOf(w, t);
    AccountOf(w, c.id);
    RecordedIn(w.db.attempts, w.db, c.id, c.retryCount + 1);
    var h := History(w.db.attempts, c.id);
    if c.id in w.requeued { assert h[0].no == 1; }
  }

  lemma RecordedIn(attempts: seq<Attempt>, db: Db, id: EventId, no: nat)
    requires attempts == db.attempts
    ensures Recorded(db, id, no) <==> exists i :: 0 <= i < |History(attempts, id)| && History(attempts, id)[i].no == no
  {
    hide History;
    var h := History(attempts, id);
    if Recorded(db, id, no) {
      var a :| a in db.attempts && a.event == id && a.no == no;
      HistoryIn(attempts, id, a);
    }
    if i :| 0 <= i < |h| && h[i].no == no {
      HistoryIn(attempts, id, h[i]);
      assert h[i] in db.attempts;
    }
  }

  /** So a settlement by the holder is accepted exactly where no operator ever put the event back;
      otherwise it rolls back whatever the result was. */
  lemma AcceptedIffNeverRequeued(w: World, t: Token, now: Time, status: Status, intake: string, next: Option<Time>)
    requires Inv(w) && t in w.claims && Fenced(w.db, w.claims[t].claim, now)
    ensures var c := w.claims[t].claim;
            var (db, err) := SettleSpec(w.db, c, now, status, intake, next);
            && (err == None <==> c.id !in w.requeued)
            && (c.id in w.requeued ==> (db, err) == (w.db, Some(DuplicateAttempt)))
  {
    hide Inv, Recorded;
    KeyFiresIffRequeued(w, t, now);
  }

  // ---------------------------------------------------------------- what a result comes to

  datatype Outcome = Outcome(status: Status, intake: string, next: Option<Time>)

  /** What a claimant at this stage records, if anything. */
  function OutcomeOf(m: Memory, now: Time): Option<Outcome> {
    var attempt := (m.claim.retryCount + 1) % 256;
    var retry :=
      if attempt > |DELAYS| then Some(Outcome(DEAD_LETTER, "", None))
      else if attempt == 0 then None
      else Some(Outcome(RETRY_WAIT, "", Some(now + DELAYS[attempt - 1])));
    match m.stage
    case Refused => Some(Outcome(DEAD_LETTER, "", None))
    case Unread => retry
    case Answered(_, d) =>
      if d.Transient? then retry
      else if d.Permanent? then Some(Outcome(DEAD_LETTER, "", None))
      else Some(Outcome(SENT, d.intake, None))
    case _ => None
  }

  function Settle(db: Db, c: Claim, now: Time, o: Outcome): Db { SettleSpec(db, c, now, o.status, o.intake, o.next).0 }

  lemma RecordIs(w: World, t: Token, now: Time)
    requires t in w.claims
    ensures var m, v, o := w.claims[t], Do(w, Record(t, now)), OutcomeOf(w.claims[t], now);
            && v.calls == w.calls && v.requeued == w.requeued
            && v.db == (if o.Some? then Settle(w.db, m.claim, now, o.value) else w.db)
            && (v.claims == w.claims || v.claims == w.claims[t := m.(stage := Over)])
  {
    hide SettleSpec;
  }

  // ---------------------------------------------------------------- one event, one step

  // What one accepted settlement does to the ledger of its event.
  lemma LedgerExtend(e: Event, h: seq<Attempt>, a: Attempt, status: Status, next: Option<Time>)
    requires Ledger(e, h) && e.status == PROCESSING
    requires a.no == e.retryCount + 1 && a.result == status
    requires Terminal(status) || (status == RETRY_WAIT && e.retryCount < 6)
    ensures Ledger(e.(status := status, retryCount := e.retryCount + 1, nextRetryAt := next, lockedBy := None), h + [a])
  {
  }

  lemma SettleAccount(w: World, t: Token, now: Time, o: Outcome, id: EventId)
    requires Inv(w) && t in w.claims && id in w.db.events && OutcomeOf(w.claims[t], now) == Some(o)
    ensures id in Settle(w.db, w.claims[t].claim, now, o).events
    ensures Account(Settle(w.db, w.claims[t].claim, now, o), w.requeued, id)
  {
    hide Inv, Ledger, Stuck, History, Recorded;
    var c := w.claims[t].claim;
    var (db, err) := SettleSpec(w.db, c, now, o.status, o.intake, o.next);
    AccountOf(w, id);
    ClaimOf(w, t);
    if err == None {
      AcceptedIffNeverRequeued(w, t, now, o.status, o.intake, o.next);
      var a := Attempt(c.id, (c.retryCount + 1) % 256, o.status, o.intake, now);
      HistorySnoc(w.db.attempts, a, id);
      if id == c.id {
        LedgerExtend(w.db.events[id], History(w.db.attempts, id), a, o.status, o.next);
      } else {
        assert History(w.db.attempts, id) + [] == History(w.db.attempts, id);
      }
    }
  }

  lemma TakeAccount(w: World, s: Step, id: EventId)
    requires s.Take? && id in w.db.events && Account(w.db, w.requeued, id)
    ensures id in Do(w, s).db.events && Account(Do(w, s).db, Do(w, s).requeued, id)
  {
    hide History;
  }

  lemma RequeueAccount(w: World, s: Step, id: EventId)
    requires s.Requeue? && id in w.db.events && Account(w.db, w.requeued, id)
    ensures id in Do(w, s).db.events && Account(Do(w, s).db, Do(w, s).requeued, id)
  {
    hide History;
  }

  lemma EnqueueAccount(w: World, s: Step, id: EventId)
    requires Inv(w) && s.Enqueue? && id in Do(w, s).db.events
    ensures Account(Do(w, s).db, Do(w, s).requeued, id)
  {
    hide History, LockOk, ClaimsOk, SentOk;
    if id in w.db.events { AccountOf(w, id); } else { NoHistory(w.db.attempts, id); }
  }

  lemma RecordAccount(w: World, s: Step, id: EventId)
    requires Inv(w) && s.Record? && id in w.db.events
    ensures id in Do(w, s).db.events && Account(Do(w, s).db, Do(w, s).requeued, id)
  {
    hide Inv, Account, Do, Settle;
    AccountOf(w, id);
    if s.token in w.claims {
      RecordIs(w, s.token, s.now);
      var o := OutcomeOf(w.claims[s.token], s.now);
      if o.Some? { SettleAccount(w, s.token, s.now, o.value, id); }
    } else {
      Unknown(w, s);
    }
  }

  lemma Unknown(w: World, s: Step)
    requires s.Record? && s.token !in w.claims
    ensures Do(w, s) == w
  {
  }

  lemma StillThere(w: World, s: Step)
    ensures w.db.events.Keys <= Do(w, s).db.events.Keys
    ensures s.Edit? || s.Check? || s.Deliver? ==>
      Do(w, s).db.events == w.db.events && Do(w, s).db.attempts == w.db.attempts && Do(w, s).requeued == w.requeued
  {
    hide AuthoritySpec, Recorded, Eligible;
  }

  lemma StepAccount(w: World, s: Step, id: EventId)
    requires Inv(w) && id in Do(w, s).db.events
    ensures Account(Do(w, s).db, Do(w, s).requeued, id)
  {
    hide Inv, Account, Do;
    StillThere(w, s);
    if s.Enqueue? {
      EnqueueAccount(w, s, id);
    } else {
      NothingNew(w, s);
      AccountOf(w, id);
      match s
      case Take(_, _, _, _) => TakeAccount(w, s, id);
      case Record(_, _) => RecordAccount(w, s, id);
      case Requeue(_) => RequeueAccount(w, s, id);
      case _ => SameAccount(w.db, Do(w, s).db, w.requeued, id);
    }
  }

  lemma SameAccount(db: Db, db': Db, requeued: set<EventId>, id: EventId)
    requires id in db.events && db'.events == db.events && db'.attempts == db.attempts && Account(db, requeued, id)
    ensures Account(db', requeued, id)
  {
  }

  lemma NothingNew(w: World, s: Step)
    requires !s.Enqueue?
    ensures Do(w, s).db.events.Keys == w.db.events.Keys
  {
    hide AuthoritySpec, Recorded, Eligible;
  }

  lemma StepRows(w: World, s: Step)
    requires Accounts(w)
    ensures Do(w, s).requeued <= Do(w, s).db.events.Keys
    ensures forall a :: a in Do(w, s).db.attempts ==> a.event in Do(w, s).db.events
  {
    hide Account, Do;
    StillThere(w, s);
    StepAttempts(w, s);
    StepRequeued(w, s);
  }

  lemma StepAttempts(w: World, s: Step)
    requires forall a :: a in w.db.attempts ==> a.event in w.db.events
    ensures forall a :: a in Do(w, s).db.attempts ==> a in w.db.attempts || a.event in w.db.events
  {
    hide AuthoritySpec, Recorded, Eligible;
  }

  lemma StepRequeued(w: World, s: Step)
    ensures forall id :: id in Do(w, s).requeued ==> id in w.requeued || id in w.db.events
  {
    hide AuthoritySpec, ClaimSpec, RetrySpec, FinishSpec, DeliveredSpec;
  }

  // ---------------------------------------------------------------- one claim, one lock, one step

  lemma StepClaim(w: World, s: Step, t: Token)
    requires Inv(w) && t in Do(w, s).claims
    ensures ClaimOk(Do(w, s), t)
  {
    hide Inv, Do, ClaimOk;
    match s
    case Record(_, _) => RecordClaim(w, s, t);
    case Take(_, _, _, _) => TakeClaim(w, s, t);
    case Deliver(_, _) => DeliverClaim(w, s, t);
    case Check(_, _, _) => CheckClaim(w, s, t);
    case _ => QueueClaim(w, s, t);
  }

  lemma RecordClaim(w: World, s: Step, t: Token)
    requires Inv(w) && s.Record? && t in Do(w, s).claims
    ensures ClaimOk(Do(w, s), t)
  {
    hide Inv, Do, Recorded, OutcomeOf;
    if s.token in w.claims {
      RecordIs(w, s.token, s.now);
      ClaimOf(w, t);
      ClaimOf(w, s.token);
    } else {
      Unknown(w, s);
      ClaimOf(w, t);
    }
  }

  lemma TakeClaim(w: World, s: Step, t: Token)
    requires Inv(w) && s.Take? && t in Do(w, s).claims
    ensures ClaimOk(Do(w, s), t)
  {
    hide Inv, Eligible;
    if t in w.claims { ClaimOf(w, t); } else { TakenCount(w, s); }
  }

  lemma TakenCount(w: World, s: Step)
    requires Inv(w) && s.Take? && s.id in w.db.events && Eligible(w.db.events[s.id], s.now)
    ensures w.db.events[s.id].retryCount <= 6
  {
    hide Inv, History;
    AccountOf(w, s.id);
  }

  lemma DeliverClaim(w: World, s: Step, t: Token)
    requires Inv(w) && s.Deliver? && t in Do(w, s).claims
    ensures ClaimOk(Do(w, s), t)
  {
    hide Inv;
    ClaimOf(w, t);
  }

  lemma CheckClaim(w: World, s: Step, t: Token)
    requires Inv(w) && s.Check? && t in Do(w, s).claims
    ensures ClaimOk(Do(w, s), t)
  {
    hide Inv, SelfConsistent, StillSigned, Fenced;
    ClaimOf(w, t);
  }

  lemma QueueClaim(w: World, s: Step, t: Token)
    requires Inv(w) && (s.Enqueue? || s.Edit? || s.Requeue?) && t in Do(w, s).claims
    ensures ClaimOk(Do(w, s), t)
  {
    hide Inv;
    ClaimOf(w, t);
  }

  lemma StepLock(w: World, s: Step, id: EventId)
    requires Inv(w) && id in Do(w, s).db.events
    ensures LockOk(Do(w, s), id)
  {
    hide Inv, Do, LockOk;
    match s
    case Record(_, _) => RecordLock(w, s, id);
    case Take(_, _, _, _) => TakeLock(w, s, id);
    case _ => OtherLock(w, s, id);
  }

  lemma RecordLock(w: World, s: Step, id: EventId)
    requires Inv(w) && s.Record? && id in Do(w, s).db.events
    ensures LockOk(Do(w, s), id)
  {
    hide Inv, Do, Recorded, OutcomeOf;
    NothingNew(w, s);
    AccountOf(w, id);
    if s.token in w.claims { RecordIs(w, s.token, s.now); } else { Unknown(w, s); }
  }

  lemma TakeLock(w: World, s: Step, id: EventId)
    requires Inv(w) && s.Take? && id in Do(w, s).db.events
    ensures LockOk(Do(w, s), id)
  {
    hide Inv, Eligible, Account;
    AccountOf(w, id);
  }

  lemma OtherLock(w: World, s: Step, id: EventId)
    requires Inv(w) && !s.Record? && !s.Take? && id in Do(w, s).db.events
    ensures LockOk(Do(w, s), id)
  {
    hide Inv, Account, AuthoritySpec;
    if id in w.db.events { AccountOf(w, id); }
  }

  lemma StepCalled(w: World, s: Step, id: EventId)
    requires Inv(w) && id in Do(w, s).db.events && Do(w, s).db.events[id].status == SENT
    ensures Called(Do(w, s), id)
  {
    hide Inv, Do, Called;
    if s.Record? {
      RecordCalled(w, s, id);
    } else {
      SentBefore(w, s, id);
      CalledOf(w, id);
      CallsGrow(w, s, id);
    }
  }

  lemma CalledOf(w: World, id: EventId)
    requires Inv(w) && id in w.db.events && w.db.events[id].status == SENT
    ensures Called(w, id)
  {
    hide Accounts, ClaimsOk, LocksOk, Called;
  }

  lemma SentBefore(w: World, s: Step, id: EventId)
    requires !s.Record? && id in Do(w, s).db.events && Do(w, s).db.events[id].status == SENT
    ensures id in w.db.events && w.db.events[id].status == SENT
  {
    hide AuthoritySpec, Eligible;
  }

  lemma CallsGrow(w: World, s: Step, id: EventId)
    requires Called(w, id)
    ensures Called(Do(w, s), id)
  {
    hide AuthoritySpec, ClaimSpec, RetrySpec, FinishSpec, DeliveredSpec;
    var c :| c in w.calls && c.event == id;
    assert c in Do(w, s).calls;
  }

  lemma RecordCalled(w: World, s: Step, id: EventId)
    requires Inv(w) && s.Record? && id in Do(w, s).db.events && Do(w, s).db.events[id].status == SENT
    ensures Called(Do(w, s), id)
  {
    hide Inv, Do, Recorded;
    NothingNew(w, s);
    if w.db.events[id].status == SENT {
      CalledOf(w, id);
      CallsGrow(w, s, id);
    } else {
      if s.token !in w.claims { Unknown(w, s); }
      RecordIs(w, s.token, s.now);
      ClaimOf(w, s.token);
      assert w.claims[s.token].stage.command in Do(w, s).calls;
    }
  }

  lemma StepKeeps(w: World, s: Step)
    requires Inv(w)
    ensures Inv(Do(w, s))
  {
    hide Do, Account, ClaimOk, LockOk, Called;
    StepRows(w, s);
    forall id | id in Do(w, s).db.events
      ensures Account(Do(w, s).db, Do(w, s).requeued, id) && LockOk(Do(w, s), id)
    {
      StepAccount(w, s, id);
      StepLock(w, s, id);
    }
    forall t | t in Do(w, s).claims ensures ClaimOk(Do(w, s), t) { StepClaim(w, s, t); }
    forall id | id in Do(w, s).db.events && Do(w, s).db.events[id].status == SENT ensures Called(Do(w, s), id) {
      StepCalled(w, s, id);
    }
  }

  lemma {:induction false} InvAlways(w: World, steps: seq<Step>)
    requires Initial(w)
    ensures Inv(DoAll(w, steps))
  {
    hide Do;
    if steps != [] {
      InvAlways(w, steps[..|steps| - 1]);
      StepKeeps(DoAll(w, steps[..|steps| - 1]), steps[|steps| - 1]);
    }
  }

  lemma {:induction false} RequeuedByOperator(w: World, steps: seq<Step>, id: EventId)
    requires id in DoAll(w, steps).requeued && id !in w.requeued
    ensures Requeue(id) in steps
  {
    hide AuthoritySpec, ClaimSpec, RetrySpec, FinishSpec, DeliveredSpec;
    if steps != [] && id in DoAll(w, steps[..|steps| - 1]).requeued { RequeuedByOperator(w, steps[..|steps| - 1], id); }
  }

  /** In every reachable state the attempt rows of an event that no operator put back are exactly the
      numbers 1 to its retry_count, at most 7, with a SENT or DEAD_LETTER row last and only when the
      event is; a requeued event is back at 0 below the rows of its first life; and every SENT event
      was delivered by an authorised command. */
  lemma LedgerAlways(w: World, steps: seq<Step>, id: EventId)
    requires Initial(w) && id in DoAll(w, steps).db.events
    ensures var v := DoAll(w, steps);
            var e, h := v.db.events[id], History(v.db.attempts, id);
            && (if id in v.requeued then Stuck(e, h) else Ledger(e, h))
            && (id in v.requeued ==> Requeue(id) in steps)
            && (e.status == SENT ==> Called(v, id))
  {
    hide DoAll, Ledger, Stuck, History, Called, LockOk;
    InvAlways(w, steps);
    AccountOf(DoAll(w, steps), id);
    if DoAll(w, steps).db.events[id].status == SENT { CalledOf(DoAll(w, steps), id); }
    if id in DoAll(w, steps).requeued { RequeuedByOperator(w, steps, id); }
  }

  // ---------------------------------------------------------------- after an operator's retry

  /** A requeued event can be told from the tables: it has more attempts than its count. */
  lemma RequeuedShows(w: World, id: EventId)
    requires Inv(w) && id in w.db.events
    ensures id in w.requeued <==> |History(w.db.attempts, id)| > w.db.events[id].retryCount
  {
    hide Inv, History;
    AccountOf(w, id);
  }

  lemma RequeuedStep(w: World, s: Step, id: EventId)
    requires Inv(w) && id in w.requeued && id in w.db.events
    ensures id in Do(w, s).requeued && id in Do(w, s).db.events
    ensures History(Do(w, s).db.attempts, id) == History(w.db.attempts, id)
  {
    hide Inv, History, AuthoritySpec, Eligible, RetrySpec, FinishSpec, DeliveredSpec;
    if s.Record? && s.token in w.claims {
      RecordTouches(w, s.token, s.now);
      RecordIs(w, s.token, s.now);
      var o := OutcomeOf(w.claims[s.token], s.now);
      if o.Some? && w.claims[s.token].claim.id == id && Fenced(w.db, w.claims[s.token].claim, s.now) {
        AcceptedIffNeverRequeued(w, s.token, s.now, o.value.status, o.value.intake, o.value.next);
      }
    }
  }

  /** Once put back, an event is never settled and its attempts never grow again, whatever happens. */
  lemma {:induction false} RequeuedNeverSettles(w: World, steps: seq<Step>, id: EventId)
    requires Inv(w) && id in w.requeued && id in w.db.events
    ensures var v := DoAll(w, steps);
            && Inv(v) && id in v.requeued && id in v.db.events
            && (v.db.events[id].status == PENDING || v.db.events[id].status == PROCESSING)
            && v.db.events[id].retryCount == 0 && History(v.db.attempts, id) == History(w.db.attempts, id)
  {
    hide Inv, Do, History;
    AccountOf(w, id);
    if steps != [] {
      var v := DoAll(w, steps[..|steps| - 1]);
      RequeuedNeverSettles(w, steps[..|steps| - 1], id);
      RequeuedStep(v, steps[|steps| - 1], id);
      StepKeeps(v, steps[|steps| - 1]);
      AccountOf(DoAll(w, steps), id);
    }
  }

  // ---------------------------------------------------------------- what a settlement touches

  /** From `db` to `db'` at most the row and the attempts of claim `c` changed, and only because
      its token held the row inside its lease; the row is released. */
  ghost predicate Touches(db: Db, db': Db, c: Claim, now: Time) {
    && db'.events.Keys == db.events.Keys && db'.opportunities == db.opportunities
    && (forall id :: id in db.events && id != c.id ==> db'.events[id] == db.events[id])
    && (forall id :: id != c.id ==> History(db'.attempts, id) == History(db.attempts, id))
    && (db' != db ==> Fenced(db, c, now) && db'.events[c.id].lockedBy == None)
  }

  lemma SettleTouches(db: Db, c: Claim, now: Time, status: Status, intake: string, next: Option<Time>)
    ensures Touches(db, SettleSpec(db, c, now, status, intake, next).0, c, now)
  {
    hide History;
    var a := Attempt(c.id, (c.retryCount + 1) % 256, status, intake, now);
    forall id | id != c.id ensures History(db.attempts + [a], id) == History(db.attempts, id) {
      HistorySnoc(db.attempts, a, id);
    }
  }

  lemma RetryTouches(db: Db, c: Claim, now: Time)
    ensures Touches(db, RetrySpec(db, c, now).0, c, now)
  {
    hide SettleSpec, History;
    var attempt := (c.retryCount + 1) % 256;
    if attempt > |DELAYS| {
      SettleTouches(db, c, now, DEAD_LETTER, "", None);
    } else if attempt > 0 {
      SettleTouches(db, c, now, RETRY_WAIT, "", Some(now + DELAYS[attempt - 1]));
    }
  }

  lemma RecordTouches(w: World, t: Token, now: Time)
    requires t in w.claims
    ensures Touches(w.db, Do(w, Record(t, now)).db, w.claims[t].claim, now)
  {
    hide SettleSpec, RetrySpec, History;
    var m := w.claims[t];
    RetryTouches(w.db, m.claim, now);
    SettleTouches(w.db, m.claim, now, DEAD_LETTER, "", None);
    if m.stage.Answered? && m.stage.delivery.Accepted? {
      SettleTouches(w.db, m.claim, now, SENT, m.stage.delivery.intake, None);
    }
  }

  // ---------------------------------------------------------------- terminal rows

  lemma Locked(w: World, id: EventId)
    requires Inv(w) && id in w.db.events
    ensures w.db.events[id].lockedBy.Some? <==> w.db.events[id].status == PROCESSING
  {
    hide Inv, History;
    AccountOf(w, id);
  }

  lemma TerminalStep(w: World, s: Step, id: EventId)
    requires Inv(w) && id in w.db.events && Terminal(w.db.events[id].status)
    ensures id in Do(w, s).db.events && History(Do(w, s).db.attempts, id) == History(w.db.attempts, id)
    ensures Do(w, s).db.events[id]
         == if s == Requeue(id) && w.db.events[id].status == DEAD_LETTER then Restarted(w.db.events[id])
             else w.db.events[id]
  {
    hide Inv, History, AuthoritySpec, RetrySpec, FinishSpec, DeliveredSpec;
    if s.Record? && s.token in w.claims { RecordTouches(w, s.token, s.now); }
  }

  lemma TerminalIsNotRequeued(w: World, id: EventId)
    requires Inv(w) && id in w.db.events && Terminal(w.db.events[id].status)
    ensures id !in w.requeued
  {
    hide Inv, History;
    AccountOf(w, id);
  }

  /** Over any run a SENT event and the attempts of any terminal event stay as they are, and a
      DEAD_LETTER event stays as it is exactly as long as no operator puts it back. */
  lemma {:induction false} TerminalForever(w: World, steps: seq<Step>, id: EventId)
    requires Inv(w) && id in w.db.events && Terminal(w.db.events[id].status)
    ensures var v := DoAll(w, steps);
            && Inv(v) && id in v.db.events && History(v.db.attempts, id) == History(w.db.attempts, id)
            && (v.db.events[id] == w.db.events[id] <==> w.db.events[id].status == SENT || Requeue(id) !in steps)
            && (id in v.requeued <==> v.db.events[id] != w.db.events[id])
  {
    hide Inv, Do, History;
    TerminalIsNotRequeued(w, id);
    if steps != [] {
      var n := |steps| - 1;
      TerminalForever(w, steps[..n], id);
      assert steps == steps[..n] + [steps[n]];
      var v := DoAll(w, steps[..n]);
      StepKeeps(v, steps[n]);
      if id in v.requeued {
        RequeuedStep(v, steps[n], id);
        RequeuedIsOpen(Do(v, steps[n]), id);
      } else {
        TerminalStep(v, steps[n], id);
        RequeuedByStep(v, steps[n], id);
      }
    }
  }

  lemma RequeuedIsOpen(w: World, id: EventId)
    requires Inv(w) && id in w.db.events && id in w.requeued
    ensures !Terminal(w.db.events[id].status)
  {
    hide Inv, History;
    AccountOf(w, id);
  }

  lemma RequeuedByStep(w: World, s: Step, id: EventId)
    requires id in w.db.events && id !in w.requeued
    ensures id in Do(w, s).requeued <==> s == Requeue(id) && w.db.events[id].status == DEAD_LETTER
  {
    hide AuthoritySpec, ClaimSpec, RetrySpec, FinishSpec, DeliveredSpec;
  }

  // ---------------------------------------------------------------- stale claims

  /** The row has moved on: another claim holds it, or it has been settled. */
  predicate Stale(w: World, t: Token) {
    && t in w.claims && w.claims[t].claim.token == t
    && w.claims[t].claim.id in w.db.events && w.db.events[w.claims[t].claim.id].lockedBy != Some(t)
  }

  lemma StaleStep(w: World, s: Step, t: Token)
    requires Stale(w, t)
    ensures Stale(Do(w, s), t) && Do(w, s).claims[t].claim == w.claims[t].claim
  {
    hide History, AuthoritySpec, RetrySpec, FinishSpec, DeliveredSpec, Eligible;
    if s.Record? && s.token in w.claims { RecordTouches(w, s.token, s.now); }
  }

  lemma {:induction false} StaleForever(w: World, steps: seq<Step>, t: Token)
    requires Stale(w, t)
    ensures Stale(DoAll(w, steps), t)
    ensures DoAll(w, steps).claims[t].claim == w.claims[t].claim
  {
    hide Do;
    if steps != [] {
      StaleForever(w, steps[..|steps| - 1], t);
      StaleStep(DoAll(w, steps[..|steps| - 1]), steps[|steps| - 1], t);
    }
  }

  /** A result obtained under a claim that has been overtaken or settled is never recorded,
      however much later it arrives: every settling transaction leaves the database as it is. */
  lemma LateResultRejected(w: World, steps: seq<Step>, t: Token, now: Time, status: Status, intake: string)
    requires Stale(w, t)
    ensures var v := DoAll(w, steps);
            && FinishSpec(v.db, w.claims[t].claim, now, status, intake).0 == v.db
            && RetrySpec(v.db, w.claims[t].claim, now).0 == v.db
            && Do(v, Record(t, now)).db == v.db
  {
    hide Do, DoAll, SettleSpec, RetrySpec;
    StaleForever(w, steps, t);
    var v := DoAll(w, steps);
    var c := w.claims[t].claim;
    SettleTouches(v.db, c, now, status, intake, None);
    RetryTouches(v.db, c, now);
    RecordTouches(v, t, now);
  }

  /** Taking an expired event over makes the previous claim stale at once. */
  lemma OvertakenIsStale(w: World, s: Step, t: Token)
    requires t in w.claims && w.claims[t].claim.token == t
    requires s.Take? && s.id == w.claims[t].claim.id && s.token !in w.claims && s.id in w.db.events
             && Eligible(w.db.events[s.id], s.now)
    ensures Stale(Do(w, s), t)
  {
  }

  /** An accepted settlement makes its own claim stale: one claim records at most one attempt. */
  lemma SettledIsStale(w: World, t: Token, now: Time)
    requires t in w.claims && w.claims[t].claim.token == t && Do(w, Record(t, now)).db != w.db
    ensures Stale(Do(w, Record(t, now)), t)
  {
    hide History, RetrySpec, FinishSpec, DeliveredSpec;
    RecordTouches(w, t, now);
  }

  // ---------------------------------------------------------------- what is delivered

  /** Every command sent to the contract system carries the business values of an authority row
      that was in the accepted signed state and at least as new as the event. */
  lemma ClearedFromAuthority(w: World, t: Token, now: Time, readOk: bool)
    requires t in w.claims && w.claims[t].stage.Claimed?
    requires Do(w, Check(t, now, readOk)).claims[t].stage.Cleared?
    ensures var c := w.claims[t].claim;
            var command := Do(w, Check(t, now, readOk)).claims[t].stage.command;
            && Fenced(w.db, c, now) && command.occurredAt == w.db.events[c.id].createdAt
               && command.event == c.id == Stable(command.tenant, command.opportunity, command.version)
            && (command.tenant, command.opportunity) in w.db.opportunities
            && var o := w.db.opportunities[(command.tenant, command.opportunity)];
               && o.signed && o.closed && o.version >= command.version && !o.deleted && !o.terminalPending
               && command.contractRef == o.contractRef && command.amount == o.amount
               && command.customer == o.customer && command.number == o.number
  {
  }

  lemma Unsettled(w: World, t: Token)
    requires Inv(w) && t in w.claims
    ensures w.claims[t].claim.id in w.db.events
  {
    hide Accounts, LocksOk, SentOk;
  }

  /** An opportunity that left the signed state sends its event straight to DEAD_LETTER, unless an
      operator has put the event back before; either way the contract system is not called. */
  lemma UnsignedIsDeadLettered(w: World, t: Token, now: Time, later: Time)
    requires Inv(w) && t in w.claims && w.claims[t].stage.Claimed?
    requires Fenced(w.db, w.claims[t].claim, now) && Fenced(w.db, w.claims[t].claim, later)
    requires var e := w.db.events[w.claims[t].claim.id];
             SelfConsistent(w.claims[t].claim.id, e)
             && var key := (e.tenant, e.payload.value.opportunity);
                key in w.db.opportunities && !StillSigned(w.db.opportunities[key], e.payload.value.version)
    ensures var v := Do(Do(w, Check(t, now, true)), Record(t, later));
            && w.claims[t].claim.id in v.db.events && v.calls == w.calls
            && (v.db.events[w.claims[t].claim.id].status == DEAD_LETTER <==> w.claims[t].claim.id !in w.requeued)
  {
    hide Inv, Recorded, StillSigned, SelfConsistent, History;
    var v := Do(w, Check(t, now, true));
    assert v.db == w.db && v.calls == w.calls && t in v.claims && v.claims[t] == w.claims[t].(stage := Refused);
    RecordIs(v, t, later);
    AcceptedIffNeverRequeued(w, t, later, DEAD_LETTER, "", None);
    Unsettled(w, t);
  }

  // ---------------------------------------------------------------- the worker is one of the world's

  lemma {:induction false} DoAllConcat(w: World, a: seq<Step>, b: seq<Step>)
    ensures DoAll(w, a + b) == DoAll(DoAll(w, a), b)
  {
    hide Do;
    if b == [] {
      assert a + b == a;
    } else {
      var ab := a + b;
      assert ab[..|ab| - 1] == a + b[..|b| - 1];
      DoAllConcat(w, a, b[..|b| - 1]);
    }
  }

  lemma DoOne(w: World, a: Step)
    ensures DoAll(w, [a]) == Do(w, a)
  {
    assert [a][..0] == [];
  }

  lemma DoFour(w: World, a: Step, b: Step, c: Step, d: Step)
    ensures DoAll(w, [a, b, c, d]) == Do(Do(Do(Do(w, a), b), c), d)
  {
    hide Do;
    assert [a, b, c, d][..3] == [a, b, c] && [a, b, c][..2] == [a, b] && [a, b][..1] == [a];
    DoOne(w, a);
    assert DoAll(w, [a, b]) == Do(DoAll(w, [a]), b);
    assert DoAll(w, [a, b, c]) == Do(DoAll(w, [a, b]), c);
  }

  lemma TurnIsWorldRun(w: World, t: Turn) returns (steps: seq<Step>)
    requires t.token !in w.claims
    ensures DoAll(w, steps).db == TurnSpec(w.db, t).0
    ensures DoAll(w, steps).claims.Keys <= w.claims.Keys + {t.token}
  {
    hide ClaimSpec, AuthoritySpec, RetrySpec, FinishSpec;
    var (claimed, claim) := ClaimSpec(w.db, t.id, t.token, t.claimedAt, t.lease);
    var at := if claim.Some? && AuthoritySpec(claimed, claim.value, t.now, t.readOk).Ready?
              then t.finishedAt else t.now;
    var take, check, deliver, record :=
      Take(t.id, t.token, t.claimedAt, t.lease), Check(t.token, t.now, t.readOk), Deliver(t.token, t.delivery),
          Record(t.token, at);
    steps := [take, check, deliver, record];
    DoFour(w, take, check, deliver, record);
  }

  /** A poll with no other worker in between is a run of the world, whatever it is handed and told: so
      everything proved of all runs holds of it. */
  lemma {:induction false} PollIsWorldRun(w: World, turns: seq<Turn>) returns (steps: seq<Step>)
    requires forall i :: 0 <= i < |turns| ==> turns[i].token !in w.claims
    requires forall i, j :: 0 <= i < j < |turns| ==> turns[i].token != turns[j].token
    ensures DoAll(w, steps).db == PollSpec(w.db, turns).0
    ensures DoAll(w, steps).claims.Keys <= w.claims.Keys + set t | t in turns :: t.token
  {
    hide Do, TurnSpec;
    if turns == [] {
      steps := [];
    } else {
      var n := |turns| - 1;
      steps := PollIsWorldRun(w, turns[..n]);
      var v := DoAll(w, steps);
      assert forall t :: t in turns[..n] ==> t in turns;
      if PollSpec(w.db, turns[..n]).1 {
        var more := TurnIsWorldRun(v, turns[n]);
        DoAllConcat(w, steps, more);
        steps := steps + more;
      }
    }
  }

  // ---------------------------------------------------------------- the operator's retry, run out

  lemma {:induction false} FreshToken(used: set<Token>) returns (t: Token)
    ensures forall u :: u in used ==> u < t
  {
    if used == {} {
      t := 0;
    } else {
      var u :| u in used;
      t := FreshToken(used - {u});
      if t <= u { t := u + 1; }
      assert forall v :: v in used ==> v == u || v in used - {u};
    }
  }

  /** An authorised event: its own payload and the opportunity's row agree with its identity. */
  predicate Authorised(db: Db, id: EventId) {
    && id in db.events && SelfConsistent(id, db.events[id])
    && var key := (db.events[id].tenant, db.events[id].payload.value.opportunity);
       key in db.opportunities && StillSigned(db.opportunities[key], db.events[id].payload.value.version)
  }

  function Leased(e: Event, t: Token, now: Time): Event {
    e.(status := PROCESSING, lockedBy := Some(t), lockedUntil := now)
  }

  lemma StillAuthorised(db: Db, db': Db, id: EventId)
    requires Authorised(db, id) && id in db'.events && db'.opportunities == db.opportunities
    requires db'.events[id].tenant == db.events[id].tenant && db'.events[id].payload == db.events[id].payload
    requires db'.events[id].aggregateType == db.events[id].aggregateType
             && db'.events[id].aggregate == db.events[id].aggregate
    ensures Authorised(db', id)
  {
    hide Decimal, StillSigned;
  }

  /** A claim of an authorised event, its check and its delivery, up to where the result is recorded. */
  lemma TurnUpToResult(w: World, id: EventId, t: Token, now: Time, d: Delivery) returns (steps: seq<Step>)
    requires Inv(w) && Authorised(w.db, id) && Eligible(w.db.events[id], now) && t !in w.claims
    ensures var v := DoAll(w, steps);
            && Inv(v) && Authorised(v.db, id) && v.requeued == w.requeued
            && v.db.events[id] == Leased(w.db.events[id], t, now) && v.db.attempts == w.db.attempts
            && t in v.claims && v.claims[t].claim == Claim(id, t, w.db.events[id].retryCount)
            && v.claims[t].stage.Answered? && v.claims[t].stage.delivery == d
            && |v.calls| == |w.calls| + 1 && v.calls[|w.calls|].event == id && v.calls[..|w.calls|] == w.calls
            && Fenced(v.db, v.claims[t].claim, now)
  {
    hide Inv, SelfConsistent, StillSigned;
    var take, check, deliver := Take(id, t, now, 0), Check(t, now, true), Deliver(t, d);
    steps := [take, check, deliver];
    DoThree(w, take, check, deliver);
    var taken := Do(w, take);
    StillAuthorised(w.db, taken.db, id);
    StepKeeps(w, take);
    StepKeeps(taken, check);
    StepKeeps(Do(taken, check), deliver);
  }

  lemma DoAllOne(w: World, steps: seq<Step>, s: Step)
    ensures DoAll(w, steps + [s]) == Do(DoAll(w, steps), s)
  {
    assert (steps + [s])[..|steps|] == steps;
  }

  /** One turn of a worker on a requeued event: the contract system is called, and accepts, and the
      event is left as if it had not been. */
  lemma RequeuedTurn(w: World, id: EventId) returns (steps: seq<Step>)
    requires Inv(w) && id in w.requeued && Authorised(w.db, id)
    ensures var v := DoAll(w, steps);
            && Inv(v) && id in v.requeued && Authorised(v.db, id)
            && |v.calls| == |w.calls| + 1 && v.calls[|w.calls|].event == id && v.calls[..|w.calls|] == w.calls
  {
    hide Inv, History, Authorised, SettleSpec, Do;
    var t := FreshToken(w.claims.Keys);
    RequeuedExists(w, id);
    var now := RequeuedIsEligible(w, id);
    steps := TurnUpToResult(w, id, t, now, Accepted(""));
    var v := DoAll(w, steps);
    RecordIs(v, t, now);
    AcceptedIffNeverRequeued(v, t, now, SENT, "", None);
    StepKeeps(v, Record(t, now));
    DoAllOne(w, steps, Record(t, now));
    StillThere(v, Record(t, now));
    assert Do(v, Record(t, now)).db == v.db;
    steps := steps + [Record(t, now)];
  }

  lemma RequeuedExists(w: World, id: EventId)
    requires Inv(w) && id in w.requeued
    ensures id in w.db.events
  {
    hide Account, ClaimsOk, LocksOk, SentOk;
  }

  lemma RequeuedIsEligible(w: World, id: EventId) returns (now: Time)
    requires Inv(w) && id in w.requeued && id in w.db.events
    ensures Eligible(w.db.events[id], now)
  {
    hide Inv, History;
    AccountOf(w, id);
    now := w.db.events[id].lockedUntil + 1;
  }

  /** For every n there is a run in which a requeued event is delivered n more times and accepted every
      time, while the event stays unsettled: each time its first attempt number is already taken. */
  lemma {:induction false} RequeuedIsDeliveredForever(w: World, id: EventId, n: nat) returns (steps: seq<Step>)
    requires Inv(w) && id in w.requeued && Authorised(w.db, id)
    ensures var v := DoAll(w, steps);
            && Inv(v) && id in v.requeued && Authorised(v.db, id)
            && |v.calls| == |w.calls| + n && forall i :: |w.calls| <= i < |v.calls| ==> v.calls[i].event == id
  {
    hide Inv, Do, Authorised;
    if n == 0 {
      steps := [];
    } else {
      steps := RequeuedIsDeliveredForever(w, id, n - 1);
      var v := DoAll(w, steps);
      var more := RequeuedTurn(v, id);
      DoAllConcat(w, steps, more);
      var u := DoAll(v, more);
      forall i | |w.calls| <= i < |u.calls| ensures u.calls[i].event == id {
        if i < |v.calls| { assert u.calls[i] == u.calls[..|v.calls|][i]; }
      }
      steps := steps + more;
    }
  }

  lemma Enqueued(w: World, tenant: string, opportunity: nat, version: nat, o: Opportunity) returns (steps: seq<Step>)
    requires Initial(w) && StillSigned(o, version)
    ensures var v, id := DoAll(w, steps), Stable(tenant, opportunity, version);
            && Inv(v) && Authorised(v.db, id) && Eligible(v.db.events[id], 0) && v.db.events[id].retryCount == 0
            && v.claims == map[] && v.calls == [] && v.requeued == {} && v.db.attempts == []
  {
    hide Decimal, StillSigned, Inv;
    var id := Stable(tenant, opportunity, version);
    var e := Event(tenant, "opportunity", Decimal(opportunity), Some(Payload(opportunity, version)), 0, PENDING, 0,
                   None, None, 0);
    steps := [Enqueue(id, e), Edit((tenant, opportunity), o)];
    InvAlways(w, steps);
    DoOne(w, steps[0]);
    DoAllOne(w, [steps[0]], steps[1]);
    assert [steps[0]] + [steps[1]] == steps;
  }

  /** The endpoint leads there from any empty database: an event refused for good and put back has one
      attempt row and a retry_count of 0. */
  lemma RequeueRun(w: World, tenant: string, opportunity: nat, version: nat, o: Opportunity) returns (steps: seq<Step>)
    requires Initial(w) && StillSigned(o, version)
    ensures var v, id := DoAll(w, steps), Stable(tenant, opportunity, version);
            && Inv(v) && id in v.requeued && Authorised(v.db, id) && |v.calls| == 1
            && |History(v.db.attempts, id)| == 1 && v.db.events[id].retryCount == 0
  {
    hide Inv, History, Authorised, StillSigned, Do, SettleSpec;
    var id := Stable(tenant, opportunity, version);
    var first := Enqueued(w, tenant, opportunity, version, o);
    var u := DoAll(w, first);
    var turn := TurnUpToResult(u, id, 0, 0, Permanent);
    DoAllConcat(w, first, turn);
    var v := DoAll(u, turn);
    StepKeeps(v, Record(0, 0));
    DoAllOne(w, first + turn, Record(0, 0));
    FirstDeath(v, id);
    var dead := Do(v, Record(0, 0));
    StepKeeps(dead, Requeue(id));
    DoAllOne(w, first + turn + [Record(0, 0)], Requeue(id));
    Restart(dead, id);
    steps := first + turn + [Record(0, 0)] + [Requeue(id)];
  }

  lemma FirstDeath(v: World, id: EventId)
    requires Inv(v) && Authorised(v.db, id) && id !in v.requeued && v.db.attempts == []
    requires 0 in v.claims && v.claims[0].claim == Claim(id, 0, 0) && v.claims[0].stage.Answered?
             && v.claims[0].stage.delivery == Permanent
    requires Fenced(v.db, v.claims[0].claim, 0)
    ensures var u := Do(v, Record(0, 0));
            && u.calls == v.calls && Authorised(u.db, id) && u.db.events[id].status == DEAD_LETTER
            && u.db.attempts == [Attempt(id, 1, DEAD_LETTER, "", 0)] && u.requeued == v.requeued
  {
    hide Inv, Authorised, History, Do, Recorded;
    RecordIs(v, 0, 0);
    AcceptedIffNeverRequeued(v, 0, 0, DEAD_LETTER, "", None);
    var db := SettleSpec(v.db, v.claims[0].claim, 0, DEAD_LETTER, "", None).0;
    assert OutcomeOf(v.claims[0], 0) == Some(Outcome(DEAD_LETTER, "", None));
    StillAuthorised(v.db, db, id);
  }

  lemma Restart(dead: World, id: EventId)
    requires Authorised(dead.db, id) && dead.db.events[id].status == DEAD_LETTER
    requires dead.db.attempts == [Attempt(id, 1, DEAD_LETTER, "", 0)]
    ensures var u := Do(dead, Requeue(id));
            && u.calls == dead.calls && id in u.requeued && Authorised(u.db, id) && u.db.events[id].retryCount == 0
            && |History(u.db.attempts, id)| == 1
  {
    hide SelfConsistent, StillSigned;
    StillAuthorised(dead.db, Do(dead, Requeue(id)).db, id);
    var a := Attempt(id, 1, DEAD_LETTER, "", 0);
    HistorySnoc([], a, id);
    assert [] + [a] == [a];
  }

  lemma DoThree(w: World, a: Step, b: Step, c: Step)
    ensures DoAll(w, [a, b, c]) == Do(Do(Do(w, a), b), c)
  {
    hide Do;
    assert [a, b, c][..2] == [a, b] && [a, b][..1] == [a];
    DoOne(w, a);
    assert DoAll(w, [a, b]) == Do(DoAll(w, [a]), b);
  }
}
