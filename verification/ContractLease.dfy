/** The contract transfer lease: while it runs the row is its holder's alone, and what the holder
  * records is decided by what it was told.
  */
module ContractLease {
  import opened Wrappers
  import opened ContractTransfer
  import opened ContractLedger

  // ---------------------------------------------------------------- exclusion

  /** The row is in work under this token, and its lease runs at least until `until`. */
  predicate InWork(w: World, id: EventId, t: Token, until: Time) {
    && id in w.db.events && w.db.events[id].status == PROCESSING && w.db.events[id].lockedBy == Some(t)
    && until <= w.db.events[id].lockedUntil
  }

  /** Nobody claims an event whose lease has not run out: asking changes nothing at all. */
  lemma LeaseExcludes(w: World, id: EventId, t: Token, token: Token, now: Time, lease: Time)
    requires InWork(w, id, t, now)
    ensures Do(w, Take(id, token, now, lease)) == w
    ensures ClaimSpec(w.db, id, token, now, lease) == (w.db, None)
  {
  }

  /** And once it has run out the next one who asks gets it, under its own token and lease. */
  lemma ExpiredIsTaken(w: World, id: EventId, token: Token, now: Time, lease: Time)
    requires id in w.db.events && w.db.events[id].status == PROCESSING && w.db.events[id].lockedUntil < now
    requires token !in w.claims
    ensures InWork(Do(w, Take(id, token, now, lease)), id, token, now + lease)
  {
  }

  lemma OnlyTheHolder(w: World, s: Step, id: EventId, t: Token)
    requires Inv(w) && id in w.db.events && InWork(w, id, t, w.db.events[id].lockedUntil)
    requires s.Take? ==> s.now <= w.db.events[id].lockedUntil
    requires !(s.Record? && s.token == t && s.now <= w.db.events[id].lockedUntil)
    ensures id in Do(w, s).db.events && Do(w, s).db.events[id] == w.db.events[id]
    ensures History(Do(w, s).db.attempts, id) == History(w.db.attempts, id)
  {
    hide Inv, History, AuthoritySpec, RetrySpec, FinishSpec, DeliveredSpec;
    if s.Record? && s.token in w.claims {
      ClaimOf(w, s.token);
      RecordTouches(w, s.token, s.now);
      NotFenced(w, s, id, t);
    }
  }

  lemma NotFenced(w: World, s: Step, id: EventId, t: Token)
    requires s.Record? && s.token in w.claims && w.claims[s.token].claim.token == s.token
    requires id in w.db.events && InWork(w, id, t, w.db.events[id].lockedUntil)
    requires !(s.token == t && s.now <= w.db.events[id].lockedUntil)
    ensures w.claims[s.token].claim.id == id ==> !Fenced(w.db, w.claims[s.token].claim, s.now)
  {
  }

  /** The holder's recording in time: the i-th step, with nothing done to the row before it. */
  predicate FirstRecorded(w: World, steps: seq<Step>, id: EventId, t: Token, until: Time, i: nat) {
    && i < |steps| && steps[i].Record? && steps[i].token == t && steps[i].now <= until
    && id in DoAll(w, steps[..i]).db.events && id in w.db.events
    && DoAll(w, steps[..i]).db.events[id] == w.db.events[id]
    && History(DoAll(w, steps[..i]).db.attempts, id) == History(w.db.attempts, id)
  }

  /** Over every run in which nobody looks for expired work after the end of the lease, the row and its
      attempts stay as they are until its holder records a result within the lease. */
  lemma {:induction false} UntouchedUntilRecorded(w: World, steps: seq<Step>, id: EventId, t: Token)
    requires Inv(w) && id in w.db.events && InWork(w, id, t, w.db.events[id].lockedUntil)
    requires forall s :: s in steps && s.Take? ==> s.now <= w.db.events[id].lockedUntil
    ensures || (&& id in DoAll(w, steps).db.events && DoAll(w, steps).db.events[id] == w.db.events[id]
                && History(DoAll(w, steps).db.attempts, id) == History(w.db.attempts, id))
            || exists i :: 0 <= i < |steps| && FirstRecorded(w, steps, id, t, w.db.events[id].lockedUntil, i)
  {
    hide Inv, Do, History;
    var until := w.db.events[id].lockedUntil;
    if steps != [] {
      var n := |steps| - 1;
      assert forall s :: s in steps[..n] ==> s in steps;
      UntouchedUntilRecorded(w, steps[..n], id, t);
      var v := DoAll(w, steps[..n]);
      if i :| 0 <= i < n && FirstRecorded(w, steps[..n], id, t, until, i) {
        assert steps[..n][..i] == steps[..i];
        assert FirstRecorded(w, steps, id, t, until, i);
      } else {
        InvFrom(w, steps[..n]);
        if steps[n].Record? && steps[n].token == t && steps[n].now <= until {
          assert FirstRecorded(w, steps, id, t, until, n);
        } else {
          assert steps[n] in steps;
          OnlyTheHolder(v, steps[n], id, t);
        }
      }
    }
  }

  lemma {:induction false} InvFrom(w: World, steps: seq<Step>)
    requires Inv(w)
    ensures Inv(DoAll(w, steps))
  {
    hide Inv, Do;
    if steps != [] {
      InvFrom(w, steps[..|steps| - 1]);
      StepKeeps(DoAll(w, steps[..|steps| - 1]), steps[|steps| - 1]);
    }
  }

  // ---------------------------------------------------------------- what is recorded

  /** How long an event waits after its n-th failure; there is no wait after the seventh. */
  function WaitAfter(n: nat): Option<Time> {
    if n == 1 then Some(60) else if n == 2 then Some(300) else if n == 3 then Some(900)
    else if n == 4 then Some(3600) else if n == 5 then Some(10800) else if n == 6 then Some(21600) else None
  }

  predicate Released(e: Event, status: Status, count: nat, next: Option<Time>) {
    e.status == status && e.retryCount == count && e.nextRetryAt == next && e.lockedBy == None
  }

  /** A failed turn: the event waits for its next try, or is dead after the seventh failure. */
  predicate Failed(e: Event, count: nat, now: Time) {
    if WaitAfter(count).Some? then Released(e, RETRY_WAIT, count, Some(now + WaitAfter(count).value))
    else Released(e, DEAD_LETTER, count, None)
  }

  /** What becomes of an event by what its holder was told: an accepted transfer is SENT; one that was
      refused, by the contract system or by the authority check, is dead; one that could not be made or
      decided waits as the schedule says. */
  predicate Told(stage: Stage, e: Event, count: nat, now: Time) {
    match stage
    case Answered(_, Accepted(_)) => Released(e, SENT, count, None)
    case Answered(_, Permanent) => Released(e, DEAD_LETTER, count, None)
    case Answered(_, Transient) => Failed(e, count, now)
    case Refused => Released(e, DEAD_LETTER, count, None)
    case Unread => Failed(e, count, now)
    case _ => false
  }

  function IntakeOf(stage: Stage): string {
    if stage.Answered? && stage.delivery.Accepted? then stage.delivery.intake else ""
  }

  /** From `w` to `v` one attempt was written and the event did what its holder was told. */
  predicate Follows(w: World, v: World, id: EventId, stage: Stage, now: Time) {
    && id in w.db.events && id in v.db.events
    && var e, count := v.db.events[id], w.db.events[id].retryCount + 1;
       && Told(stage, e, count, now)
       && v.db.attempts == w.db.attempts + [Attempt(id, count, e.status, IntakeOf(stage), now)]
  }

  /** The holder of an event never put back records, in time, exactly what it was told. */
  lemma ResultIs(w: World, t: Token, now: Time)
    requires Inv(w) && t in w.claims && InWork(w, w.claims[t].claim.id, t, now)
    requires w.claims[t].claim.id !in w.requeued
    requires w.claims[t].stage.Answered? || w.claims[t].stage.Refused? || w.claims[t].stage.Unread?
    ensures Follows(w, Do(w, Record(t, now)), w.claims[t].claim.id, w.claims[t].stage, now)
  {
    hide Inv, Recorded, History;
    var c := w.claims[t].claim;
    ClaimOf(w, t);
    AccountOf(w, c.id);
    RecordIs(w, t, now);
    Delays(c.retryCount);
    var o := OutcomeOf(w.claims[t], now).value;
    AcceptedIffNeverRequeued(w, t, now, o.status, o.intake, o.next);
  }

  lemma Delays(n: nat)
    requires n <= 6
    ensures |DELAYS| == 6 && (n < 6 ==> WaitAfter(n + 1) == Some(DELAYS[n])) && WaitAfter(7) == None
  {
  }

  /** After the end of its lease a claimant records nothing, even if nobody has taken the row over. */
  lemma TooLate(w: World, t: Token, now: Time)
    requires t in w.claims && w.claims[t].claim.id in w.db.events && now > w.db.events[w.claims[t].claim.id].lockedUntil
    ensures Do(w, Record(t, now)).db == w.db
  {
    hide SettleSpec, RetrySpec, FinishSpec, DeliveredSpec, History;
    RecordTouches(w, t, now);
  }

  /** So a failed event is handed out again only after its wait. */
  lemma WaitsItsTurn(w: World, t: Token, now: Time, token: Token, later: Time, lease: Time)
    requires Inv(w) && t in w.claims && InWork(w, w.claims[t].claim.id, t, now)
    requires w.claims[t].claim.id !in w.requeued && w.claims[t].stage.Answered? && w.claims[t].stage.delivery.Transient?
    requires token !in w.claims && w.db.events[w.claims[t].claim.id].retryCount < 6
    ensures var id, v := w.claims[t].claim.id, Do(w, Record(t, now));
            && id in v.db.events && WaitAfter(v.db.events[id].retryCount).Some?
            && (Do(v, Take(id, token, later, lease)) != v <==>
                  later >= now + WaitAfter(v.db.events[id].retryCount).value)
  {
    hide Inv, Recorded, History, SettleSpec, RetrySpec, FinishSpec, DeliveredSpec;
    ResultIs(w, t, now);
    var v := Do(w, Record(t, now));
    var id := w.claims[t].claim.id;
    assert v.claims.Keys == w.claims.Keys;
    TakenIff(v, id, token, later, lease);
  }

  lemma TakenIff(v: World, id: EventId, token: Token, now: Time, lease: Time)
    requires id in v.db.events && token !in v.claims
    ensures Do(v, Take(id, token, now, lease)) != v <==>
              var e := v.db.events[id];
              || ((e.status == PENDING || e.status == RETRY_WAIT)
                  && (e.nextRetryAt.None? || e.nextRetryAt.value <= now))
              || (e.status == PROCESSING && e.lockedUntil < now)
  {
    var (db, claim) := ClaimSpec(v.db, id, token, now, lease);
    if claim.Some? { assert token in Do(v, Take(id, token, now, lease)).claims; }
  }
}
