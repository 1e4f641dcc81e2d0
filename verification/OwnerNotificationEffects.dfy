/** What becomes of an owner-change event, in terms of its row, the audit trail, the opportunity and the
  * clock.
  */
module OwnerNotificationEffects {
  import opened Wrappers
  import opened OwnerNotification
  import opened OwnerNotificationLaws
  import Splitter

  // ---------------------------------------------------------------- the lease

  /** The event is in work by this worker, and its lease runs at least until `until`. */
  predicate InWork(db: Db, id: EventId, worker: string, until: Time) {
    && id in db.events && db.events[id].status == PROCESSING && db.events[id].lockedBy == worker
    && db.events[id].lockedUntil.Some? && until <= db.events[id].lockedUntil.value
  }

  /** Exactly which events are handed out: due ones and those whose lease has run out; the taker then holds
      the event for the length of its lease. */
  lemma ClaimedIff(db: Db, id: EventId, worker: string, now: Time, lease: Time)
    ensures var (after, claimed) := ClaimSpec(db, id, worker, now, lease);
            && (claimed.Some? <==>
                  && id in db.events
                  && var e := db.events[id];
                     || ((e.status == PENDING || e.status == RETRY_WAIT)
                         && (e.nextRetryAt == None || e.nextRetryAt.value <= now))
                     || (e.status == PROCESSING && e.lockedUntil.Some? && e.lockedUntil.value < now))
            && (claimed.None? ==> after == db)
            && (claimed.Some? ==>
                  InWork(after, id, worker, now + lease) && claimed.value == after.events[id].retryCount
                  && after.events[id].retryCount == db.events[id].retryCount)
  {
  }

  /** Nobody claims an event whose lease has not run out: asking changes nothing at all. */
  lemma LeaseExcludes(w: World, id: EventId, worker: string, other: string, now: Time, lease: Time)
    requires InWork(w.db, id, worker, now)
    ensures Do(w, Take(id, other, now, lease)) == w
  {
  }

  /** A worker whose lease has run out changes nothing, even if nobody has taken the event over. */
  lemma TooLate(db: Db, item: Item, worker: string)
    requires item.id in db.events && db.events[item.id].lockedUntil.Some?
    requires db.events[item.id].lockedUntil.value < item.at && db.events[item.id].lockedUntil.value < item.retryAt
    ensures ItemSpec(db, item, worker) == (db, LeaseLost)
  {
    LateWorkerRejected(db, item, worker);
  }

  predicate HandlesInTime(s: Step, id: EventId, worker: string, until: Time) {
    s.Handle? && s.worker == worker && s.item.id == id && (s.item.at <= until || s.item.retryAt <= until)
  }

  lemma OnlyTheHolder(w: World, s: Step, id: EventId, worker: string, until: Time)
    requires InWork(w.db, id, worker, until) && w.db.events[id].lockedUntil == Some(until)
    requires (s.Take? ==> s.now <= until) && !HandlesInTime(s, id, worker, until)
    ensures id in Do(w, s).db.events && Do(w, s).db.events[id] == w.db.events[id]
  {
    hide ItemSpec, Decimal;
    if s.Handle? { OthersLeave(w.db, s.item, s.worker, id, worker, until); }
  }

  lemma OthersLeave(db: Db, item: Item, who: string, id: EventId, worker: string, until: Time)
    requires InWork(db, id, worker, until) && db.events[id].lockedUntil == Some(until)
    requires !(who == worker && item.id == id && (item.at <= until || item.retryAt <= until))
    ensures var db' := ItemSpec(db, item, who).0; id in db'.events && db'.events[id] == db.events[id]
  {
    hide Judge, Project;
  }

  predicate HandledAt(w: World, steps: seq<Step>, id: EventId, worker: string, until: Time, i: nat) {
    && i < |steps| && HandlesInTime(steps[i], id, worker, until)
    && id in w.db.events && id in DoAll(w, steps[..i]).db.events
    && DoAll(w, steps[..i]).db.events[id] == w.db.events[id]
  }

  /** Over every run in which nobody looks for expired work after the end of the lease, the event stays as
      it is until its holder handles it within the lease. */
  lemma {:induction false} UntouchedUntilHandled(w: World, steps: seq<Step>, id: EventId, worker: string, until: Time)
    requires InWork(w.db, id, worker, until) && w.db.events[id].lockedUntil == Some(until)
    requires forall s :: s in steps && s.Take? ==> s.now <= until
    ensures || (id in DoAll(w, steps).db.events && DoAll(w, steps).db.events[id] == w.db.events[id])
            || exists i :: 0 <= i < |steps| && HandledAt(w, steps, id, worker, until, i)
  {
    hide Do, HandlesInTime;
    if steps != [] {
      var n := |steps| - 1;
      assert forall s :: s in steps[..n] ==> s in steps;
      UntouchedUntilHandled(w, steps[..n], id, worker, until);
      if i :| 0 <= i < n && HandledAt(w, steps[..n], id, worker, until, i) {
        assert steps[..n][..i] == steps[..i];
        assert HandledAt(w, steps, id, worker, until, i);
      } else if HandlesInTime(steps[n], id, worker, until) {
        assert HandledAt(w, steps, id, worker, until, n);
      } else {
        assert steps[n] in steps;
        OnlyTheHolder(DoAll(w, steps[..n]), steps[n], id, worker, until);
      }
    }
  }

  // ---------------------------------------------------------------- the verdict

  /** The event names itself consistently: one opportunity, one version, one party. */
  predicate Sound(id: EventId, e: Event) {
    && e.payload.Some?
    && var p := e.payload.value;
       && p.opportunity > 0 && p.version > 0
       && e.aggregateType == "opportunity" && e.aggregate == Decimal(p.opportunity)
       && id == Stable(e.tenant, p.opportunity, p.version, p.kind)
       && (p.kind == "PREVIOUS_OWNER" || p.kind == "NEW_OWNER")
       && Splitter.Trim(p.recipient) != "" && Splitter.Trim(p.owner) != ""
  }

  /** Row i of the trail is the newest of this version of the opportunity. */
  predicate NewestOf(audits: seq<Audit>, key: Key, version: nat, i: nat) {
    && i < |audits| && audits[i].key == key && audits[i].version == version
    && forall j :: i < j < |audits| && audits[j].key == key ==> audits[j].version != version
  }

  /** The trail bears the event out: to the new owner, or to the previous one if there was a change. */
  predicate Proved(audits: seq<Audit>, key: Key, p: Payload, i: nat) {
    && NewestOf(audits, key, p.version, i) && audits[i].after == p.owner
    && (p.kind == "NEW_OWNER" ==> p.recipient == p.owner)
    && (p.kind == "PREVIOUS_OWNER" ==> p.recipient == audits[i].before && p.recipient != p.owner)
  }

  predicate HasProof(audits: seq<Audit>, key: Key, p: Payload) {
    exists i :: 0 <= i < |audits| && Proved(audits, key, p, i)
  }

  /** Nothing has happened to the opportunity's owner since, and it is still live. */
  predicate StillTrue(db: Db, key: Key, p: Payload) {
    && key in db.opportunities
    && var o := db.opportunities[key];
       && o.active && o.owner == p.owner && o.version >= p.version
       && forall i, j :: 0 <= i < j < |db.audits| && NewestOf(db.audits, key, p.version, i) ==> db.audits[j].key != key
  }

  lemma ProofIsAudit(audits: seq<Audit>, key: Key, p: Payload)
    ensures HasProof(audits, key, p) <==>
              && AuditOf(audits, key, p.version).Some?
              && Proved(audits, key, p, AuditOf(audits, key, p.version).value)
    ensures forall i: nat :: NewestOf(audits, key, p.version, i) ==> AuditOf(audits, key, p.version) == Some(i)
  {
    var i := AuditOf(audits, key, p.version);
    if i.Some? { assert NewestOf(audits, key, p.version, i.value); }
    forall k: nat | NewestOf(audits, key, p.version, k) ensures i == Some(k) {}
  }

  lemma JudgeIs(db: Db, id: EventId)
    requires id in db.events
    ensures var e, j := db.events[id], Judge(db, id);
            && (j.Unfounded? <==>
                  || !Sound(id, e)
                  || ((e.tenant, e.payload.value.opportunity) in db.opportunities
                      && !HasProof(db.audits, (e.tenant, e.payload.value.opportunity), e.payload.value)))
            && (j.Valid? <==>
                  && Sound(id, e)
                  && var key := (e.tenant, e.payload.value.opportunity);
                     HasProof(db.audits, key, e.payload.value) && StillTrue(db, key, e.payload.value))
            && (j.Valid? ==> j.payload == e.payload.value)
  {
    hide Splitter.Trim, Decimal, HasProof, StillTrue, Matches, AuditOf, Superseded;
    var e := db.events[id];
    assert SelfConsistent(id, e) <==> Sound(id, e);
    if Sound(id, e) {
      var p := e.payload.value;
      var key := (e.tenant, p.opportunity);
      ProofIs(db, key, p);
      if AuditOf(db.audits, key, p.version).Some? { StillTrueIs(db, key, p); }
    }
  }

  lemma ProofIs(db: Db, key: Key, p: Payload)
    requires p.kind == "PREVIOUS_OWNER" || p.kind == "NEW_OWNER"
    ensures var i := AuditOf(db.audits, key, p.version);
            && (HasProof(db.audits, key, p) <==> i.Some? && Matches(db.audits[i.value], p))
            && (i.Some? && Matches(db.audits[i.value], p) ==> db.audits[i.value].after == p.owner)
  {
    hide AuditOf;
    ProofIsAudit(db.audits, key, p);
    var i := AuditOf(db.audits, key, p.version);
    if i.Some? { assert NewestOf(db.audits, key, p.version, i.value); }
  }

  lemma StillTrueIs(db: Db, key: Key, p: Payload)
    requires AuditOf(db.audits, key, p.version).Some?
    ensures var i := AuditOf(db.audits, key, p.version).value;
            StillTrue(db, key, p) <==>
              && key in db.opportunities && !Superseded(db.audits, key, i)
              && var o := db.opportunities[key]; o.active && o.owner == p.owner && o.version >= p.version
  {
    hide AuditOf;
    ProofIsAudit(db.audits, key, p);
    assert NewestOf(db.audits, key, p.version, AuditOf(db.audits, key, p.version).value);
  }

  /** What the worker's transaction does to an event it holds, and when.  Told: the event is sound, proved and
      still true, and then the party has its notification and the older unread ones are withdrawn.
      Cancelled: it was overtaken, or its opportunity is gone.  Dead: it is unsound or unproved. */
  lemma ProcessedAs(db: Db, id: EventId, worker: string, now: Time)
    requires InWork(db, id, worker, now)
    ensures var (after, o) := ProcessSpec(db, id, worker, now, false);
            var e := db.events[id];
            && o == Done && id in after.events
            && var e' := after.events[id];
               && (e'.status == DEAD_LETTER <==> Judge(db, id).Unfounded?)
               && (e'.status == SENT <==> Judge(db, id).Valid?)
               && (e'.status == CANCELLED <==> Judge(db, id).Obsolete?)
               && e'.retryCount == e.retryCount + (if e'.status == DEAD_LETTER then 1 else 0)
               && e'.nextRetryAt == None && e'.lockedBy == "" && e'.lockedUntil == None
               && (e'.status != SENT ==> after.notes == db.notes)
               && (e'.status == SENT ==>
                     && e.payload.Some? && after.notes.Keys == db.notes.Keys + {id}
                     && TellsParty(db.notes, after.notes, id, e.tenant, e.payload.value))
  {
    hide Splitter.Trim, Decimal, AuditOf, Matches, Superseded;
  }

  predicate TellsParty(notes: map<EventId, Note>, notes': map<EventId, Note>, id: EventId, tenant: string, p: Payload) {
    && (id !in notes ==>
          id in notes' && notes'[id] == Note((tenant, p.opportunity), p.version, p.kind, p.recipient, UNREAD))
    && forall n :: n in notes ==>
         && n in notes'
         && notes'[n] == if n != id && notes[n].key == (tenant, p.opportunity) && notes[n].version < p.version
                            && notes[n].status == UNREAD
                         then notes[n].(status := WITHDRAWN) else notes[n]
  }

  // ---------------------------------------------------------------- failures

  /** How long an event waits after its n-th failure; there is no wait after the seventh. */
  function WaitAfter(n: nat): Option<Time> {
    if n == 1 then Some(60) else if n == 2 then Some(300) else if n == 3 then Some(900)
    else if n == 4 then Some(3600) else if n == 5 then Some(10800) else if n == 6 then Some(21600) else None
  }

  /** A transaction that fails counts once against an event the worker still holds, and it waits or dies. */
  lemma FailureCounts(db: Db, item: Item, worker: string)
    requires item.fault && InWork(db, item.id, worker, item.retryAt)
    requires item.retryCount == db.events[item.id].retryCount
    ensures var (after, o) := ItemSpec(db, item, worker);
            && o == Done && item.id in after.events && after.notes == db.notes
            && var e, n := after.events[item.id], item.retryCount + 1;
               && e.retryCount == n && e.lockedBy == "" && e.lockedUntil == None
               && (WaitAfter(n).Some? ==>
                     e.status == RETRY_WAIT && e.nextRetryAt == Some(item.retryAt + WaitAfter(n).value))
               && (WaitAfter(n).None? ==> e.status == DEAD_LETTER && e.nextRetryAt == None)
  {
  }

  // ---------------------------------------------------------------- a batch

  /** The worker's turn finds its event in somebody else's hands, or its own lease run out. */
  predicate LosesLease(db: Db, item: Item, worker: string) {
    !InWork(db, item.id, worker, if item.fault then item.retryAt else item.at)
  }

  lemma LostIff(db: Db, item: Item, worker: string)
    ensures ItemSpec(db, item, worker).1 == LeaseLost <==> LosesLease(db, item, worker)
    ensures ItemSpec(db, item, worker).1 == LeaseLost ==> ItemSpec(db, item, worker).0 == db
  {
    hide Judge, Project;
  }

  /** The first `k` events of the batch were handled, in order, and the worker held each of them. */
  predicate HandledFirst(db: Db, batch: seq<Item>, worker: string, k: nat) {
    && k <= |batch| && !BatchSpec(db, batch[..k], worker).1
    && forall j :: 0 <= j < k ==> HandledNext(db, batch, worker, j)
  }

  predicate HandledNext(db: Db, batch: seq<Item>, worker: string, j: nat)
    requires j < |batch|
  {
    var before := BatchSpec(db, batch[..j], worker).0;
    !LosesLease(before, batch[j], worker)
    && BatchSpec(db, batch[..j + 1], worker).0 == ItemSpec(before, batch[j], worker).0
  }

  /** A batch goes on exactly until the first event whose lease is lost: those before it are handled, in
      order, and that one and those after it are left alone. */
  lemma {:induction false} BatchStopsAt(db: Db, batch: seq<Item>, worker: string) returns (k: nat)
    ensures k <= |batch| && HandledFirst(db, batch, worker, k)
    ensures BatchSpec(db, batch, worker) == (BatchSpec(db, batch[..k], worker).0, k < |batch|)
    ensures k < |batch| ==> LosesLease(BatchSpec(db, batch[..k], worker).0, batch[k], worker)
  {
    hide ItemSpec, LosesLease, HandledFirst;
    if batch == [] {
      k := 0;
      NoneHandled(db, batch, worker);
    } else {
      var n := |batch| - 1;
      var front := batch[..n];
      k := BatchStopsAt(db, front, worker);
      FirstOfFront(db, batch, worker, k);
      assert front[..k] == batch[..k];
      var before := BatchSpec(db, front, worker).0;
      LostIff(before, batch[n], worker);
      if k == n && !LosesLease(before, batch[n], worker) {
        assert front[..n] == front && batch[..n + 1] == batch;
        OneMoreHandled(db, batch, worker);
        k := n + 1;
      }
    }
  }

  lemma NoneHandled(db: Db, batch: seq<Item>, worker: string)
    ensures HandledFirst(db, batch, worker, 0)
  {
    assert batch[..0] == [];
  }

  lemma FirstOfFront(db: Db, batch: seq<Item>, worker: string, k: nat)
    requires batch != [] && HandledFirst(db, batch[..|batch| - 1], worker, k)
    ensures HandledFirst(db, batch, worker, k)
  {
    hide ItemSpec, LosesLease, BatchSpec;
    var front := batch[..|batch| - 1];
    assert front[..k] == batch[..k];
    forall j | 0 <= j < k ensures HandledNext(db, batch, worker, j) {
      assert HandledNext(db, front, worker, j);
      assert front[..j] == batch[..j] && front[..j + 1] == batch[..j + 1];
    }
  }

  lemma OneMoreHandled(db: Db, batch: seq<Item>, worker: string)
    requires batch != []
    requires var n := |batch| - 1;
             HandledFirst(db, batch, worker, n) && !LosesLease(BatchSpec(db, batch[..n], worker).0, batch[n], worker)
    ensures HandledFirst(db, batch, worker, |batch|)
  {
    hide ItemSpec, LosesLease;
    var n := |batch| - 1;
    assert batch[..n + 1] == batch;
    LostIff(BatchSpec(db, batch[..n], worker).0, batch[n], worker);
    assert HandledNext(db, batch, worker, n);
  }
}
