/** Filing submission: a filing, the outbox row of its latest submission and the provider's
  * receipt move together through activation, claiming, completion and failure.
  *
  * The methods of `FilingStore` are the worker's transactions.  `Do` interleaves them with the
  * two transactions of the filing service that touch the same rows: submitting a draft and
  * unlocking a filing.
  */
module FilingSubmission {
  import opened Wrappers

  type Time = int
  type FilingId = nat
  type SubmissionId = nat
  type WorkerId = string

  const MAX_ATTEMPTS: nat := 7

  datatype FilingStatus = DRAFT | WAITING | SUBMITTING | FAILED | SUBMITTED
  datatype Filing = Filing(status: FilingStatus, version: nat)

  datatype OutboxStatus = WAITING_CONTRACT | PENDING | PROCESSING | SENT | DEAD_LETTER | CANCELED
  datatype Outbox = Outbox(
    filing: FilingId, status: OutboxStatus, retryCount: nat, nextRetryAt: Option<Time>,
    lockedBy: WorkerId, lockedUntil: Option<Time>, createdAt: Time)

  datatype Receipt = Receipt(id: string, authority: string, digest: string, receivedAt: Time)

  /** One outbox row and at most one receipt per submission, by their unique keys; `snapshots`
      lists a filing's submissions in sequence order. */
  datatype Db = Db(
    filings: map<FilingId, Filing>, snapshots: map<FilingId, seq<SubmissionId>>,
    outbox: map<SubmissionId, Outbox>, receipts: map<SubmissionId, Receipt>)

  /** The copy of an outbox row that a worker works from. */
  datatype Held = Held(submission: SubmissionId, row: Outbox)

  datatype Error = LeaseLost | NotFound | DuplicateReceipt | DeliveryFailed

  function Advance(f: Filing, status: FilingStatus): Filing { Filing(status, f.version + 1) }

  predicate IsLatest(db: Db, s: SubmissionId) {
    && s in db.outbox
    && var f := db.outbox[s].filing;
       f in db.snapshots && db.snapshots[f] != [] && db.snapshots[f][|db.snapshots[f]| - 1] == s
  }

  predicate Activatable(db: Db, s: SubmissionId) {
    && IsLatest(db, s) && db.outbox[s].status == WAITING_CONTRACT
    && db.outbox[s].filing in db.filings && db.filings[db.outbox[s].filing].status == WAITING
  }

  function ActivateOne(db: Db, s: SubmissionId, now: Time): Db {
    if !Activatable(db, s) then db
    else
      var f := db.outbox[s].filing;
      db.(filings := db.filings[f := Advance(db.filings[f], SUBMITTING)],
          outbox := db.outbox[s := db.outbox[s].(status := PENDING, nextRetryAt := Some(now))])
  }

  function ActivateAll(db: Db, picked: seq<SubmissionId>, now: Time): Db {
    if picked == [] then db else ActivateOne(ActivateAll(db, picked[..|picked| - 1], now), picked[|picked| - 1], now)
  }

  predicate Claimable(db: Db, s: SubmissionId, now: Time) {
    && s in db.outbox
    && var o := db.outbox[s];
       && o.filing in db.filings && db.filings[o.filing].status == SUBMITTING
       && ((o.status == PENDING && (o.nextRetryAt.None? || o.nextRetryAt.value <= now))
           || (o.status == PROCESSING && o.lockedUntil.Some? && o.lockedUntil.value < now))
  }

  function Claimed(o: Outbox, worker: WorkerId, until: Time): Outbox {
    o.(status := PROCESSING, lockedBy := worker, lockedUntil := Some(until))
  }

  predicate Fenced(db: Db, s: SubmissionId, worker: WorkerId, now: Time) {
    && s in db.outbox
    && var o := db.outbox[s];
       o.status == PROCESSING && o.lockedBy == worker && o.lockedUntil.Some? && o.lockedUntil.value >= now
  }

  predicate ReceiptTaken(db: Db, r: Receipt) {
    exists s :: s in db.receipts && db.receipts[s].authority == r.authority && db.receipts[s].id == r.id
  }

  function Freed(o: Outbox, status: OutboxStatus): Outbox {
    o.(status := status, lockedBy := "", lockedUntil := None)
  }

  function CompleteSpec(db: Db, worker: WorkerId, c: Held, r: Receipt, now: Time): (Db, Option<Error>) {
    var s := c.submission;
    if s !in db.outbox then (db, Some(NotFound))
    else if db.outbox[s].filing != c.row.filing then (db, Some(LeaseLost))
    else
      var o := db.outbox[s];
      var held := o.filing in db.filings;
      if o.status == SENT then
        (db, if s in db.receipts && db.receipts[s] == r && held && db.filings[o.filing].status == SUBMITTED
             then None else Some(NotFound))
      else if !Fenced(db, s, worker, now) then (db, Some(LeaseLost))
      else if !held || db.filings[o.filing].status != SUBMITTING then (db, Some(NotFound))
      else if s in db.receipts || ReceiptTaken(db, r) then (db, Some(DuplicateReceipt))
      else
        (db.(filings := db.filings[o.filing := Advance(db.filings[o.filing], SUBMITTED)],
             outbox := db.outbox[s := Freed(o, SENT).(nextRetryAt := None)],
             receipts := db.receipts[s := r]), None)
  }

  function FailSpec(db: Db, worker: WorkerId, c: Held, attempt: nat, next: Option<Time>,
                    now: Time): (Db, Option<Error>) {
    var s := c.submission;
    if !Fenced(db, s, worker, now) || db.outbox[s].filing != c.row.filing then (db, Some(LeaseLost))
    else
      var o := db.outbox[s];
      var status := if next.Some? then PENDING else DEAD_LETTER;
      var freed := db.(outbox := db.outbox[s := Freed(o, status).(retryCount := attempt, nextRetryAt := next)]);
      if next.Some? then (freed, None)
      else if o.filing !in db.filings || db.filings[o.filing].status != SUBMITTING then (db, Some(LeaseLost))
      else (freed.(filings := db.filings[o.filing := Advance(db.filings[o.filing], FAILED)]), None)
  }

  /** The worker's retry schedule around `Fail`. */
  function FailurePlan(c: Held, now: Time): (nat, Option<Time>) {
    var attempt := c.row.retryCount + 1;
    (attempt, if attempt < MAX_ATTEMPTS then Some(now + 60 * attempt * attempt) else None)
  }

  function WorkerFail(db: Db, worker: WorkerId, c: Held, now: Time): (Db, Option<Error>) {
    FailSpec(db, worker, c, FailurePlan(c, now).0, FailurePlan(c, now).1, now)
  }

  predicate ValidReceipt(r: Receipt, createdAt: Time, now: Time) {
    r.id != "" && r.authority != "" && createdAt - 300 <= r.receivedAt <= now + 300
  }

  predicate Loadable(db: Db, c: Held) {
    IsLatest(db, c.submission) && c.row.filing in db.filings && db.filings[c.row.filing].status == SUBMITTING
  }

  /** What happened outside the database while a claim was dispatched. */
  datatype Answer = Answer(loaded: bool, receipt: Option<Receipt>, encrypted: bool)

  function DispatchSpec(db: Db, worker: WorkerId, c: Held, a: Answer, now: Time, done: Time): (Db, Option<Error>) {
    if c.row.lockedUntil.None? || c.row.lockedUntil.value <= now + 1 then (db, Some(LeaseLost))
    else if a.loaded && Loadable(db, c) && a.receipt.Some? && ValidReceipt(a.receipt.value, c.row.createdAt, done)
        && a.encrypted
    then CompleteSpec(db, worker, c, a.receipt.value, done)
    else (WorkerFail(db, worker, c, done).0, Some(DeliveryFailed))
  }

  /** One turn of the polling loop: the row on offer, and what happens outside. */
  datatype Turn = Turn(offer: SubmissionId, claimedAt: Time, lease: Time, answer: Answer, now: Time, done: Time)

  /** A turn, and whether there was a row to claim. */
  function TurnSpec(db: Db, worker: WorkerId, t: Turn): (Db, bool) {
    if !Claimable(db, t.offer, t.claimedAt) then (db, false)
    else
      var row := Claimed(db.outbox[t.offer], worker, t.claimedAt + t.lease);
      (DispatchSpec(db.(outbox := db.outbox[t.offer := row]), worker, Held(t.offer, row), t.answer, t.now, t.done).0,
       true)
  }

  function PollSpec(db: Db, worker: WorkerId, turns: seq<Turn>): (Db, bool) {
    if turns == [] then (db, true)
    else
      var (before, going) := PollSpec(db, worker, turns[..|turns| - 1]);
      if going then TurnSpec(before, worker, turns[|turns| - 1]) else (before, false)
  }

  lemma {:induction false} PollStops(db: Db, worker: WorkerId, turns: seq<Turn>, k: nat)
    requires k <= |turns| && !PollSpec(db, worker, turns[..k]).1
    ensures PollSpec(db, worker, turns) == PollSpec(db, worker, turns[..k])
    decreases |turns| - k
  {
    hide TurnSpec;
    if k == |turns| {
      assert turns[..k] == turns;
    } else {
      assert turns[..k + 1][..k] == turns[..k];
      PollStops(db, worker, turns, k + 1);
    }
  }

  class FilingStore {
    var filings: map<FilingId, Filing>
    var snapshots: map<FilingId, seq<SubmissionId>>
    var outbox: map<SubmissionId, Outbox>
    var receipts: map<SubmissionId, Receipt>

    function State(): Db reads this { Db(filings, snapshots, outbox, receipts) }

    /** `picked` are the rows the locking query returns: activatable and each once. */
    method Activate(picked: seq<SubmissionId>, now: Time) returns (activated: nat)
      requires forall i :: 0 <= i < |picked| ==> Activatable(State(), picked[i])
      requires forall i, j :: 0 <= i < j < |picked| ==> picked[i] != picked[j]
      modifies this`filings, this`outbox
      ensures activated == |picked| && State() == ActivateAll(old(State()), picked, now)
    {
      activated := 0;
      for i := 0 to |picked|
        invariant activated == i && State() == ActivateAll(old(State()), picked[..i], now)
        invariant forall k :: i <= k < |picked| ==> Activatable(State(), picked[k])
      {
        var s := picked[i];
        var f := outbox[s].filing;
        assert picked[..i + 1][..i] == picked[..i];
        filings := filings[f := Advance(filings[f], SUBMITTING)];
        outbox := outbox[s := outbox[s].(status := PENDING, nextRetryAt := Some(now))];
        activated := activated + 1;
      }
      assert picked[..|picked|] == picked;
    }

    /** `picked` is the row the locking query hands to this worker; it asks for one at a time. */
    method Claim(worker: WorkerId, picked: Option<SubmissionId>, now: Time, lease: Time) returns (claim: Option<Held>)
      requires picked.Some? ==> Claimable(State(), picked.value, now)
      modifies this`outbox
      ensures picked.None? ==> claim == None && outbox == old(outbox)
      ensures picked.Some? ==>
                && outbox == old(outbox)[picked.value := Claimed(old(outbox)[picked.value], worker, now + lease)]
                && claim == Some(Held(picked.value, outbox[picked.value]))
    {
      if picked.None? { return None; }
      outbox := outbox[picked.value := Claimed(outbox[picked.value], worker, now + lease)];
      return Some(Held(picked.value, outbox[picked.value]));
    }

    method FindReceipt(r: Receipt) returns (taken: bool)
      ensures taken == ReceiptTaken(State(), r)
    {
      var rest := receipts.Keys;
      while rest != {}
        invariant rest <= receipts.Keys
        invariant forall s ::
                    s in receipts && s !in rest ==> receipts[s].authority != r.authority || receipts[s].id != r.id
      {
        var s :| s in rest;
        if receipts[s].authority == r.authority && receipts[s].id == r.id { return true; }
        rest := rest - {s};
      }
      return false;
    }

    method Complete(worker: WorkerId, c: Held, r: Receipt, now: Time) returns (err: Option<Error>)
      modifies this`filings, this`outbox, this`receipts
      ensures (State(), err) == CompleteSpec(old(State()), worker, c, r, now)
    {
      var s := c.submission;
      if s !in outbox { return Some(NotFound); }
      var current := outbox[s];
      if current.filing != c.row.filing { return Some(LeaseLost); }
      if current.status == SENT {
        if s !in receipts || receipts[s] != r { return Some(NotFound); }
        if current.filing !in filings || filings[current.filing].status != SUBMITTED { return Some(NotFound); }
        return None;
      }
      if current.status != PROCESSING || current.lockedBy != worker || current.lockedUntil.None?
          || current.lockedUntil.value < now {
        return Some(LeaseLost);
      }
      if current.filing !in filings || filings[current.filing].status != SUBMITTING { return Some(NotFound); }
      var taken := FindReceipt(r);
      if s in receipts || taken { return Some(DuplicateReceipt); }
      receipts := receipts[s := r];
      filings := filings[current.filing := Advance(filings[current.filing], SUBMITTED)];
      outbox := outbox[s := Freed(current, SENT).(nextRetryAt := None)];
      return None;
    }

    method Fail(worker: WorkerId, c: Held, attempt: nat, next: Option<Time>, now: Time) returns (err: Option<Error>)
      modifies this`filings, this`outbox
      ensures (State(), err) == FailSpec(old(State()), worker, c, attempt, next, now)
    {
      var s := c.submission;
      if !Fenced(State(), s, worker, now) || outbox[s].filing != c.row.filing { return Some(LeaseLost); }
      var status := if next.Some? then PENDING else DEAD_LETTER;
      var savepoint := outbox;
      outbox := outbox[s := Freed(outbox[s], status).(retryCount := attempt, nextRetryAt := next)];
      if status == DEAD_LETTER {
        var f := outbox[s].filing;
        if f !in filings || filings[f].status != SUBMITTING {
          outbox := savepoint;
          return Some(LeaseLost);
        }
        filings := filings[f := Advance(filings[f], FAILED)];
      }
      return None;
    }

    /** One claimed row from load to settlement, with no other transaction in between. */
    method Dispatch(worker: WorkerId, c: Held, a: Answer, now: Time, done: Time) returns (err: Option<Error>)
      modifies this`filings, this`outbox, this`receipts
      ensures (State(), err) == DispatchSpec(old(State()), worker, c, a, now, done)
    {
      if c.row.lockedUntil.None? || c.row.lockedUntil.value <= now + 1 { return Some(LeaseLost); }
      var attempt := c.row.retryCount + 1;
      var next := if attempt < MAX_ATTEMPTS then Some(done + 60 * attempt * attempt) else None;
      if !(a.loaded && Loadable(State(), c)) || a.receipt.None? {
        var _ := Fail(worker, c, attempt, next, done);
        return Some(DeliveryFailed);
      }
      if !ValidReceipt(a.receipt.value, c.row.createdAt, done) || !a.encrypted {
        var _ := Fail(worker, c, attempt, next, done);
        return Some(DeliveryFailed);
      }
      err := Complete(worker, c, a.receipt.value, done);
    }

    /** One poll: activate what waits, then claim and dispatch one row at a time, whatever became of the
        one before, until there is none or the batch is full. */
    method RunOnce(worker: WorkerId, waiting: seq<SubmissionId>, at: Time, turns: seq<Turn>) returns (processed: nat)
      requires forall i :: 0 <= i < |waiting| ==> Activatable(State(), waiting[i])
      requires forall i, j :: 0 <= i < j < |waiting| ==> waiting[i] != waiting[j]
      modifies this`filings, this`outbox, this`receipts
      ensures (State(), processed == |turns|) == PollSpec(ActivateAll(old(State()), waiting, at), worker, turns)
      ensures processed <= |turns|
              && PollSpec(ActivateAll(old(State()), waiting, at), worker, turns[..processed]) == (State(), true)
      ensures processed < |turns| ==> !Claimable(State(), turns[processed].offer, turns[processed].claimedAt)
    {
      hide DispatchSpec, Claimable, ActivateAll, Activatable;
      processed := 0;
      var _ := Activate(waiting, at);
      ghost var active := State();
      while processed < |turns|
        invariant processed <= |turns| && PollSpec(active, worker, turns[..processed]) == (State(), true)
      {
        var t := turns[processed];
        assert turns[..processed + 1][..processed] == turns[..processed];
        var offer := if Claimable(State(), t.offer, t.claimedAt) then Some(t.offer) else None;
        var claim := Claim(worker, offer, t.claimedAt, t.lease);
        if claim.None? {
          PollStops(active, worker, turns, processed + 1);
          return;
        }
        var _ := Dispatch(worker, claim.value, t.answer, t.now, t.done);
        processed := processed + 1;
      }
      assert turns[..|turns|] == turns;
    }
  }

  // ---------------------------------------------------------------- all workers and the service

  /** `hand` is the claim a worker is dispatching; each worker dispatches one at a time. */
  datatype World = World(db: Db, hand: map<WorkerId, Held>)

  datatype Step =
    | Draft(f: FilingId)
    | Submit(f: FilingId, s: SubmissionId, now: Time)
    | Unlock(f: FilingId)
    | Activate(s: SubmissionId, now: Time)
    | Take(worker: WorkerId, s: SubmissionId, now: Time, lease: Time)
    | Complete(worker: WorkerId, r: Receipt, now: Time)
    | Fail(worker: WorkerId, now: Time)
    | Crash(worker: WorkerId)

  function DraftSpec(db: Db, f: FilingId): Db {
    if f in db.filings then db
    else db.(filings := db.filings[f := Filing(DRAFT, 1)], snapshots := db.snapshots[f := []])
  }

  function SubmitSpec(db: Db, f: FilingId, s: SubmissionId, now: Time): Db {
    if f !in db.filings || f !in db.snapshots || db.filings[f].status != DRAFT || s in db.outbox then db
    else db.(
      filings := db.filings[f := Advance(db.filings[f], WAITING)],
      snapshots := db.snapshots[f := db.snapshots[f] + [s]],
      outbox := db.outbox[s := Outbox(f, WAITING_CONTRACT, 0, None, "", None, now)])
  }

  function UnlockSpec(db: Db, f: FilingId): Db {
    if f !in db.filings || db.filings[f].status !in {WAITING, FAILED, SUBMITTED} then db
    else db.(
      filings := db.filings[f := Advance(db.filings[f], DRAFT)],
      outbox := if db.filings[f].status == WAITING then CancelWaiting(db.outbox, f) else db.outbox)
  }

  function Do(w: World, step: Step): World {
    match step
    case Draft(f) => w.(db := DraftSpec(w.db, f))
    case Submit(f, s, now) => w.(db := SubmitSpec(w.db, f, s, now))
    case Unlock(f) => w.(db := UnlockSpec(w.db, f))
    case Activate(s, now) => w.(db := ActivateOne(w.db, s, now))
    case Take(worker, s, now, lease) =>
      if worker in w.hand || !Claimable(w.db, s, now) then w
      else
        var row := Claimed(w.db.outbox[s], worker, now + lease);
        World(w.db.(outbox := w.db.outbox[s := row]), w.hand[worker := Held(s, row)])
    case Complete(worker, r, now) =>
      if worker !in w.hand then w
      else World(CompleteSpec(w.db, worker, w.hand[worker], r, now).0, w.hand - {worker})
    case Fail(worker, now) =>
      if worker !in w.hand then w
      else World(WorkerFail(w.db, worker, w.hand[worker], now).0, w.hand - {worker})
    case Crash(worker) => w.(hand := w.hand - {worker})
  }

  function CancelWaiting(outbox: map<SubmissionId, Outbox>, f: FilingId): map<SubmissionId, Outbox> {
    map s | s in outbox ::
      if outbox[s].filing == f && outbox[s].status == WAITING_CONTRACT
      then Freed(outbox[s], CANCELED).(nextRetryAt := None) else outbox[s]
  }

  function DoAll(w: World, steps: seq<Step>): World {
    if steps == [] then w else Do(DoAll(w, steps[..|steps| - 1]), steps[|steps| - 1])
  }

  predicate Initial(w: World) {
    w.db.filings == map[] && w.db.snapshots == map[] && w.db.outbox == map[] && w.db.receipts == map[]
        && w.hand == map[]
  }

  predicate Over(s: OutboxStatus) { s == SENT || s == DEAD_LETTER || s == CANCELED }

  /** Which outbox states go with which filing state, for the latest submission. */
  predicate Matches(f: FilingStatus, o: OutboxStatus) {
    match f
    case DRAFT => Over(o)
    case WAITING => o == WAITING_CONTRACT
    case SUBMITTING => o == PENDING || o == PROCESSING
    case SUBMITTED => o == SENT
    case FAILED => o == DEAD_LETTER
  }

  ghost predicate Inv(w: World) {
    DbInv(w.db) && HandsInv(w.db, w.hand)
  }

  ghost predicate HandsInv(db: Db, hand: map<WorkerId, Held>) {
    forall worker :: worker in hand ==> HandInv(db, worker, hand[worker])
  }

  ghost predicate DbInv(db: Db) {
    && db.snapshots.Keys == db.filings.Keys
    && (forall f :: f in db.filings ==> FilingInv(db, f))
    && (forall s :: s in db.outbox ==> RowInv(db, s))
    && db.receipts.Keys <= db.outbox.Keys
  }

  ghost predicate FilingInv(db: Db, f: FilingId)
    requires f in db.filings && f in db.snapshots
  {
    var ss := db.snapshots[f];
    && (forall i :: 0 <= i < |ss| ==> ss[i] in db.outbox && db.outbox[ss[i]].filing == f)
    && (forall i, j :: 0 <= i < j < |ss| ==> ss[i] != ss[j])
    && (forall i :: 0 <= i < |ss| - 1 ==> Over(db.outbox[ss[i]].status))
    && (if ss == [] then db.filings[f].status == DRAFT
        else Matches(db.filings[f].status, db.outbox[ss[|ss| - 1]].status))
  }

  ghost predicate RowInv(db: Db, s: SubmissionId) requires s in db.outbox {
    var o := db.outbox[s];
    && o.filing in db.snapshots && s in db.snapshots[o.filing]
    && (o.status == SENT <==> s in db.receipts)
    && (if o.status == DEAD_LETTER then o.retryCount == MAX_ATTEMPTS else o.retryCount < MAX_ATTEMPTS)
    && (o.status == PROCESSING ==> o.lockedUntil.Some?)
  }

  ghost predicate HandInv(db: Db, worker: WorkerId, c: Held) {
    && c.submission in db.outbox && c.row.filing == db.outbox[c.submission].filing
    && (db.outbox[c.submission].status == PROCESSING && db.outbox[c.submission].lockedBy == worker ==>
        c.row.retryCount == db.outbox[c.submission].retryCount)
  }
}
