/** The contract transfer outbox: events are claimed with a fresh token and a finite lease,
  * delivered outside any transaction, and settled only by the claimant whose token still
  * holds the row.  Each settlement writes one attempt row in the same transaction.
  *
  * The methods of `TransferStore` are the transactions; `Do` interleaves them for any number
  * of workers, with lease expiry, crashes (a worker that stops just takes no more steps) and the
  * operator's endpoint that puts a dead letter back into the queue.
  */
module ContractTransfer {
  import opened Wrappers

  type Time = int
  type Token = nat

  datatype Status = PENDING | RETRY_WAIT | PROCESSING | SENT | DEAD_LETTER

  // The stable identity is a digest, taken as collision free.
  datatype EventId = Stable(tenant: string, opportunity: nat, version: nat) | Foreign(raw: string)

  datatype Payload = Payload(opportunity: nat, version: nat)
  datatype Event = Event(
    tenant: string, aggregateType: string, aggregate: string, payload: Option<Payload>, createdAt: Time,
    status: Status, retryCount: nat, nextRetryAt: Option<Time>, lockedBy: Option<Token>, lockedUntil: Time)

  datatype Opportunity = Opportunity(
    version: nat, customer: nat, number: string, contractRef: string, amount: string,
    deleted: bool, signed: bool, closed: bool, terminalPending: bool)

  datatype Attempt = Attempt(event: EventId, no: nat, result: Status, intake: string, at: Time)

  datatype Command = Command(
    event: EventId, tenant: string, opportunity: nat, version: nat,
    number: string, customer: nat, contractRef: string, amount: string, occurredAt: Time)

  datatype Db = Db(
    events: map<EventId, Event>, attempts: seq<Attempt>, opportunities: map<(string, nat), Opportunity>)

  /** What a worker remembers of the row it claimed. */
  datatype Claim = Claim(id: EventId, token: Token, retryCount: nat)

  datatype Error = LeaseLost | DuplicateAttempt | Panic
  datatype Authority = Lost | ReadFailed | Rejected(reason: string) | Ready(command: Command)
  datatype Delivery = Accepted(intake: string) | Permanent | Transient

  const DELAYS: seq<Time> := [60, 300, 900, 3600, 10800, 21600]

  predicate Eligible(e: Event, now: Time) {
    || ((e.status == PENDING || e.status == RETRY_WAIT) && (e.nextRetryAt.None? || e.nextRetryAt.value <= now))
    || (e.status == PROCESSING && e.lockedUntil < now)
  }

  /** The claimant's token still holds the row and its lease has not run out. */
  predicate Fenced(db: Db, c: Claim, now: Time) {
    && c.id in db.events
    && var e := db.events[c.id];
       e.status == PROCESSING && e.lockedBy == Some(c.token) && e.lockedUntil >= now
  }

  predicate Recorded(db: Db, id: EventId, no: nat) { exists a :: a in db.attempts && a.event == id && a.no == no }

  function ClaimSpec(db: Db, id: EventId, token: Token, now: Time, lease: Time): (Db, Option<Claim>) {
    if id in db.events && Eligible(db.events[id], now) then
      var e := db.events[id];
      (db.(events := db.events[id := e.(status := PROCESSING, lockedBy := Some(token), lockedUntil := now + lease)]),
       Some(Claim(id, token, e.retryCount)))
    else (db, None)
  }

  /** The event is self-consistent and the opportunity is still in the accepted signed state. */
  predicate StillSigned(o: Opportunity, version: nat) {
    !o.deleted && o.version >= version && o.signed && o.closed && o.contractRef != "" && !o.terminalPending
  }

  predicate SelfConsistent(id: EventId, e: Event) {
    && e.payload.Some? && e.aggregateType == "opportunity" && e.aggregate == Decimal(e.payload.value.opportunity)
    && id == Stable(e.tenant, e.payload.value.opportunity, e.payload.value.version)
  }

  function AuthoritySpec(db: Db, c: Claim, now: Time, readOk: bool): Authority {
    if !Fenced(db, c, now) then Lost
    else
      var e := db.events[c.id];
      if !SelfConsistent(c.id, e) then Rejected("invalid outbox identity or payload")
      else if !readOk then ReadFailed
      else
        var p := e.payload.value;
        if (e.tenant, p.opportunity) !in db.opportunities then Rejected("authoritative opportunity is absent")
        else
          var o := db.opportunities[(e.tenant, p.opportunity)];
          if !StillSigned(o, p.version)
          then Rejected("authoritative opportunity no longer matches accepted signed state")
          else Ready(Command(c.id, e.tenant, p.opportunity, p.version, o.number, o.customer, o.contractRef, o.amount,
                             e.createdAt))
  }

  /** The event's key, aggregate and payload all name the same opportunity at the same version. */
  predicate Named(id: EventId, e: Event) {
    && id.Stable? && id.tenant == e.tenant && e.payload == Some(Payload(id.opportunity, id.version))
    && e.aggregateType == "opportunity" && e.aggregate == Decimal(id.opportunity)
  }

  // One settlement: the attempt row and the guarded update commit together or not at all.
  function SettleSpec(db: Db, c: Claim, now: Time, status: Status, intake: string,
                      next: Option<Time>): (Db, Option<Error>) {
    var attempt := (c.retryCount + 1) % 256;
    if Recorded(db, c.id, attempt) then (db, Some(DuplicateAttempt))
    else if !Fenced(db, c, now) then (db, Some(LeaseLost))
    else
      var e := db.events[c.id];
      (db.(events := db.events[c.id :=
                               e.(status := status, retryCount := attempt, nextRetryAt := next, lockedBy := None)],
           attempts := db.attempts + [Attempt(c.id, attempt, status, intake, now)]), None)
  }

  function FinishSpec(db: Db, c: Claim, now: Time, status: Status, intake: string): (Db, Option<Error>) {
    SettleSpec(db, c, now, status, intake, None)
  }

  function RetrySpec(db: Db, c: Claim, now: Time): (Db, Option<Error>) {
    var attempt := (c.retryCount + 1) % 256;
    if attempt > |DELAYS| then FinishSpec(db, c, now, DEAD_LETTER, "")
    else if attempt == 0 then (db, Some(Panic))
    else SettleSpec(db, c, now, RETRY_WAIT, "", Some(now + DELAYS[attempt - 1]))
  }

  function DeliveredSpec(db: Db, c: Claim, now: Time, delivery: Delivery): (Db, Option<Error>) {
    match delivery
    case Accepted(intake) => FinishSpec(db, c, now, SENT, intake)
    case Permanent => FinishSpec(db, c, now, DEAD_LETTER, "")
    case Transient => RetrySpec(db, c, now)
  }

  function ProcessSpec(db: Db, c: Claim, readOk: bool, delivery: Delivery, now: Time,
                       finishedAt: Time): (Db, Option<Error>) {
    match AuthoritySpec(db, c, now, readOk)
    case Lost => (db, Some(LeaseLost))
    case ReadFailed => RetrySpec(db, c, now)
    case Rejected(_) => FinishSpec(db, c, now, DEAD_LETTER, "")
    case Ready(_) => DeliveredSpec(db, c, finishedAt, delivery)
  }

  /** One turn of the polling loop: the row handed out, the token drawn, and what happens outside. */
  datatype Turn = Turn(
    id: EventId, token: Token, claimedAt: Time, lease: Time, readOk: bool, delivery: Delivery, now: Time,
        finishedAt: Time)

  /** A turn, and whether the loop goes on after it. */
  function TurnSpec(db: Db, t: Turn): (Db, bool) {
    var (claimed, claim) := ClaimSpec(db, t.id, t.token, t.claimedAt, t.lease);
    if claim.None? then (claimed, false)
    else
      var (after, err) := ProcessSpec(claimed, claim.value, t.readOk, t.delivery, t.now, t.finishedAt);
      (after, err.None?)
  }

  /** A turn that the loop goes on after has settled one event; any other has settled none. */
  lemma TurnCounts(db: Db, t: Turn)
    ensures var (after, going) := TurnSpec(db, t); |after.attempts| == |db.attempts| + if going then 1 else 0
  {
    hide AuthoritySpec, Recorded;
  }

  function PollSpec(db: Db, turns: seq<Turn>): (Db, bool) {
    if turns == [] then (db, true)
    else
      var (before, going) := PollSpec(db, turns[..|turns| - 1]);
      if going then TurnSpec(before, turns[|turns| - 1]) else (before, false)
  }

  lemma {:induction false} PollStops(db: Db, turns: seq<Turn>, k: nat)
    requires k <= |turns| && !PollSpec(db, turns[..k]).1
    ensures PollSpec(db, turns) == PollSpec(db, turns[..k])
    decreases |turns| - k
  {
    hide TurnSpec;
    if k == |turns| {
      assert turns[..k] == turns;
    } else {
      assert turns[..k + 1][..k] == turns[..k];
      PollStops(db, turns, k + 1);
    }
  }

  /** The operator's retry of a dead letter: the row starts over, its attempt rows stay. */
  function RequeueSpec(db: Db, id: EventId): (Db, bool) {
    if id in db.events && db.events[id].status == DEAD_LETTER then
      (db.(events := db.events[id := Restarted(db.events[id])]), true)
    else (db, false)
  }

  function Restarted(e: Event): Event {
    e.(status := PENDING, retryCount := 0, nextRetryAt := None, lockedBy := None)
  }

  class TransferStore {
    var events: map<EventId, Event>
    var attempts: seq<Attempt>
    var opportunities: map<(string, nat), Opportunity>

    function State(): Db reads this { Db(events, attempts, opportunities) }

    /** `id` is the row that SKIP LOCKED hands to this transaction, if it hands out any. */
    method ClaimOne(id: EventId, token: Token, now: Time, lease: Time) returns (claim: Option<Claim>)
      modifies this`events
      ensures (State(), claim) == ClaimSpec(old(State()), id, token, now, lease)
      ensures claim.Some? <==>
        && id in old(events)
        && var e := old(events)[id];
           || ((e.status == PENDING || e.status == RETRY_WAIT)
               && (e.nextRetryAt == None || e.nextRetryAt.value <= now))
           || (e.status == PROCESSING && e.lockedUntil < now)
      ensures claim.Some? ==>
        && claim.value == Claim(id, token, old(events)[id].retryCount)
        && events[id].lockedBy == Some(token) && events[id].lockedUntil == now + lease
    {
      if id !in events || !Eligible(events[id], now) { return None; }
      var result := events[id];
      events := events[id := result.(status := PROCESSING, lockedBy := Some(token), lockedUntil := now + lease)];
      return Some(Claim(id, token, result.retryCount));
    }

    /** The reason of a rejection is the first check that fails; the command carries the opportunity's
        own values. */
    method AuthoritativeCommand(c: Claim, now: Time, readOk: bool) returns (a: Authority)
      ensures a == AuthoritySpec(State(), c, now, readOk)
      ensures a != Lost <==>
        && c.id in events && events[c.id].status == PROCESSING && events[c.id].lockedBy == Some(c.token)
        && now <= events[c.id].lockedUntil
      ensures a == Rejected("invalid outbox identity or payload") <==> a != Lost && !Named(c.id, events[c.id])
      ensures a.ReadFailed? <==> a != Lost && Named(c.id, events[c.id]) && !readOk
      ensures a.Ready? <==>
        && a != Lost && Named(c.id, events[c.id]) && readOk
        && var p := events[c.id].payload.value;
           && (events[c.id].tenant, p.opportunity) in opportunities
           && var o := opportunities[(events[c.id].tenant, p.opportunity)];
              && o.signed && o.closed && o.contractRef != "" && o.version >= p.version
              && !o.deleted && !o.terminalPending
      ensures a.Ready? ==>
        && a.command.event == c.id == Stable(a.command.tenant, a.command.opportunity, a.command.version)
        && (a.command.tenant, a.command.opportunity) in opportunities
        && a.command.occurredAt == events[c.id].createdAt
        && var o := opportunities[(a.command.tenant, a.command.opportunity)];
           a.command.number == o.number && a.command.customer == o.customer
           && a.command.contractRef == o.contractRef && a.command.amount == o.amount
    {
      if !Fenced(State(), c, now) { return Lost; }
      var locked := events[c.id];
      if locked.payload.None? || locked.aggregateType != "opportunity"
         || locked.aggregate != Decimal(locked.payload.value.opportunity)
         || c.id != Stable(locked.tenant, locked.payload.value.opportunity, locked.payload.value.version) {
        return Rejected("invalid outbox identity or payload");
      }
      if !readOk { return ReadFailed; }
      var p := locked.payload.value;
      if (locked.tenant, p.opportunity) !in opportunities { return Rejected("authoritative opportunity is absent"); }
      var state := opportunities[(locked.tenant, p.opportunity)];
      if state.deleted || state.version < p.version || !state.signed || !state.closed || state.contractRef == ""
          || state.terminalPending {
        return Rejected("authoritative opportunity no longer matches accepted signed state");
      }
      return Ready(Command(c.id, locked.tenant, p.opportunity, p.version, state.number, state.customer,
                           state.contractRef,
                           state.amount, locked.createdAt));
    }

    method RetryFailed(id: EventId) returns (ok: bool)
      modifies this`events
      ensures (State(), ok) == RequeueSpec(old(State()), id)
      ensures ok <==> id in old(events) && old(events)[id].status == DEAD_LETTER
      ensures ok ==> events[id].status == PENDING && events[id].retryCount == 0 && events[id].nextRetryAt == None
    {
      if id !in events || events[id].status != DEAD_LETTER { return false; }
      var e := events[id];
      events := events[id := e.(status := PENDING, retryCount := 0, nextRetryAt := None, lockedBy := None)];
      return true;
    }

    // The transaction body shared by finish and retry, with its rollback.
    method Settle(c: Claim, now: Time, status: Status, intake: string, next: Option<Time>) returns (err: Option<Error>)
      modifies this`events, this`attempts
      ensures (State(), err) == SettleSpec(old(State()), c, now, status, intake, next)
      ensures var no := (c.retryCount + 1) % 256;
        && (err == None <==>
              && (forall a :: a in old(attempts) ==> a.event != c.id || a.no != no)
              && c.id in old(events) && old(events)[c.id].status == PROCESSING
              && old(events)[c.id].lockedBy == Some(c.token) && now <= old(events)[c.id].lockedUntil)
        && (err == None ==>
              && attempts == old(attempts) + [Attempt(c.id, no, status, intake, now)]
              && c.id in events && events[c.id].status == status && events[c.id].retryCount == no
              && events[c.id].nextRetryAt == next && events[c.id].lockedBy == None)
        && (err != None ==> State() == old(State()))
    {
      var attempt := (c.retryCount + 1) % 256;
      var i := 0;
      while i < |attempts|
        invariant i <= |attempts|
        invariant forall j :: 0 <= j < i ==> !(attempts[j].event == c.id && attempts[j].no == attempt)
      {
        if attempts[i].event == c.id && attempts[i].no == attempt {
          assert attempts[i] in attempts;
          return Some(DuplicateAttempt);
        }
        i := i + 1;
      }
      var savepoint := attempts;
      attempts := attempts + [Attempt(c.id, attempt, status, intake, now)];
      if !Fenced(State(), c, now) {
        attempts := savepoint;
        return Some(LeaseLost);
      }
      events := events[c.id :=
                       events[c.id].(status := status, retryCount := attempt, nextRetryAt := next, lockedBy := None)];
      return None;
    }

    method Finish(c: Claim, now: Time, status: Status, intake: string) returns (err: Option<Error>)
      modifies this`events, this`attempts
      ensures (State(), err) == FinishSpec(old(State()), c, now, status, intake)
    {
      err := Settle(c, now, status, intake, None);
    }

    method Retry(c: Claim, now: Time) returns (err: Option<Error>)
      modifies this`events, this`attempts
      ensures (State(), err) == RetrySpec(old(State()), c, now)
    {
      var attempt := (c.retryCount + 1) % 256;
      if attempt > |DELAYS| {
        err := Finish(c, now, DEAD_LETTER, "");
      } else if attempt == 0 {
        err := Some(Panic);
      } else {
        err := Settle(c, now, RETRY_WAIT, "", Some(now + DELAYS[attempt - 1]));
      }
    }

    /** One claimed event from authority check to settlement, with no other worker in between. */
    method Process(c: Claim, readOk: bool, delivery: Delivery, now: Time, finishedAt: Time) returns (err: Option<Error>)
      modifies this`events, this`attempts
      ensures (State(), err) == ProcessSpec(old(State()), c, readOk, delivery, now, finishedAt)
    {
      var authority := AuthoritativeCommand(c, now, readOk);
      match authority
      case Lost => err := Some(LeaseLost);
      case ReadFailed => err := Retry(c, now);
      case Rejected(_) => err := Finish(c, now, DEAD_LETTER, "");
      case Ready(_) =>
        match delivery
        case Accepted(intake) => err := Finish(c, finishedAt, SENT, intake);
        case Permanent => err := Finish(c, finishedAt, DEAD_LETTER, "");
        case Transient => err := Retry(c, finishedAt);
    }

    /** One poll: up to a batch of turns, until nothing is handed out or a turn fails. */
    method RunOnce(turns: seq<Turn>) returns (processed: nat)
      modifies this`events, this`attempts
      ensures (State(), processed == |turns|) == PollSpec(old(State()), turns)
      ensures |attempts| == |old(attempts)| + processed
    {
      hide ClaimSpec, ProcessSpec;
      processed := 0;
      while processed < |turns|
        invariant processed <= |turns| && PollSpec(old(State()), turns[..processed]) == (State(), true)
        invariant |attempts| == |old(attempts)| + processed
      {
        TurnCounts(State(), turns[processed]);
        var t := turns[processed];
        assert turns[..processed + 1][..processed] == turns[..processed];
        var event := ClaimOne(t.id, t.token, t.claimedAt, t.lease);
        if event.None? {
          PollStops(old(State()), turns, processed + 1);
          return;
        }
        var err := Process(event.value, t.readOk, t.delivery, t.now, t.finishedAt);
        if err.Some? {
          PollStops(old(State()), turns, processed + 1);
          return;
        }
        processed := processed + 1;
      }
      assert turns[..|turns|] == turns;
    }
  }

  // ---------------------------------------------------------------- all workers together

  /** How far a claimant has got; it is lost on a crash and never shared. */
  datatype Stage = Claimed | Refused | Unread | Cleared(command: Command)
      | Answered(command: Command, delivery: Delivery) | Over
  datatype Memory = Memory(claim: Claim, stage: Stage)

  /** `claims` keeps every claim ever made; `calls` every remote call, in order; `requeued` every
      event an operator ever put back. */
  datatype World = World(db: Db, claims: map<Token, Memory>, calls: seq<Command>, requeued: set<EventId>)

  datatype Step =
    | Enqueue(id: EventId, event: Event)
    | Edit(key: (string, nat), opportunity: Opportunity)
    | Take(id: EventId, token: Token, now: Time, lease: Time)
    | Check(token: Token, now: Time, readOk: bool)
    | Deliver(token: Token, delivery: Delivery)
    | Record(token: Token, now: Time)
    | Requeue(id: EventId)

  function Do(w: World, s: Step): World {
    match s
    case Enqueue(id, event) =>
      if id in w.db.events then w
      else w.(db := w.db.(events := w.db.events[id := event.(status := PENDING, retryCount := 0, lockedBy := None)]))
    case Edit(key, o) => w.(db := w.db.(opportunities := w.db.opportunities[key := o]))
    case Take(id, token, now, lease) =>
      if token in w.claims then w          // tokens are random and never repeat
      else
        var (db, claim) := ClaimSpec(w.db, id, token, now, lease);
        w.(db := db, claims := if claim.Some? then w.claims[token := Memory(claim.value, Claimed)] else w.claims)
    case Check(token, now, readOk) =>
      if token !in w.claims || !w.claims[token].stage.Claimed? then w
      else
        var m := w.claims[token];
        var stage := match AuthoritySpec(w.db, m.claim, now, readOk)
                     case Lost => Over case ReadFailed => Unread case Rejected(_) => Refused
                     case Ready(c) => Cleared(c);
        w.(claims := w.claims[token := m.(stage := stage)])
    case Deliver(token, delivery) =>
      if token !in w.claims || !w.claims[token].stage.Cleared? then w
      else
        var m := w.claims[token];
        w.(claims := w.claims[token := m.(stage := Answered(m.stage.command, delivery))],
           calls := w.calls + [m.stage.command])
    case Requeue(id) =>
      var (db, ok) := RequeueSpec(w.db, id);
      w.(db := db, requeued := if ok then w.requeued + {id} else w.requeued)
    case Record(token, now) =>
      if token !in w.claims then w
      else
        var m := w.claims[token];
        match m.stage
        case Refused => w.(db := FinishSpec(w.db, m.claim, now, DEAD_LETTER, "").0,
                           claims := w.claims[token := m.(stage := Over)])
        case Unread => w.(db := RetrySpec(w.db, m.claim, now).0, claims := w.claims[token := m.(stage := Over)])
        case Answered(_, d) =>
              w.(db := DeliveredSpec(w.db, m.claim, now, d).0, claims := w.claims[token := m.(stage := Over)])
        case _ => w
  }

  function DoAll(w: World, steps: seq<Step>): World {
    if steps == [] then w else Do(DoAll(w, steps[..|steps| - 1]), steps[|steps| - 1])
  }

  predicate Initial(w: World) {
    w.db.events == map[] && w.db.attempts == [] && w.claims == map[] && w.calls == [] && w.requeued == {}
  }

  /** The attempt rows of one event, in the order they were written. */
  function History(attempts: seq<Attempt>, id: EventId): seq<Attempt> {
    if attempts == [] then []
    else
      var a := attempts[|attempts| - 1];
      History(attempts[..|attempts| - 1], id) + if a.event == id then [a] else []
  }

  predicate Terminal(s: Status) { s == SENT || s == DEAD_LETTER }

  /** The ledger of one event: its attempts are numbered 1 to retry_count without gap or repeat,
      only the last can be terminal, and it is terminal exactly when the event is. */
  ghost predicate Ledger(e: Event, h: seq<Attempt>) {
    && |h| == e.retryCount <= 7
    && (forall i :: 0 <= i < |h| ==> h[i].no == i + 1)
    && (forall i :: 0 <= i < |h| - 1 ==> h[i].result == RETRY_WAIT)
    && (h != [] ==> h[|h| - 1].result == if Terminal(e.status) then e.status else RETRY_WAIT)
    && (Terminal(e.status) ==> h != [])
    && (!Terminal(e.status) ==> e.retryCount <= 6)
    && (e.status == PENDING ==> h == []) && (e.status == RETRY_WAIT ==> h != [])
    && (e.lockedBy.Some? <==> e.status == PROCESSING)
  }

  /** What an operator's retry makes of the ledger: the event starts over at 0 while the attempts of
      its first life, the dead letter last, stay - and it is never settled again. */
  ghost predicate Stuck(e: Event, h: seq<Attempt>) {
    && (e.status == PENDING || e.status == PROCESSING) && e.retryCount == 0 && e.nextRetryAt.None?
    && 1 <= |h| <= 7 && (forall i :: 0 <= i < |h| ==> h[i].no == i + 1) && h[|h| - 1].result == DEAD_LETTER
    && (e.lockedBy.Some? <==> e.status == PROCESSING)
  }

  ghost predicate Account(db: Db, requeued: set<EventId>, id: EventId)
    requires id in db.events
  {
    if id in requeued then Stuck(db.events[id], History(db.attempts, id))
    else Ledger(db.events[id], History(db.attempts, id))
  }

  /** A claim's copy of the count is the row's for as long as its token holds the row. */
  ghost predicate ClaimOk(w: World, t: Token)
    requires t in w.claims
  {
    var m := w.claims[t];
    && m.claim.token == t && m.claim.id in w.db.events && m.claim.retryCount <= 6
    && (w.db.events[m.claim.id].lockedBy == Some(t) ==> w.db.events[m.claim.id].retryCount == m.claim.retryCount)
    && (m.stage.Cleared? || m.stage.Answered? ==> m.stage.command.event == m.claim.id)
    && (m.stage.Answered? ==> m.stage.command in w.calls)
  }

  ghost predicate LockOk(w: World, id: EventId)
    requires id in w.db.events
  {
    w.db.events[id].lockedBy.Some? ==>
      w.db.events[id].lockedBy.value in w.claims && w.claims[w.db.events[id].lockedBy.value].claim.id == id
  }

  ghost predicate Called(w: World, id: EventId) { exists c :: c in w.calls && c.event == id }

  ghost predicate Accounts(w: World) {
    && w.requeued <= w.db.events.Keys && (forall id :: id in w.db.events ==> Account(w.db, w.requeued, id))
    && (forall a :: a in w.db.attempts ==> a.event in w.db.events)
  }

  ghost predicate ClaimsOk(w: World) { forall t :: t in w.claims ==> ClaimOk(w, t) }
  ghost predicate LocksOk(w: World) { forall id :: id in w.db.events ==> LockOk(w, id) }
  ghost predicate SentOk(w: World) {
    forall id :: id in w.db.events && w.db.events[id].status == SENT ==> Called(w, id)
  }

  ghost predicate Inv(w: World) { Accounts(w) && ClaimsOk(w) && LocksOk(w) && SentOk(w) }
}
