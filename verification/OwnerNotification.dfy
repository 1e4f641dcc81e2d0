/** Owner-change notifications: every hand-over of an opportunity writes an audit row and one outbox
  * event per party; a worker projects an event into a notification only while the audit trail and
  * the opportunity still bear it out, and cancels what the hand-over made obsolete.
  */
module OwnerNotification {
  import opened Wrappers
  import Splitter

  type Time = int
  type Key = (string, nat)     // tenant, opportunity

  const PREVIOUS_OWNER := "PREVIOUS_OWNER"
  const NEW_OWNER := "NEW_OWNER"
  const DELAYS: seq<Time> := [60, 300, 900, 3600, 10800, 21600]

  // The stable identity is a digest, taken as collision free.
  datatype EventId = Stable(tenant: string, opportunity: nat, version: nat, kind: string) | Foreign(raw: string)

  datatype Status = PENDING | RETRY_WAIT | PROCESSING | SENT | CANCELLED | DEAD_LETTER
  datatype Payload = Payload(opportunity: nat, version: nat, recipient: string, kind: string, owner: string)

  datatype Event = Event(
    tenant: string, aggregateType: string, aggregate: string, payload: Option<Payload>,
    status: Status, retryCount: nat, nextRetryAt: Option<Time>, lockedBy: string, lockedUntil: Option<Time>)

  datatype Opportunity = Opportunity(owner: string, version: nat, active: bool)
  datatype Audit = Audit(key: Key, version: nat, before: string, after: string)

  datatype Reading = UNREAD | READ | WITHDRAWN
  datatype Note = Note(key: Key, version: nat, kind: string, recipient: string, status: Reading)

  /** `audits` in the order of their ids; a notification is keyed by its source event. */
  datatype Db = Db(
    opportunities: map<Key, Opportunity>, audits: seq<Audit>, events: map<EventId, Event>, notes: map<EventId, Note>)

  // ---------------------------------------------------------------- is the event still true?

  predicate SelfConsistent(id: EventId, e: Event) {
    && e.payload.Some?
    && var p := e.payload.value;
       && e.aggregateType == "opportunity" && e.aggregate == Decimal(p.opportunity)
       && p.opportunity != 0 && p.version != 0
       && Splitter.Trim(p.recipient) != "" && Splitter.Trim(p.owner) != ""
       && (p.kind == PREVIOUS_OWNER || p.kind == NEW_OWNER)
       && id == Stable(e.tenant, p.opportunity, p.version, p.kind)
  }

  /** The newest audit row of this version. */
  function AuditOf(audits: seq<Audit>, key: Key, version: nat): (i: Option<nat>)
    ensures i.Some? ==> i.value < |audits| && audits[i.value].key == key && audits[i.value].version == version
    ensures forall j :: (if i.Some? then i.value else -1) < j < |audits| ==>
              audits[j].key != key || audits[j].version != version
  {
    if audits == [] then None
    else
      var n := |audits| - 1;
      if audits[n].key == key && audits[n].version == version then Some(n) else AuditOf(audits[..n], key, version)
  }

  predicate Superseded(audits: seq<Audit>, key: Key, i: nat) { exists j :: i < j < |audits| && audits[j].key == key }

  predicate Matches(a: Audit, p: Payload) {
    && a.after == p.owner
    && (p.kind == PREVIOUS_OWNER ==> a.before == p.recipient && a.before != a.after)
    && (p.kind == NEW_OWNER ==> a.after == p.recipient)
  }

  datatype Judgement = Unfounded | Obsolete | Valid(payload: Payload)

  function Judge(db: Db, id: EventId): Judgement
    requires id in db.events
  {
    var e := db.events[id];
    if !SelfConsistent(id, e) then Unfounded
    else
      var p := e.payload.value;
      var key := (e.tenant, p.opportunity);
      if key !in db.opportunities then Obsolete
      else
        var i := AuditOf(db.audits, key, p.version);
        if i.None? || !Matches(db.audits[i.value], p) then Unfounded
        else
          var o := db.opportunities[key];
          if Superseded(db.audits, key, i.value) || o.version < p.version || o.owner != db.audits[i.value].after
              || !o.active
          then Obsolete else Valid(p)
  }

  // ---------------------------------------------------------------- the transactions

  predicate Claimable(e: Event, now: Time) {
    || ((e.status == PENDING || e.status == RETRY_WAIT) && (e.nextRetryAt.None? || e.nextRetryAt.value <= now))
    || (e.status == PROCESSING && e.lockedUntil.Some? && e.lockedUntil.value < now)
  }

  predicate Fenced(db: Db, id: EventId, worker: string, now: Time) {
    && id in db.events
    && var e := db.events[id];
       e.status == PROCESSING && e.lockedBy == worker && e.lockedUntil.Some? && e.lockedUntil.value >= now
  }

  datatype Outcome = Done | LeaseLost | Failed

  function ClaimSpec(db: Db, id: EventId, worker: string, now: Time, lease: Time): (Db, Option<nat>) {
    if id in db.events && Claimable(db.events[id], now) then
      var e := db.events[id];
      (db.(events := db.events[id := e.(status := PROCESSING, lockedBy := worker, lockedUntil := Some(now + lease))]),
       Some(e.retryCount))
    else (db, None)
  }

  function Settled(e: Event, status: Status, retry: nat, next: Option<Time>): Event {
    e.(status := status, retryCount := retry, nextRetryAt := next, lockedBy := "", lockedUntil := None)
  }

  function Settle(db: Db, id: EventId, status: Status, retry: nat, next: Option<Time>): Db
    requires id in db.events
  {
    db.(events := db.events[id := Settled(db.events[id], status, retry, next)])
  }

  /** What a hand-over at `version` makes obsolete. */
  predicate Outdated(n: Note, id: EventId, key: Key, version: nat, source: EventId) {
    n.key == key && n.status == UNREAD && n.version < version && id != source
  }

  function Withdraw(notes: map<EventId, Note>, key: Key, version: nat, source: EventId): map<EventId, Note> {
    map id | id in notes ::
          if Outdated(notes[id], id, key, version, source) then notes[id].(status := WITHDRAWN) else notes[id]
  }

  function Project(notes: map<EventId, Note>, id: EventId, key: Key, p: Payload): map<EventId, Note> {
    var kept := Withdraw(notes, key, p.version, id);
    if id in kept then kept else kept[id := Note(key, p.version, p.kind, p.recipient, UNREAD)]
  }

  /** `fault`: the database fails somewhere in the transaction, which rolls back. */
  function ProcessSpec(db: Db, id: EventId, worker: string, now: Time, fault: bool): (Db, Outcome) {
    if fault then (db, Failed)
    else if !Fenced(db, id, worker, now) then (db, LeaseLost)
    else
      var e := db.events[id];
      match Judge(db, id)
      case Unfounded => (Settle(db, id, DEAD_LETTER, e.retryCount + 1, None), Done)
      case Obsolete => (Settle(db, id, CANCELLED, e.retryCount, None), Done)
      case Valid(p) =>
        (Settle(db.(notes := Project(db.notes, id, (e.tenant, p.opportunity), p)), id, SENT, e.retryCount, None), Done)
  }

  function FailurePlan(now: Time, attempt: nat): (Status, Option<Time>) {
    if 0 < attempt <= |DELAYS| then (RETRY_WAIT, Some(now + DELAYS[attempt - 1])) else (DEAD_LETTER, None)
  }

  /** `retryCount` is the worker's copy from when it claimed the event. */
  function RetrySpec(db: Db, id: EventId, worker: string, retryCount: nat, now: Time): (Db, Outcome) {
    if !Fenced(db, id, worker, now) then (db, LeaseLost)
    else
      var (status, next) := FailurePlan(now, retryCount + 1);
      (Settle(db, id, status, retryCount + 1, next), Done)
  }

  class NotificationStore {
    var opportunities: map<Key, Opportunity>
    var audits: seq<Audit>
    var events: map<EventId, Event>
    var notes: map<EventId, Note>

    function State(): Db reads this { Db(opportunities, audits, events, notes) }

    /** `id` is one of the rows that SKIP LOCKED hands to this transaction. */
    method Claim(id: EventId, worker: string, now: Time, lease: Time) returns (claimed: Option<nat>)
      modifies this`events
      ensures (State(), claimed) == ClaimSpec(old(State()), id, worker, now, lease)
    {
      if id !in events || !Claimable(events[id], now) { return None; }
      var e := events[id];
      events := events[id := e.(status := PROCESSING, lockedBy := worker, lockedUntil := Some(now + lease))];
      return Some(e.retryCount);
    }

    // ORDER BY id DESC, first row.
    method FindAudit(key: Key, version: nat) returns (found: Option<nat>)
      ensures found == AuditOf(audits, key, version)
    {
      var n := |audits|;
      assert audits[..n] == audits;
      while n > 0
        invariant 0 <= n <= |audits| && AuditOf(audits, key, version) == AuditOf(audits[..n], key, version)
      {
        n := n - 1;
        assert audits[..n + 1][..n] == audits[..n];
        if audits[n].key == key && audits[n].version == version { return Some(n); }
      }
      return None;
    }

    method CountLater(key: Key, i: nat) returns (later: nat)
      requires i < |audits|
      ensures later > 0 <==> Superseded(audits, key, i)
    {
      later := 0;
      for j := i + 1 to |audits|
        invariant later > 0 <==> exists k :: i < k < j && audits[k].key == key
      {
        if audits[j].key == key { later := later + 1; }
      }
    }

    method CancelObsoleteUnread(key: Key, version: nat, source: EventId)
      modifies this`notes
      ensures notes == Withdraw(old(notes), key, version, source)
    {
      notes := map id | id in notes ::
        if notes[id].key == key && notes[id].status == UNREAD && notes[id].version < version && id != source
        then notes[id].(status := WITHDRAWN) else notes[id];
    }

    method FinishWithRetry(id: EventId, worker: string, status: Status, next: Option<Time>, retry: nat)
      returns (o: Outcome)
      requires id in events && events[id].status == PROCESSING && events[id].lockedBy == worker
      modifies this`events
      ensures State() == Settle(old(State()), id, status, retry, next) && o == Done
    {
      var e := events[id];
      events := events[id :=
                       e.(status := status, retryCount := retry, nextRetryAt := next, lockedBy := "",
                          lockedUntil := None)];
      return Done;
    }

    method Process(id: EventId, worker: string, now: Time, fault: bool) returns (o: Outcome)
      modifies this`events, this`notes
      ensures (State(), o) == ProcessSpec(old(State()), id, worker, now, fault)
    {
      if fault { return Failed; }
      if !Fenced(State(), id, worker, now) { return LeaseLost; }
      var locked := events[id];
      if !SelfConsistent(id, locked) {
        o := FinishWithRetry(id, worker, DEAD_LETTER, None, locked.retryCount + 1);
        return;
      }
      var p := locked.payload.value;
      var key := (locked.tenant, p.opportunity);
      if key !in opportunities {
        o := FinishWithRetry(id, worker, CANCELLED, None, locked.retryCount);
        return;
      }
      var i := FindAudit(key, p.version);
      if i.None? || !Matches(audits[i.value], p) {
        o := FinishWithRetry(id, worker, DEAD_LETTER, None, locked.retryCount + 1);
        return;
      }
      var later := CountLater(key, i.value);
      var current := opportunities[key];
      if later > 0 || current.version < p.version || current.owner != audits[i.value].after || !current.active {
        o := FinishWithRetry(id, worker, CANCELLED, None, locked.retryCount);
        return;
      }
      CancelObsoleteUnread(key, p.version, id);
      if id !in notes { notes := notes[id := Note(key, p.version, p.kind, p.recipient, UNREAD)]; }
      o := FinishWithRetry(id, worker, SENT, None, locked.retryCount);
    }

    method Retry(id: EventId, worker: string, retryCount: nat, now: Time) returns (o: Outcome)
      modifies this`events
      ensures (State(), o) == RetrySpec(old(State()), id, worker, retryCount, now)
    {
      var attempt := retryCount + 1;
      var (status, next) := FailurePlan(now, attempt);
      if !Fenced(State(), id, worker, now) { return LeaseLost; }
      events := events[id := events[id].(status := status, retryCount := attempt, nextRetryAt := next,
                                         lockedBy := "", lockedUntil := None)];
      return Done;
    }

    /** The events of one claimed batch, in order, until the lease of one is lost. */
    method ProcessBatch(batch: seq<Item>, worker: string) returns (total: nat, lost: bool)
      modifies this`events, this`notes
      ensures (State(), lost) == BatchSpec(old(State()), batch, worker)
      ensures total <= |batch| && (lost <==> total < |batch|)
      ensures (State(), false) == BatchSpec(old(State()), batch[..total], worker)
    {
      hide ProcessSpec, RetrySpec;
      total, lost := 0, false;
      for k := 0 to |batch|
        invariant (State(), false) == BatchSpec(old(State()), batch[..k], worker) && !lost && total == k
      {
        var item := batch[k];
        assert batch[..k + 1][..k] == batch[..k];
        ghost var before := State();
        var o := Process(item.id, worker, item.at, item.fault);
        if o == Failed { o := Retry(item.id, worker, item.retryCount, item.retryAt); }
        assert (State(), o) == ItemSpec(before, item, worker);
        if o == LeaseLost {
          LostChangesNothing(before, item, worker);
          LostStaysLost(old(State()), batch, k + 1, worker);
          return total, true;
        }
        total := total + 1;
      }
      assert batch[..|batch|] == batch;
    }
  }

  /** A claimed event with what happens when its turn comes. */
  datatype Item = Item(id: EventId, retryCount: nat, at: Time, fault: bool, retryAt: Time)

  function ItemSpec(db: Db, item: Item, worker: string): (Db, Outcome) {
    var (after, o) := ProcessSpec(db, item.id, worker, item.at, item.fault);
    if o == Failed then RetrySpec(after, item.id, worker, item.retryCount, item.retryAt) else (after, o)
  }

  function BatchSpec(db: Db, batch: seq<Item>, worker: string): (Db, bool) {
    if batch == [] then (db, false)
    else
      var n := |batch| - 1;
      var (before, lost) := BatchSpec(db, batch[..n], worker);
      if lost then (before, true)
      else
        var (after, o) := ItemSpec(before, batch[n], worker);
        (after, o == LeaseLost)
  }

  lemma LostChangesNothing(db: Db, item: Item, worker: string)
    requires ItemSpec(db, item, worker).1 == LeaseLost
    ensures ItemSpec(db, item, worker).0 == db
  {
    hide Judge, Project;
  }

  lemma {:induction false} LostStaysLost(db: Db, batch: seq<Item>, k: nat, worker: string)
    requires k <= |batch| && BatchSpec(db, batch[..k], worker).1
    ensures BatchSpec(db, batch, worker) == BatchSpec(db, batch[..k], worker)
    decreases |batch| - k
  {
    hide ItemSpec;
    if k == |batch| {
      assert batch[..k] == batch;
    } else {
      assert batch[..k + 1][..k] == batch[..k];
      LostStaysLost(db, batch, k + 1, worker);
    }
  }

  // ---------------------------------------------------------------- everybody together

  datatype World = World(db: Db, held: map<string, map<EventId, nat>>)

  datatype Step =
    | HandOver(key: Key, owner: string, orgChanged: bool)
    | Edit(key: Key, opportunity: Opportunity)
    | Enqueue(id: EventId, event: Event)
    | Replay(id: EventId)
    | Take(id: EventId, worker: string, now: Time, lease: Time)
    | Handle(item: Item, worker: string)
    | Open(id: EventId)
    | Stop(worker: string)

  function PartyEvent(key: Key, version: nat, kind: string, recipient: string, owner: string): Event {
    Event(key.0, "opportunity", Decimal(key.1), Some(Payload(key.1, version, recipient, kind, owner)), PENDING, 0,
          None, "", None)
  }

  /** The opportunity service changes the owner: version, events and audit row in one transaction.
      A clash of event identities rolls it back. */
  function HandOverSpec(db: Db, key: Key, owner: string, orgChanged: bool): Db {
    if key !in db.opportunities || !db.opportunities[key].active then db
    else
      var o := db.opportunities[key];
      var v := o.version + 1;
      var previous, next := Stable(key.0, key.1, v, PREVIOUS_OWNER), Stable(key.0, key.1, v, NEW_OWNER);
      if o.owner == owner then
        if !orgChanged then db
        else db.(opportunities := db.opportunities[key := o.(version := v)],
                 audits := db.audits + [Audit(key, v, o.owner, owner)])
      else if previous in db.events || next in db.events then db
      else
        Db(db.opportunities[key := o.(owner := owner, version := v)], db.audits + [Audit(key, v, o.owner, owner)],
           db.events[previous := PartyEvent(key, v, PREVIOUS_OWNER, o.owner, owner)]
                    [next := PartyEvent(key, v, NEW_OWNER, owner, owner)],
           db.notes)
  }

  function Do(w: World, s: Step): World {
    match s
    case HandOver(key, owner, orgChanged) => w.(db := HandOverSpec(w.db, key, owner, orgChanged))
    case Edit(key, o) =>                 // any other change; versions never go back
      if key in w.db.opportunities && o.version < w.db.opportunities[key].version then w
      else if key !in w.db.opportunities && exists a :: a in w.db.audits && a.key == key then w
      else w.(db := w.db.(opportunities := w.db.opportunities[key := o]))
    case Enqueue(id, event) =>           // whoever else writes to the outbox
      if id in w.db.events then w
      else w.(db := w.db.(events := w.db.events[id := event.(status := PENDING, retryCount := 0)]))
    case Replay(id) =>                   // more than the code offers: a finished event queued again
      if id !in w.db.events || w.db.events[id].status !in {SENT, CANCELLED, DEAD_LETTER} then w
      else w.(db := Settle(w.db, id, PENDING, 0, None))
    case Take(id, worker, now, lease) =>
      var (db, claimed) := ClaimSpec(w.db, id, worker, now, lease);
      var mine := if worker in w.held then w.held[worker] else map[];
      World(db, if claimed.Some? then w.held[worker := mine[id := claimed.value]] else w.held)
    case Handle(item, worker) =>
      if worker !in w.held || item.id !in w.held[worker] || w.held[worker][item.id] != item.retryCount then w
      else
        var (db, o) := ItemSpec(w.db, item, worker);
        World(db, if o == LeaseLost then w.held - {worker} else w.held[worker := w.held[worker] - {item.id}])
    case Open(id) =>
      if id !in w.db.notes || w.db.notes[id].status != UNREAD then w
      else w.(db := w.db.(notes := w.db.notes[id := w.db.notes[id].(status := READ)]))
    case Stop(worker) => w.(held := w.held - {worker})
  }

  function DoAll(w: World, steps: seq<Step>): World {
    if steps == [] then w else Do(DoAll(w, steps[..|steps| - 1]), steps[|steps| - 1])
  }

  predicate Initial(w: World) { w.db.audits == [] && w.db.events == map[] && w.db.notes == map[] && w.held == map[] }
}
