/** What readers of owner-change notifications can rely on, over every interleaving. */
module OwnerNotificationLaws {
  import opened Wrappers
  import opened OwnerNotification
  import Splitter

  /** The audit trail of an opportunity carries increasing versions, none above the opportunity's. */
  predicate TrailOk(db: Db) {
    && (forall i, j :: 0 <= i < j < |db.audits| && db.audits[i].key == db.audits[j].key ==>
          db.audits[i].version < db.audits[j].version)
    && (forall i :: 0 <= i < |db.audits| ==>
          db.audits[i].key in db.opportunities && db.audits[i].version <= db.opportunities[db.audits[i].key].version)
  }

  predicate Audited(audits: seq<Audit>, key: Key, version: nat) {
    exists i :: 0 <= i < |audits| && audits[i].key == key && audits[i].version == version
  }

  predicate Backed(audits: seq<Audit>, n: Note) { Audited(audits, n.key, n.version) }

  /** A notification's columns are those of its source event, and an audit row backs it. */
  predicate NoteOk(audits: seq<Audit>, id: EventId, n: Note) {
    && id == Stable(n.key.0, n.key.1, n.version, n.kind) && (n.kind == PREVIOUS_OWNER || n.kind == NEW_OWNER)
    && Backed(audits, n)
  }

  /** All unread notifications of an opportunity are about the same hand-over. */
  predicate Unified(notes: map<EventId, Note>) {
    forall a, b :: a in notes && b in notes && notes[a].status == UNREAD && notes[b].status == UNREAD
        && notes[a].key == notes[b].key
      ==> notes[a].version == notes[b].version
  }

  predicate DbOk(db: Db) {
    && TrailOk(db) && Unified(db.notes)
    && (forall id :: id in db.notes ==> NoteOk(db.audits, id, db.notes[id]))
  }

  // ---------------------------------------------------------------- each transaction

  // An approved event carries the newest audited version of its opportunity.
  lemma ApprovedIsNewest(db: Db, id: EventId)
    requires TrailOk(db) && id in db.events && Judge(db, id).Valid?
    ensures var e, p := db.events[id], Judge(db, id).payload;
            && id == Stable(e.tenant, p.opportunity, p.version, p.kind)
               && (p.kind == PREVIOUS_OWNER || p.kind == NEW_OWNER)
            && Audited(db.audits, (e.tenant, p.opportunity), p.version)
            && (forall i :: 0 <= i < |db.audits| && db.audits[i].key == (e.tenant, p.opportunity) ==>
                  db.audits[i].version <= p.version)
  {
    var e, p := db.events[id], Judge(db, id).payload;
    var key := (e.tenant, p.opportunity);
    var k := AuditOf(db.audits, key, p.version).value;
    assert !Superseded(db.audits, key, k);
  }

  lemma TrailSame(db: Db, notes: map<EventId, Note>)
    requires TrailOk(db)
    ensures TrailOk(db.(notes := notes))
  {
  }

  lemma ProjectKeeps(db: Db, id: EventId, key: Key, p: Payload)
    requires DbOk(db) && id == Stable(key.0, key.1, p.version, p.kind)
             && (p.kind == PREVIOUS_OWNER || p.kind == NEW_OWNER)
    requires Audited(db.audits, key, p.version)
    requires forall i :: 0 <= i < |db.audits| && db.audits[i].key == key ==> db.audits[i].version <= p.version
    ensures DbOk(db.(notes := Project(db.notes, id, key, p)))
  {
    hide TrailOk, Project, Unified, NoteOk;
    TrailSame(db, Project(db.notes, id, key, p));
    forall a | a in db.notes && db.notes[a].key == key ensures db.notes[a].version <= p.version {
      NoteIsAudited(db, a);
    }
    if id in db.notes { NoteIsAudited(db, id); }
    ProjectUnifies(db.notes, id, key, p);
    assert Backed(db.audits, Note(key, p.version, p.kind, p.recipient, UNREAD));
    assert NoteOk(db.audits, id, Note(key, p.version, p.kind, p.recipient, UNREAD)) by {
      NoteIs(db.audits, id, key, p);
    }
    ProjectNotes(db, id, key, p);
  }

  lemma NoteIs(audits: seq<Audit>, id: EventId, key: Key, p: Payload)
    requires id == Stable(key.0, key.1, p.version, p.kind) && (p.kind == PREVIOUS_OWNER || p.kind == NEW_OWNER)
    requires Backed(audits, Note(key, p.version, p.kind, p.recipient, UNREAD))
    ensures NoteOk(audits, id, Note(key, p.version, p.kind, p.recipient, UNREAD))
  {
  }

  lemma NoteIsAudited(db: Db, a: EventId)
    requires DbOk(db) && a in db.notes
    ensures a == Stable(db.notes[a].key.0, db.notes[a].key.1, db.notes[a].version, db.notes[a].kind)
    ensures Audited(db.audits, db.notes[a].key, db.notes[a].version)
  {
    assert NoteOk(db.audits, a, db.notes[a]);
  }

  lemma ProjectUnifies(notes: map<EventId, Note>, id: EventId, key: Key, p: Payload)
    requires Unified(notes) && forall a :: a in notes && notes[a].key == key ==> notes[a].version <= p.version
    requires id in notes ==> notes[id].key == key && notes[id].version == p.version
    ensures Unified(Project(notes, id, key, p))
  {
  }

  lemma ProjectNotes(db: Db, id: EventId, key: Key, p: Payload)
    requires forall a :: a in db.notes ==> NoteOk(db.audits, a, db.notes[a])
    requires NoteOk(db.audits, id, Note(key, p.version, p.kind, p.recipient, UNREAD))
    ensures forall a :: a in Project(db.notes, id, key, p) ==> NoteOk(db.audits, a, Project(db.notes, id, key, p)[a])
  {
    hide Backed;
    forall a | a in db.notes ensures NoteOk(db.audits, a, db.notes[a].(status := WITHDRAWN)) {
      assert NoteOk(db.audits, a, db.notes[a]);
      BackedIgnoresStatus(db.audits, db.notes[a]);
    }
  }

  lemma BackedIgnoresStatus(audits: seq<Audit>, n: Note)
    ensures Backed(audits, n.(status := WITHDRAWN)) <==> Backed(audits, n)
  {
  }

  lemma SettleKeeps(db: Db, id: EventId, status: Status, retry: nat, next: Option<Time>)
    requires DbOk(db) && id in db.events
    ensures DbOk(Settle(db, id, status, retry, next))
  {
    hide NoteOk, Unified;
  }

  lemma ProcessKeeps(db: Db, id: EventId, worker: string, now: Time, fault: bool)
    requires DbOk(db)
    ensures DbOk(ProcessSpec(db, id, worker, now, fault).0)
  {
    hide Judge, DbOk, Project, Settle, Splitter.Trim;
    if !fault && Fenced(db, id, worker, now) {
      var e := db.events[id];
      SettleKeeps(db, id, DEAD_LETTER, e.retryCount + 1, None);
      SettleKeeps(db, id, CANCELLED, e.retryCount, None);
      if Judge(db, id).Valid? {
        var p := Judge(db, id).payload;
        assert TrailOk(db) by { TrailOf(db); }
        ApprovedIsNewest(db, id);
        ProjectKeeps(db, id, (e.tenant, p.opportunity), p);
        SettleKeeps(db.(notes := Project(db.notes, id, (e.tenant, p.opportunity), p)), id, SENT, e.retryCount, None);
      }
    }
  }

  lemma TrailOf(db: Db)
    requires DbOk(db)
    ensures TrailOk(db)
  {
  }

  lemma ItemKeeps(db: Db, item: Item, worker: string)
    requires DbOk(db)
    ensures DbOk(ItemSpec(db, item, worker).0)
  {
    hide DbOk, ProcessSpec, Settle;
    ProcessKeeps(db, item.id, worker, item.at, item.fault);
    var (after, o) := ProcessSpec(db, item.id, worker, item.at, item.fault);
    if Fenced(after, item.id, worker, item.retryAt) {
      var (status, next) := FailurePlan(item.retryAt, item.retryCount + 1);
      SettleKeeps(after, item.id, status, item.retryCount + 1, next);
    }
  }

  lemma AuditGrows(audits: seq<Audit>, a: Audit, n: Note)
    requires Backed(audits, n)
    ensures Backed(audits + [a], n)
  {
    var i :| 0 <= i < |audits| && audits[i].key == n.key && audits[i].version == n.version;
    assert (audits + [a])[i] == audits[i];
  }

  lemma HandOverKeeps(db: Db, key: Key, owner: string, orgChanged: bool)
    requires DbOk(db)
    ensures DbOk(HandOverSpec(db, key, owner, orgChanged))
  {
    hide Unified, Backed, PartyEvent, Decimal;
    var db' := HandOverSpec(db, key, owner, orgChanged);
    if db'.audits != db.audits {
      forall id | id in db.notes ensures NoteOk(db'.audits, id, db.notes[id]) {
        AuditGrows(db.audits, db'.audits[|db.audits|], db.notes[id]);
      }
    }
  }

  lemma OpenKeeps(db: Db, id: EventId)
    requires DbOk(db) && id in db.notes
    ensures DbOk(db.(notes := db.notes[id := db.notes[id].(status := READ)]))
  {
    hide TrailOk;
    TrailSame(db, db.notes[id := db.notes[id].(status := READ)]);
  }

  lemma EditKeeps(w: World, s: Step)
    requires DbOk(w.db) && (s.Edit? || s.Enqueue? || s.Take? || s.Stop?)
    ensures DbOk(Do(w, s).db)
  {
    hide NoteOk, Unified;
  }

  lemma StepKeeps(w: World, s: Step)
    requires DbOk(w.db)
    ensures DbOk(Do(w, s).db)
  {
    hide DbOk, HandOverSpec, ItemSpec, Settle, ClaimSpec;
    match s
    case HandOver(key, owner, org) => HandOverKeeps(w.db, key, owner, org);
    case Handle(item, worker) => ItemKeeps(w.db, item, worker);
    case Replay(id) => if id in w.db.events { SettleKeeps(w.db, id, PENDING, 0, None); }
    case Open(id) => if id in w.db.notes { OpenKeeps(w.db, id); }
    case _ => EditKeeps(w, s);
  }

  lemma {:induction false} AlwaysOk(w: World, steps: seq<Step>)
    requires Initial(w)
    ensures DbOk(DoAll(w, steps).db)
  {
    hide Do;
    if steps != [] {
      AlwaysOk(w, steps[..|steps| - 1]);
      StepKeeps(DoAll(w, steps[..|steps| - 1]), steps[|steps| - 1]);
    }
  }

  /** In every reachable state two unread notifications of one opportunity are about the same
      hand-over, and if they also address the same party they are one notification - whatever order
      events were claimed, failed, retried or replayed in. */
  lemma UnreadIsOneHandOver(w: World, steps: seq<Step>, a: EventId, b: EventId)
    requires Initial(w)
    requires var notes := DoAll(w, steps).db.notes;
             a in notes && b in notes && notes[a].key == notes[b].key && notes[a].status == UNREAD
                 && notes[b].status == UNREAD
    ensures var notes := DoAll(w, steps).db.notes;
            notes[a].version == notes[b].version && (notes[a].kind == notes[b].kind ==> a == b)
  {
    hide DoAll;
    AlwaysOk(w, steps);
    var db := DoAll(w, steps).db;
    assert NoteOk(db.audits, a, db.notes[a]) && NoteOk(db.audits, b, db.notes[b]);
  }

  /** So does a whole batch of one worker, wherever it stops. */
  lemma {:induction false} BatchKeeps(db: Db, batch: seq<Item>, worker: string)
    requires DbOk(db)
    ensures DbOk(BatchSpec(db, batch, worker).0)
  {
    hide DbOk, ItemSpec;
    if batch != [] {
      var n := |batch| - 1;
      BatchKeeps(db, batch[..n], worker);
      ItemKeeps(BatchSpec(db, batch[..n], worker).0, batch[n], worker);
    }
  }

  // ---------------------------------------------------------------- notifications only fade

  predicate Faded(n: Note, m: Note) {
    m == n || (n.status == UNREAD && m == n.(status := READ)) || (n.status == UNREAD && m == n.(status := WITHDRAWN))
  }

  lemma ProcessFades(db: Db, id: EventId, worker: string, now: Time, fault: bool, note: EventId)
    requires note in db.notes
    ensures note in ProcessSpec(db, id, worker, now, fault).0.notes
    ensures Faded(db.notes[note], ProcessSpec(db, id, worker, now, fault).0.notes[note])
  {
    hide Judge;
  }

  lemma FadeStep(w: World, s: Step, note: EventId)
    requires note in w.db.notes
    ensures note in Do(w, s).db.notes && Faded(w.db.notes[note], Do(w, s).db.notes[note])
  {
    hide ProcessSpec, PartyEvent, Claimable;
    if s.Handle? { ProcessFades(w.db, s.item.id, s.worker, s.item.at, s.item.fault, note); }
  }

  /** A source event is projected at most once, with fixed contents: a notification that was read or
      withdrawn never comes back, not even if its event is replayed. */
  lemma {:induction false} NeverRevived(w: World, steps: seq<Step>, note: EventId)
    requires note in w.db.notes
    ensures note in DoAll(w, steps).db.notes && Faded(w.db.notes[note], DoAll(w, steps).db.notes[note])
  {
    hide Do;
    if steps != [] {
      NeverRevived(w, steps[..|steps| - 1], note);
      FadeStep(DoAll(w, steps[..|steps| - 1]), steps[|steps| - 1], note);
    }
  }

  // ---------------------------------------------------------------- what is sent

  /** A notification appears only by a transaction that held the event's lease, and then it states
      the newest hand-over of a live opportunity: the recipient is a party of the newest audit row
      and the new owner there is the owner now. */
  lemma SentIsTrue(db: Db, id: EventId, worker: string, now: Time)
    requires TrailOk(db) && id !in db.notes && id in ProcessSpec(db, id, worker, now, false).0.notes
    ensures Fenced(db, id, worker, now)
    ensures var n := ProcessSpec(db, id, worker, now, false).0.notes[id];
            n.status == UNREAD && n.key in db.opportunities
            && var o := db.opportunities[n.key];
               o.active && o.version >= n.version
               && exists i :: 0 <= i < |db.audits| && db.audits[i].key == n.key && db.audits[i].version == n.version
                    && db.audits[i].after == o.owner
                    && (n.kind == NEW_OWNER ==> n.recipient == o.owner)
                    && (n.kind == PREVIOUS_OWNER ==> n.recipient == db.audits[i].before != o.owner)
                    && (forall j :: 0 <= j < |db.audits| && db.audits[j].key == n.key ==> j <= i)
  {
    hide Splitter.Trim, Decimal, TrailOk;
    var e := db.events[id];
    var p := Judge(db, id).payload;
    var i := AuditOf(db.audits, (e.tenant, p.opportunity), p.version).value;
    assert !Superseded(db.audits, (e.tenant, p.opportunity), i);
  }

  /** A worker whose lease ran out, or whose event another worker took over, changes nothing. */
  lemma LateWorkerRejected(db: Db, item: Item, worker: string)
    requires !Fenced(db, item.id, worker, item.at) && !Fenced(db, item.id, worker, item.retryAt)
    ensures ItemSpec(db, item, worker) == (db, LeaseLost)
  {
  }

  // ---------------------------------------------------------------- retries

  predicate HeldBy(db: Db, id: EventId, worker: string) {
    id in db.events && db.events[id].status == PROCESSING && db.events[id].lockedBy == worker
  }

  /** What a worker remembers about an event it still holds is what the row says, and an event that
      is not finished has failed at most six times. */
  predicate RetriesOk(w: World) {
    && (forall id :: id in w.db.events ==>
          && w.db.events[id].retryCount <= 7
          && (w.db.events[id].status in {PENDING, RETRY_WAIT, PROCESSING} ==> w.db.events[id].retryCount <= 6))
    && (forall a, id :: a in w.held && id in w.held[a] && HeldBy(w.db, id, a) ==>
          w.held[a][id] == w.db.events[id].retryCount)
  }

  // Processing or failing an event ends the claim and counts at most one failure.
  lemma ItemCounts(db: Db, item: Item, worker: string)
    ensures var (db', o) := ItemSpec(db, item, worker);
            if o == LeaseLost then db' == db
            else
              && (exists at :: Fenced(db, item.id, worker, at))
              && exists status, retry: nat, next ::
                   db'.events == db.events[item.id := Settled(db.events[item.id], status, retry, next)]
                   && status != PENDING && status != PROCESSING
                   && (status == RETRY_WAIT ==> retry == item.retryCount + 1 <= 6)
                   && (status != RETRY_WAIT ==>
                         retry <= db.events[item.id].retryCount + 1 || retry == item.retryCount + 1)
  {
    hide Judge, Project;
  }

  lemma ItemRetries(w: World, item: Item, worker: string)
    requires RetriesOk(w)
    requires worker in w.held && item.id in w.held[worker] && w.held[worker][item.id] == item.retryCount
    ensures RetriesOk(Do(w, Handle(item, worker)))
  {
    hide ItemSpec;
    ItemCounts(w.db, item, worker);
    var (db, o) := ItemSpec(w.db, item, worker);
    if o != LeaseLost { assert HeldBy(w.db, item.id, worker); }
  }

  lemma RetryStep(w: World, s: Step)
    requires RetriesOk(w)
    ensures RetriesOk(Do(w, s))
  {
    hide Judge, Project, ItemSpec, PartyEvent;
    match s
    case Handle(item, worker) =>
      if worker in w.held && item.id in w.held[worker] && w.held[worker][item.id] == item.retryCount {
        ItemRetries(w, item, worker);
      }
    case Take(id, worker, now, lease) => TakeRetries(w, id, worker, now, lease);
    case HandOver(key, owner, org) => HandOverRetries(w, key, owner, org);
    case _ =>
  }

  lemma TakeRetries(w: World, id: EventId, worker: string, now: Time, lease: Time)
    requires RetriesOk(w)
    ensures RetriesOk(Do(w, Take(id, worker, now, lease)))
  {
  }

  lemma HandOverRetries(w: World, key: Key, owner: string, org: bool)
    requires RetriesOk(w)
    ensures RetriesOk(Do(w, HandOver(key, owner, org)))
  {
    hide Decimal;
  }

  /** An event fails at most seven times before it is dead; each failure is counted once. */
  lemma {:induction false} RetriesBounded(w: World, steps: seq<Step>)
    requires Initial(w)
    ensures RetriesOk(DoAll(w, steps))
  {
    hide Do;
    if steps != [] {
      RetriesBounded(w, steps[..|steps| - 1]);
      RetryStep(DoAll(w, steps[..|steps| - 1]), steps[|steps| - 1]);
    }
  }

  // ---------------------------------------------------------------- delivery

  /** Both events of a hand-over at version v, as claimed by one worker, before either is processed. */
  predicate Claimed(db: Db, key: Key, v: nat, before: string, after: string, kind: string, worker: string, now: Time) {
    && Fenced(db, Stable(key.0, key.1, v, kind), worker, now)
    && var e := db.events[Stable(key.0, key.1, v, kind)];
       && e.tenant == key.0 && e.aggregateType == "opportunity" && e.aggregate == Decimal(key.1)
       && e.payload == Some(Payload(key.1, v, if kind == PREVIOUS_OWNER then before else after, kind, after))
  }

  /** The hand-over is the newest entry of the trail and the opportunity still agrees with it. */
  predicate Standing(db: Db, key: Key, v: nat, before: string, after: string) {
    && db.audits != [] && db.audits[|db.audits| - 1] == Audit(key, v, before, after) && before != after
    && key in db.opportunities && db.opportunities[key] == Opportunity(after, v, true)
    && key.1 != 0 && v != 0 && Splitter.Trim(before) != "" && Splitter.Trim(after) != ""
  }

  lemma StandingIsValid(db: Db, key: Key, v: nat, before: string, after: string, kind: string, worker: string,
                        now: Time)
    requires Standing(db, key, v, before, after) && Claimed(db, key, v, before, after, kind, worker, now)
    requires kind == PREVIOUS_OWNER || kind == NEW_OWNER
    ensures var id := Stable(key.0, key.1, v, kind);
            ProcessSpec(db, id, worker, now, false).0
              == Settle(db.(notes := Project(db.notes, id, key, db.events[id].payload.value)), id, SENT,
                        db.events[id].retryCount, None)
  {
    hide Splitter.Trim, Decimal;
    assert AuditOf(db.audits, key, v) == Some(|db.audits| - 1);
  }

  /** A hand-over that still stands, with nothing else in between: once both events are processed,
      exactly the two parties have an unread notification about this opportunity, whatever was unread before. */
  lemma BothPartiesAreTold(db: Db, key: Key, v: nat, before: string, after: string, worker: string, now: Time)
    requires DbOk(db) && Standing(db, key, v, before, after)
    requires Claimed(db, key, v, before, after, PREVIOUS_OWNER, worker, now)
             && Claimed(db, key, v, before, after, NEW_OWNER, worker, now)
    requires forall kind :: Stable(key.0, key.1, v, kind) !in db.notes
    ensures var a, b := Stable(key.0, key.1, v, PREVIOUS_OWNER), Stable(key.0, key.1, v, NEW_OWNER);
            var told := ProcessSpec(ProcessSpec(db, a, worker, now, false).0, b, worker, now, false).0.notes;
            && (forall id :: id in told && told[id].key == key && told[id].status == UNREAD <==> id == a || id == b)
            && told[a].recipient == before && told[b].recipient == after
  {
    hide ProcessSpec, Splitter.Trim, Decimal, Unified, TrailOk;
    var a, b := Stable(key.0, key.1, v, PREVIOUS_OWNER), Stable(key.0, key.1, v, NEW_OWNER);
    StandingIsValid(db, key, v, before, after, PREVIOUS_OWNER, worker, now);
    var mid := ProcessSpec(db, a, worker, now, false).0;
    StandingIsValid(mid, key, v, before, after, NEW_OWNER, worker, now);
    forall id | id in db.notes && db.notes[id].key == key && db.notes[id].status == UNREAD
      ensures db.notes[id].version < v
    {
      OlderNote(db, id, key, v, before, after);
    }
  }

  lemma OlderNote(db: Db, id: EventId, key: Key, v: nat, before: string, after: string)
    requires DbOk(db) && Standing(db, key, v, before, after) && id in db.notes && db.notes[id].key == key
    requires forall kind :: Stable(key.0, key.1, v, kind) !in db.notes
    ensures db.notes[id].version < v
  {
    assert NoteOk(db.audits, id, db.notes[id]);
  }

  /** A hand-over between two named people, once a worker has claimed its two events, stands. */
  lemma HandOverStands(db: Db, key: Key, owner: string, worker: string, now: Time, lease: Time)
    requires DbOk(db) && key in db.opportunities && db.opportunities[key].active && key.1 != 0 && lease >= 0
    requires Splitter.Trim(owner) != "" && Splitter.Trim(db.opportunities[key].owner) != ""
             && db.opportunities[key].owner != owner
    requires var v := db.opportunities[key].version + 1;
             Stable(key.0, key.1, v, PREVIOUS_OWNER) !in db.events && Stable(key.0, key.1, v, NEW_OWNER) !in db.events
    ensures var before, v := db.opportunities[key].owner, db.opportunities[key].version + 1;
            var a, b := Stable(key.0, key.1, v, PREVIOUS_OWNER), Stable(key.0, key.1, v, NEW_OWNER);
            var db' := ClaimSpec(ClaimSpec(HandOverSpec(db, key, owner, false), a, worker, now, lease).0, b, worker,
                                 now, lease).0;
            && DbOk(db') && Standing(db', key, v, before, owner)
            && Claimed(db', key, v, before, owner, PREVIOUS_OWNER, worker, now)
               && Claimed(db', key, v, before, owner, NEW_OWNER, worker, now)
            && forall kind :: Stable(key.0, key.1, v, kind) !in db'.notes
  {
    hide Splitter.Trim, Decimal, Unified, TrailOk, DbOk;
    HandOverKeeps(db, key, owner, false);
    var v := db.opportunities[key].version + 1;
    var handed := HandOverSpec(db, key, owner, false);
    var a, b := Stable(key.0, key.1, v, PREVIOUS_OWNER), Stable(key.0, key.1, v, NEW_OWNER);
    var once := ClaimSpec(handed, a, worker, now, lease).0;
    SameNotes(handed, once);
    SameNotes(once, ClaimSpec(once, b, worker, now, lease).0);
    forall kind ensures Stable(key.0, key.1, v, kind) !in db.notes {
      if Stable(key.0, key.1, v, kind) in db.notes { NoNoteAhead(db, Stable(key.0, key.1, v, kind), key, v); }
    }
  }

  lemma SameNotes(db: Db, db': Db)
    requires DbOk(db) && db'.notes == db.notes && db'.audits == db.audits && db'.opportunities == db.opportunities
    ensures DbOk(db')
  {
    hide Unified, NoteOk;
  }

  lemma NoNoteAhead(db: Db, id: EventId, key: Key, v: nat)
    requires DbOk(db) && id in db.notes && id.Stable? && id.tenant == key.0 && id.opportunity == key.1
             && id.version == v
    requires key in db.opportunities
    ensures v <= db.opportunities[key].version
  {
    assert NoteOk(db.audits, id, db.notes[id]);
  }
}
