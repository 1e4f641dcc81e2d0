/** The opportunity alert scanner: one worker at a time, chosen by a lease, compares each
  * opportunity's alerts with the alerts its rules call for, creates and cancels the difference,
  * and delivers the queued site messages.
  */
module AlertStore {
  import opened Wrappers

  // Milliseconds, the precision of the lease column.
  type Time = int
  type AlertId = nat

  datatype AlertStatus = PENDING | UNREAD | READ | CANCELLED
  // PENDING, SENT and CANCELLED outbox rows.
  datatype EventStatus = Queued | Sent | Dropped

  /** The unique key of an alert; the stable event id is its digest, taken as collision free. */
  datatype Identity = Identity(tenant: string, opportunity: nat, stage: string, version: nat, recipient: string)
  datatype Alert = Alert(identity: Identity, status: AlertStatus)
  datatype Event = Event(alert: AlertId, status: EventStatus)

  datatype Opportunity = Opportunity(
    id: nat, tenant: string, owner: string, stage: string, following: bool, deleted: bool, stageChangedAt: Time)
  datatype Rule = Rule(tenant: string, stage: string, hours: nat, version: nat, enabled: bool)

  /** `next` is the auto-increment counter of the alert table. */
  datatype Db = Db(alerts: map<AlertId, Alert>, outbox: map<Identity, Event>, next: AlertId)

  const TIMED_STAGES: set<string> := {"初步接触", "需求沟通", "方案制定", "报价", "投标"}

  predicate Active(s: AlertStatus) { s == PENDING || s == UNREAD }

  predicate Timed(o: Opportunity) { o.following && o.stage in TIMED_STAGES }

  /** The scan's candidates, and the opportunities whose alerts must all go. */
  predicate Candidate(o: Opportunity) { !o.deleted && Timed(o) }

  predicate Called(o: Opportunity, r: Rule, now: Time) {
    && r.tenant == o.tenant && r.stage == o.stage && r.enabled
    && o.stageChangedAt + r.hours * 3600000 <= now && o.owner != ""
  }

  function IdentityOf(o: Opportunity, r: Rule): Identity { Identity(o.tenant, o.id, o.stage, r.version, o.owner) }

  /** The alerts that the rules call for. */
  function Desired(o: Opportunity, rules: seq<Rule>, now: Time): set<Identity> {
    set r | r in rules && Called(o, r, now) :: IdentityOf(o, r)
  }

  predicate OfOpportunity(a: Alert, tenant: string, id: nat) {
    a.identity.tenant == tenant && a.identity.opportunity == id
  }

  predicate HasAlert(db: Db, k: Identity) { exists a :: a in db.alerts && db.alerts[a].identity == k }

  // A duplicate event id would be an error that rolls the whole scan of the opportunity back.
  function CreateSpec(db: Db, k: Identity): Option<Db> {
    if HasAlert(db, k) then Some(db)
    else if k in db.outbox then None
    else Some(Db(db.alerts[db.next := Alert(k, PENDING)], db.outbox[k := Event(db.next, Queued)], db.next + 1))
  }

  function CreateAll(db: Db, o: Opportunity, rules: seq<Rule>, now: Time): Option<Db> {
    if rules == [] then Some(db)
    else
      var r := rules[|rules| - 1];
      match CreateAll(db, o, rules[..|rules| - 1], now)
      case None => None
      case Some(d) => if Called(o, r, now) then CreateSpec(d, IdentityOf(o, r)) else Some(d)
  }

  function CancelSpec(db: Db, ids: set<AlertId>): Db {
    Db(map a | a in db.alerts ::
         if a in ids && Active(db.alerts[a].status) then db.alerts[a].(status := CANCELLED) else db.alerts[a],
       map k | k in db.outbox ::
             if db.outbox[k].alert in ids && db.outbox[k].status == Queued then db.outbox[k].(status := Dropped)
             else db.outbox[k],
       db.next)
  }

  function ActiveOf(db: Db, tenant: string, id: nat): set<AlertId> {
    set a | a in db.alerts && OfOpportunity(db.alerts[a], tenant, id) && Active(db.alerts[a].status)
  }

  function Obsolete(db: Db, o: Opportunity, desired: set<Identity>): set<AlertId> {
    set a | a in ActiveOf(db, o.tenant, o.id) && db.alerts[a].identity !in desired
  }

  /** One opportunity, given its row as the lock found it. */
  function ScanSpec(db: Db, tenant: string, id: nat, current: Option<Opportunity>, rules: seq<Rule>, now: Time): Db {
    if current.None? || current.value.deleted || !Timed(current.value) then CancelSpec(db, ActiveOf(db, tenant, id))
    else
      match CreateAll(db, current.value, rules, now)
      case None => db
      case Some(d) => CancelSpec(d, Obsolete(d, current.value, Desired(current.value, rules, now)))
  }

  function DeliverOne(db: Db, k: Identity): Db
    requires k in db.outbox
  {
    var e := db.outbox[k];
    if e.status != Queued then db
    else if e.alert in db.alerts && db.alerts[e.alert].status == PENDING
    then db.(alerts := db.alerts[e.alert := db.alerts[e.alert].(status := UNREAD)],
             outbox := db.outbox[k := e.(status := Sent)])
    else db.(outbox := db.outbox[k := e.(status := Dropped)])
  }

  function DeliverAll(db: Db, ks: seq<Identity>): (d: Db)
    requires forall k :: k in ks ==> k in db.outbox
    ensures d.outbox.Keys == db.outbox.Keys
  {
    if ks == [] then db else DeliverOne(DeliverAll(db, ks[..|ks| - 1]), ks[|ks| - 1])
  }

  function QueuedKeys(db: Db): set<Identity> { set k | k in db.outbox && db.outbox[k].status == Queued }

  // ---------------------------------------------------------------- the lease

  datatype Lease = Lease(owner: string, until: Time)

  function AcquireSpec(lease: Option<Lease>, worker: string, now: Time, duration: Time): (Lease, bool) {
    var row := if lease.Some? then lease.value else Lease(worker, now + duration);
    if row.owner == worker || row.until <= now then (Lease(worker, now + duration), true) else (row, false)
  }

  function RenewSpec(lease: Option<Lease>, worker: string, now: Time, duration: Time): (Option<Lease>, bool) {
    if lease.Some? && lease.value.owner == worker && lease.value.until >= now
    then (Some(Lease(worker,
                     if lease.value.until + 1 > now + duration then lease.value.until + 1 else now + duration)), true)
    else (lease, false)
  }

  // ---------------------------------------------------------------- keyset pages

  predicate Ascending(table: seq<Opportunity>) {
    && (forall i :: 0 <= i < |table| ==> table[i].id > 0)
    && (forall i, j :: 0 <= i < j < |table| ==> table[i].id < table[j].id)
  }

  /** The rows after `after` that the query keeps, in id order. */
  function Rest(table: seq<Opportunity>, after: nat, keep: Opportunity -> bool): seq<Opportunity> {
    if table == [] then []
    else
      var o := table[|table| - 1];
      Rest(table[..|table| - 1], after, keep) + if o.id > after && keep(o) then [o] else []
  }

  function Page(table: seq<Opportunity>, after: nat, keep: Opportunity -> bool, batch: nat): seq<Opportunity> {
    var rest := Rest(table, after, keep);
    if |rest| <= batch then rest else rest[..batch]
  }

  method Query(table: seq<Opportunity>, after: nat, keep: Opportunity -> bool, batch: nat)
    returns (page: seq<Opportunity>)
    ensures page == Page(table, after, keep, batch)
  {
    page := [];
    ghost var rest: seq<Opportunity> := [];
    assert table[..0] == [];
    for i := 0 to |table|
      invariant rest == Rest(table[..i], after, keep)
      invariant page == if |rest| <= batch then rest else rest[..batch]
    {
      assert table[..i + 1][..i] == table[..i];
      if table[i].id > after && keep(table[i]) {
        if |page| < batch { page := page + [table[i]]; }
        rest := rest + [table[i]];
      }
    }
    assert table[..|table|] == table;
  }

  function NextPage(previous: nat, values: seq<Opportunity>, batch: nat): (nat, bool) {
    if values == [] then (previous, true) else (values[|values| - 1].id, |values| < batch)
  }

  // ---------------------------------------------------------------- the worker's transactions

  class Store {
    var alerts: map<AlertId, Alert>
    var outbox: map<Identity, Event>
    var next: AlertId
    var lease: Option<Lease>
    var opportunities: seq<Opportunity>
    var rules: seq<Rule>

    function State(): Db reads this { Db(alerts, outbox, next) }

    method AcquireLease(worker: string, now: Time, duration: Time) returns (acquired: bool)
      modifies this`lease
      ensures (lease, acquired)
              == (Some(AcquireSpec(old(lease), worker, now, duration).0),
                  AcquireSpec(old(lease), worker, now, duration).1)
      ensures acquired <==> old(lease) == None || old(lease).value.owner == worker || old(lease).value.until <= now
      ensures lease == if acquired then Some(Lease(worker, now + duration)) else old(lease)
    {
      acquired := false;
      if lease.None? { lease := Some(Lease(worker, now + duration)); }
      if lease.value.owner == worker || !(lease.value.until > now) {
        lease := Some(Lease(worker, now + duration));
        acquired := true;
      }
    }

    method RenewLease(worker: string, now: Time, duration: Time) returns (ok: bool)
      modifies this`lease
      ensures (lease, ok) == RenewSpec(old(lease), worker, now, duration)
    {
      if lease.None? || lease.value.owner != worker || lease.value.until < now { return false; }
      var bumped := lease.value.until + 1;
      lease := Some(Lease(worker, if bumped > now + duration then bumped else now + duration));
      return true;
    }

    method CreateAlert(o: Opportunity, r: Rule) returns (ok: bool)
      modifies this`alerts, this`outbox, this`next
      ensures match CreateSpec(old(State()), IdentityOf(o, r))
              case None => !ok
              case Some(d) => ok && State() == d
    {
      var k := Identity(o.tenant, o.id, o.stage, r.version, o.owner);
      var exists_ := Lookup(k);
      if exists_ { return true; }
      alerts := alerts[next := Alert(k, PENDING)];
      if k in outbox { return false; }
      outbox := outbox[k := Event(next, Queued)];
      next := next + 1;
      return true;
    }

    // The unique index of the alert table.
    method Lookup(k: Identity) returns (found: bool)
      ensures found == HasAlert(State(), k)
    {
      var rest := alerts.Keys;
      while rest != {}
        invariant rest <= alerts.Keys
        invariant forall a :: a in alerts && a !in rest ==> alerts[a].identity != k
      {
        var a :| a in rest;
        if alerts[a].identity == k { return true; }
        rest := rest - {a};
      }
      return false;
    }

    method CancelActiveByID(id: AlertId)
      modifies this`alerts, this`outbox
      ensures State() == CancelSpec(old(State()), {id})
    {
      if id in alerts && Active(alerts[id].status) { alerts := alerts[id := alerts[id].(status := CANCELLED)]; }
      outbox := map k | k in outbox ::
            if outbox[k].alert == id && outbox[k].status == Queued then outbox[k].(status := Dropped) else outbox[k];
    }

    // One by one, as the source's two cancelling loops do.
    method CancelEach(ids: set<AlertId>)
      modifies this`alerts, this`outbox
      ensures State() == CancelSpec(old(State()), ids)
    {
      hide CancelSpec;
      var rest := ids;
      CancelNone(State());
      assert ids - rest == {};
      while rest != {}
        invariant rest <= ids
        invariant State() == CancelSpec(old(State()), ids - rest)
      {
        var id :| id in rest;
        CancelMore(old(State()), ids - rest, id);
        CancelActiveByID(id);
        assert ids - (rest - {id}) == (ids - rest) + {id};
        rest := rest - {id};
      }
      assert ids - rest == ids;
    }

    method CancelOpportunityAlerts(tenant: string, id: nat)
      modifies this`alerts, this`outbox
      ensures State() == CancelSpec(old(State()), ActiveOf(old(State()), tenant, id))
    {
      CancelEach(set a | a in alerts && OfOpportunity(alerts[a], tenant, id) && Active(alerts[a].status));
    }

    // The rule loop: creates what is missing and collects what the rules call for.
    method CreateAlerts(o: Opportunity, now: Time) returns (ok: bool, desired: set<Identity>)
      modifies this`alerts, this`outbox, this`next
      ensures ok ==> CreateAll(old(State()), o, rules, now) == Some(State()) && desired == Desired(o, rules, now)
      ensures !ok ==> CreateAll(old(State()), o, rules, now) == None
    {
      hide CreateSpec;
      desired := {};
      assert rules[..0] == [];
      for i := 0 to |rules|
        invariant CreateAll(old(State()), o, rules[..i], now) == Some(State())
        invariant desired == Desired(o, rules[..i], now)
      {
        var r := rules[i];
        assert rules[..i + 1][..i] == rules[..i] && rules[..i + 1] == rules[..i] + [r];
        if Called(o, r, now) {
          desired := desired + {IdentityOf(o, r)};
          ok := CreateAlert(o, r);
          if !ok {
            NoneSticks(old(State()), o, rules, now, i + 1);
            return false, desired;
          }
        }
      }
      assert rules[..|rules|] == rules;
      return true, desired;
    }

    /** Re-reads the opportunity under its row lock and brings its alerts in line. */
    method ScanOne(tenant: string, id: nat, licensed: bool, now: Time) returns (ok: bool)
      modifies this`alerts, this`outbox, this`next
      ensures !licensed ==> ok && State() == old(State())
      ensures licensed ==> State() == ScanSpec(old(State()), tenant, id, Find(opportunities, tenant, id), rules, now)
      ensures licensed && Find(opportunities, tenant, id).Some? && !ok ==>
              CreateAll(old(State()), Find(opportunities, tenant, id).value, rules, now) == None
      ensures licensed && Find(opportunities, tenant, id).None? ==> ok
    {
      hide CreateAll, CancelSpec, Find, Desired;
      if !licensed { return true; }
      var current := Find(opportunities, tenant, id);
      if current.None? || current.value.deleted {
        CancelOpportunityAlerts(tenant, id);
        return true;
      }
      if !Timed(current.value) {
        CancelOpportunityAlerts(tenant, id);
        return true;
      }
      var savedAlerts, savedOutbox, savedNext := alerts, outbox, next;
      var created, desired := CreateAlerts(current.value, now);
      if !created {
        alerts, outbox, next := savedAlerts, savedOutbox, savedNext;
        return false;
      }
      CancelObsolete(current.value, desired);
      return true;
    }

    method CancelObsolete(o: Opportunity, desired: set<Identity>)
      modifies this`alerts, this`outbox
      ensures State() == CancelSpec(old(State()), Obsolete(old(State()), o, desired))
    {
      hide CancelSpec;
      var ids := set a | a in alerts && OfOpportunity(alerts[a], o.tenant, o.id) && Active(alerts[a].status)
          && alerts[a].identity !in desired;
      assert ids == Obsolete(State(), o, desired);
      CancelEach(ids);
    }

    // Up to `batch` queued rows that no other transaction has locked.
    method PickQueued(batch: nat) returns (picked: seq<Identity>)
      ensures forall k :: k in picked ==> k in QueuedKeys(State())
      ensures forall i, j :: 0 <= i < j < |picked| ==> picked[i] != picked[j]
      ensures |picked| <= batch && (|picked| < batch ==> forall k :: k in QueuedKeys(State()) ==> k in picked)
    {
      picked := [];
      var rest := set k | k in outbox && outbox[k].status == Queued;
      while rest != {} && |picked| < batch
        invariant rest <= QueuedKeys(State()) && |picked| <= batch
        invariant forall k :: k in picked ==> k in QueuedKeys(State()) && k !in rest
        invariant forall k :: k in QueuedKeys(State()) ==> k in picked || k in rest
        invariant forall i, j :: 0 <= i < j < |picked| ==> picked[i] != picked[j]
      {
        var k :| k in rest;
        picked := picked + [k];
        rest := rest - {k};
      }
    }

    method DeliverBatch(picked: seq<Identity>)
      requires forall k :: k in picked ==> k in outbox
      modifies this`alerts, this`outbox
      ensures State() == DeliverAll(old(State()), picked)
    {
      assert picked[..0] == [];
      for i := 0 to |picked|
        invariant State() == DeliverAll(old(State()), picked[..i])
      {
        var k := picked[i];
        assert picked[..i + 1][..i] == picked[..i];
        if outbox[k].status == Queued {
          var a := outbox[k].alert;
          if a !in alerts || alerts[a].status != PENDING {
            outbox := outbox[k := outbox[k].(status := Dropped)];
          } else {
            alerts := alerts[a := alerts[a].(status := UNREAD)];
            outbox := outbox[k := outbox[k].(status := Sent)];
          }
        }
      }
      assert picked[..|picked|] == picked;
    }
  }

  function Find(table: seq<Opportunity>, tenant: string, id: nat): Option<Opportunity> {
    if table == [] then None
    else
      var o := table[|table| - 1];
      if o.tenant == tenant && o.id == id then Some(o) else Find(table[..|table| - 1], tenant, id)
  }

  lemma CancelNone(db: Db)
    ensures CancelSpec(db, {}) == db
  {
  }

  lemma CancelMore(db: Db, ids: set<AlertId>, id: AlertId)
    ensures CancelSpec(CancelSpec(db, ids), {id}) == CancelSpec(db, ids + {id})
  {
  }

  lemma {:induction false} NoneSticks(db: Db, o: Opportunity, rules: seq<Rule>, now: Time, i: nat)
    requires i <= |rules| && CreateAll(db, o, rules[..i], now) == None
    ensures CreateAll(db, o, rules, now) == None
  {
    if i == |rules| {
      assert rules[..i] == rules;
    } else {
      assert rules[..|rules| - 1][..i] == rules[..i];
      NoneSticks(db, o, rules[..|rules| - 1], now, i);
    }
  }
}
