/** Alerts and their outbox rows move together, and a scan makes alerts what the rules call for. */
module AlertLaws {
  import opened Wrappers
  import opened AlertStore

  /** Alerts and outbox rows pair off by identity; an alert is PENDING exactly when its row is
      queued, and was delivered before it could be UNREAD or READ. */
  ghost predicate Coupled(db: Db) {
    && (forall a :: a in db.alerts ==> AlertInv(db, a))
    && (forall k :: k in db.outbox ==> db.outbox[k].alert in db.alerts && db.alerts[db.outbox[k].alert].identity == k)
  }

  ghost predicate AlertInv(db: Db, a: AlertId) requires a in db.alerts {
    var alert := db.alerts[a];
    && a < db.next && alert.identity in db.outbox && db.outbox[alert.identity].alert == a
    && (alert.status == PENDING <==> db.outbox[alert.identity].status == Queued)
    && (alert.status == UNREAD || alert.status == READ ==> db.outbox[alert.identity].status == Sent)
  }

  /** One alert per identity, so an alert is PENDING iff exactly one queued row is addressed to it. */
  lemma PendingIffOneQueued(db: Db, a: AlertId)
    requires Coupled(db) && a in db.alerts
    ensures db.alerts[a].status == PENDING <==> exists k :: k in db.outbox && db.outbox[k] == Event(a, Queued)
    ensures forall k, l ::
              k in db.outbox && l in db.outbox && db.outbox[k].alert == a && db.outbox[l].alert == a ==> k == l
    ensures forall b :: b in db.alerts && db.alerts[b].identity == db.alerts[a].identity ==> b == a
  {
    assert AlertInv(db, a);
    forall b | b in db.alerts && db.alerts[b].identity == db.alerts[a].identity ensures b == a {
      assert AlertInv(db, b);
    }
    if db.alerts[a].status == PENDING { assert db.outbox[db.alerts[a].identity] == Event(a, Queued); }
  }

  // ---------------------------------------------------------------- what one transaction does

  /** Nothing is ever deleted or renamed, and settled alerts stay as they are: in particular a
      CANCELLED alert is not revived and its outbox row is not queued again. */
  ghost predicate Evolves(db: Db, d: Db) {
    && db.alerts.Keys <= d.alerts.Keys
    && (forall a :: a in db.alerts ==> d.alerts[a].identity == db.alerts[a].identity)
    && (forall a :: a in db.alerts && !Active(db.alerts[a].status) ==> d.alerts[a] == db.alerts[a])
    && (forall k :: k in db.outbox && db.outbox[k].status != Queued ==> k in d.outbox && d.outbox[k] == db.outbox[k])
  }

  lemma CreateKeeps(db: Db, k: Identity)
    requires Coupled(db)
    ensures CreateSpec(db, k).Some?
    ensures var d := CreateSpec(db, k).value;
            && Coupled(d) && HasAlert(d, k) && db.alerts.Keys <= d.alerts.Keys
            && (forall a :: a in db.alerts ==> d.alerts[a] == db.alerts[a])
            && (forall a :: a in d.alerts && a !in db.alerts ==> d.alerts[a] == Alert(k, PENDING))
            && (forall l :: l in db.outbox ==> l in d.outbox && d.outbox[l] == db.outbox[l])
  {
    assert k in db.outbox ==> HasAlert(db, k);
    if !HasAlert(db, k) {
      var d := CreateSpec(db, k).value;
      assert d.alerts[db.next].identity == k;
      forall a | a in d.alerts ensures AlertInv(d, a) {
        if a != db.next { assert AlertInv(db, a); }
      }
      forall a | a in db.alerts ensures d.alerts[a] == db.alerts[a] { assert AlertInv(db, a); }
    }
  }

  /** Every alert the rules call for exists afterwards, and only those are new. */
  ghost predicate Creates(db: Db, d: Db, wanted: set<Identity>) {
    && Coupled(d) && db.alerts.Keys <= d.alerts.Keys
    && (forall a :: a in db.alerts ==> d.alerts[a] == db.alerts[a])
    && (forall a :: a in d.alerts && a !in db.alerts ==> d.alerts[a].identity in wanted)
    && (forall l :: l in db.outbox ==> l in d.outbox && d.outbox[l] == db.outbox[l])
    && (forall k :: k in wanted ==> HasAlert(d, k))
  }

  lemma {:induction false} CreateAllKeeps(db: Db, o: Opportunity, rules: seq<Rule>, now: Time)
    requires Coupled(db)
    ensures CreateAll(db, o, rules, now).Some?
    ensures Creates(db, CreateAll(db, o, rules, now).value, Desired(o, rules, now))
  {
    hide CreateSpec, AlertInv;
    if rules != [] {
      var n := |rules| - 1;
      CreateAllKeeps(db, o, rules[..n], now);
      var d := CreateAll(db, o, rules[..n], now).value;
      DesiredSnoc(o, rules, now);
      if Called(o, rules[n], now) {
        CreateKeeps(d, IdentityOf(o, rules[n]));
        var e := CreateSpec(d, IdentityOf(o, rules[n])).value;
        forall k | k in Desired(o, rules[..n], now) ensures HasAlert(e, k) {
          var a :| a in d.alerts && d.alerts[a].identity == k;
          assert e.alerts[a].identity == k;
        }
      }
    }
  }

  lemma DesiredSnoc(o: Opportunity, rules: seq<Rule>, now: Time)
    requires rules != []
    ensures var n := |rules| - 1;
            Desired(o, rules, now)
            == Desired(o, rules[..n], now) + if Called(o, rules[n], now) then {IdentityOf(o, rules[n])} else {}
  {
    assert rules == rules[..|rules| - 1] + [rules[|rules| - 1]];
  }

  lemma CancelKeeps(db: Db, ids: set<AlertId>)
    requires Coupled(db)
    ensures Coupled(CancelSpec(db, ids)) && Evolves(db, CancelSpec(db, ids))
  {
    var d := CancelSpec(db, ids);
    forall a | a in d.alerts ensures AlertInv(d, a) { assert AlertInv(db, a); }
  }

  /** The alerts of opportunity (tenant, id) that a user can still see or will see. */
  function ActiveIds(db: Db, tenant: string, id: nat): set<Identity> {
    set a | a in ActiveOf(db, tenant, id) :: db.alerts[a].identity
  }

  /** What the scan is for: only alerts the rules call for are active, and each of those has its
      one row, be it still active, read, or cancelled at some earlier time. */
  ghost predicate Aligned(db: Db, o: Opportunity, rules: seq<Rule>, now: Time) {
    && ActiveIds(db, o.tenant, o.id) <= Desired(o, rules, now)
    && forall k :: k in Desired(o, rules, now) ==> HasAlert(db, k)
  }

  ghost predicate OthersSame(db: Db, d: Db, tenant: string, id: nat) {
    && (forall a :: a in db.alerts && !OfOpportunity(db.alerts[a], tenant, id) ==>
          a in d.alerts && d.alerts[a] == db.alerts[a])
    && (forall a :: a in d.alerts && a !in db.alerts ==> OfOpportunity(d.alerts[a], tenant, id))
  }

  lemma CancelOthers(db: Db, tenant: string, id: nat, ids: set<AlertId>)
    requires forall a :: a in ids ==> a in db.alerts && OfOpportunity(db.alerts[a], tenant, id)
    ensures OthersSame(db, CancelSpec(db, ids), tenant, id)
  {
  }

  lemma ScanCancels(db: Db, tenant: string, id: nat)
    requires Coupled(db)
    ensures var d := CancelSpec(db, ActiveOf(db, tenant, id));
            Coupled(d) && Evolves(db, d) && OthersSame(db, d, tenant, id) && ActiveOf(d, tenant, id) == {}
  {
    hide Coupled;
    CancelKeeps(db, ActiveOf(db, tenant, id));
    CancelOthers(db, tenant, id, ActiveOf(db, tenant, id));
  }

  // Cancelling what is not wanted leaves only wanted alerts active, and drops no row.
  lemma CancelAligns(c: Db, o: Opportunity, wanted: set<Identity>)
    requires forall k :: k in wanted ==> HasAlert(c, k)
    ensures var d := CancelSpec(c, Obsolete(c, o, wanted));
            ActiveIds(d, o.tenant, o.id) <= wanted && forall k :: k in wanted ==> HasAlert(d, k)
  {
    var gone := Obsolete(c, o, wanted);
    var d := CancelSpec(c, gone);
    forall k | k in wanted ensures HasAlert(d, k) {
      var a :| a in c.alerts && c.alerts[a].identity == k;
      assert d.alerts[a].identity == k;
    }
    forall k | k in ActiveIds(d, o.tenant, o.id) ensures k in wanted {
      var a :| a in ActiveOf(d, o.tenant, o.id) && d.alerts[a].identity == k;
      assert a in ActiveOf(c, o.tenant, o.id) && a !in gone;
    }
  }

  lemma CreatedOthers(db: Db, c: Db, d: Db, o: Opportunity, rules: seq<Rule>, now: Time)
    requires Creates(db, c, Desired(o, rules, now)) && OthersSame(c, d, o.tenant, o.id) && Evolves(c, d)
    ensures OthersSame(db, d, o.tenant, o.id) && Evolves(db, d)
  {
    hide Coupled, Desired;
    forall a | a in d.alerts && a !in db.alerts ensures OfOpportunity(d.alerts[a], o.tenant, o.id) {
      if a in c.alerts { DesiredIsOwn(o, rules, now, c.alerts[a].identity); }
    }
  }

  lemma ScanAligns(db: Db, o: Opportunity, rules: seq<Rule>, now: Time)
    requires Coupled(db) && Candidate(o)
    ensures CreateAll(db, o, rules, now).Some?
    ensures var d := ScanSpec(db, o.tenant, o.id, Some(o), rules, now);
            Coupled(d) && Evolves(db, d) && OthersSame(db, d, o.tenant, o.id) && Aligned(d, o, rules, now)
  {
    hide Coupled, CreateAll, Desired, CancelSpec, OthersSame, Evolves, ActiveIds, HasAlert;
    CreateAllKeeps(db, o, rules, now);
    var c := CreateAll(db, o, rules, now).value;
    var gone := Obsolete(c, o, Desired(o, rules, now));
    CancelKeeps(c, gone);
    CancelOthers(c, o.tenant, o.id, gone);
    CancelAligns(c, o, Desired(o, rules, now));
    CreatedOthers(db, c, CancelSpec(c, gone), o, rules, now);
  }

  lemma DesiredIsOwn(o: Opportunity, rules: seq<Rule>, now: Time, k: Identity)
    requires k in Desired(o, rules, now)
    ensures k.tenant == o.tenant && k.opportunity == o.id
  {
  }

  /** A licensed scan of one opportunity, whatever its row turned out to be under the lock. */
  lemma ScanOneAligns(db: Db, tenant: string, id: nat, current: Option<Opportunity>, rules: seq<Rule>, now: Time)
    requires Coupled(db) && (current.Some? ==> current.value.tenant == tenant && current.value.id == id)
    ensures var d := ScanSpec(db, tenant, id, current, rules, now);
            && Coupled(d) && Evolves(db, d) && OthersSame(db, d, tenant, id)
            && (if current.Some? && Candidate(current.value) then Aligned(d, current.value, rules, now)
                else ActiveOf(d, tenant, id) == {})
  {
    hide Coupled, Evolves, OthersSame, Aligned, CancelSpec, CreateAll;
    if current.Some? && Candidate(current.value) {
      ScanAligns(db, current.value, rules, now);
    } else {
      ScanCancels(db, tenant, id);
    }
  }

  // ---------------------------------------------------------------- delivery

  /** Every queued row among `ks` is sent and its alert is UNREAD; nothing else changes. */
  ghost predicate Delivered(db: Db, d: Db, ks: seq<Identity>) {
    && d.alerts.Keys == db.alerts.Keys && d.outbox.Keys == db.outbox.Keys
    && (forall k :: k in db.outbox ==>
         d.outbox[k] == if k in ks && db.outbox[k].status == Queued then Event(db.outbox[k].alert, Sent)
             else db.outbox[k])
    && (forall a :: a in db.alerts ==>
         d.alerts[a] == if db.alerts[a].status == PENDING && db.alerts[a].identity in ks
                        then Alert(db.alerts[a].identity, UNREAD) else db.alerts[a])
  }

  lemma DeliveredSnoc(db: Db, m: Db, d: Db, ks: seq<Identity>, k: Identity)
    requires Delivered(db, m, ks) && Delivered(m, d, [k])
    ensures Delivered(db, d, ks + [k])
  {
  }

  /** Delivery never meets an alert that is not PENDING: every queued row it takes is sent, and
      its alert becomes UNREAD.  The branch that drops a row is dead. */
  lemma {:induction false} DeliverySends(db: Db, ks: seq<Identity>)
    requires Coupled(db) && forall k :: k in ks ==> k in db.outbox
    ensures Coupled(DeliverAll(db, ks)) && Delivered(db, DeliverAll(db, ks), ks)
  {
    hide Coupled, DeliverOne;
    if ks == [] {
      assert Delivered(db, db, []);
    } else {
      hide Delivered;
      var n := |ks| - 1;
      var m := DeliverAll(db, ks[..n]);
      DeliverySends(db, ks[..n]);
      assert ks == ks[..n] + [ks[n]];
      DeliverOneSends(m, ks[n]);
      DeliveredSnoc(db, m, DeliverAll(db, ks), ks[..n], ks[n]);
    }
  }

  lemma DeliverOneSends(db: Db, k: Identity)
    requires Coupled(db) && k in db.outbox
    ensures Coupled(DeliverOne(db, k)) && Delivered(db, DeliverOne(db, k), [k])
  {
    var d := DeliverOne(db, k);
    assert AlertInv(db, db.outbox[k].alert);
    forall a | a in d.alerts ensures AlertInv(d, a) {
      assert AlertInv(db, a);
    }
    forall a | a in db.alerts
      ensures d.alerts[a] == if db.alerts[a].status == PENDING && db.alerts[a].identity in [k]
                             then Alert(db.alerts[a].identity, UNREAD) else db.alerts[a]
    {
      assert AlertInv(db, a);
    }
  }

  // ---------------------------------------------------------------- every interleaving

  /** Transactions on the alert tables: the scanner's, the owner change that cancels, the reader. */
  datatype Step =
    | Scan(tenant: string, id: nat, current: Option<Opportunity>, rules: seq<Rule>, now: Time)
    | Cancel(tenant: string, id: nat)
    | Deliver(picked: seq<Identity>)
    | Read(a: AlertId)

  predicate ValidStep(db: Db, s: Step) {
    match s
    case Scan(tenant, id, current, _, _) => current.Some? ==> current.value.tenant == tenant && current.value.id == id
    case Deliver(picked) => forall k :: k in picked ==> k in db.outbox
    case _ => true
  }

  function Do(db: Db, s: Step): Db {
    if !ValidStep(db, s) then db
    else
      match s
      case Scan(tenant, id, current, rules, now) => ScanSpec(db, tenant, id, current, rules, now)
      case Cancel(tenant, id) => CancelSpec(db, ActiveOf(db, tenant, id))
      case Deliver(picked) => DeliverAll(db, picked)
      case Read(a) =>
        if a in db.alerts && db.alerts[a].status == UNREAD
        then db.(alerts := db.alerts[a := db.alerts[a].(status := READ)]) else db
  }

  function DoAll(db: Db, steps: seq<Step>): Db {
    if steps == [] then db else Do(DoAll(db, steps[..|steps| - 1]), steps[|steps| - 1])
  }

  lemma ReadKeeps(db: Db, a: AlertId)
    requires Coupled(db)
    ensures Coupled(Do(db, Read(a)))
  {
    var d := Do(db, Read(a));
    forall b | b in d.alerts ensures AlertInv(d, b) { assert AlertInv(db, b); }
  }

  /** CANCELLED alerts and rows that are no longer queued are final. */
  ghost predicate Final(db: Db, d: Db) {
    && (forall a :: a in db.alerts ==> a in d.alerts && d.alerts[a].identity == db.alerts[a].identity)
    && (forall a :: a in db.alerts && db.alerts[a].status == CANCELLED ==> d.alerts[a] == db.alerts[a])
    && (forall k :: k in db.outbox && db.outbox[k].status != Queued ==> k in d.outbox && d.outbox[k] == db.outbox[k])
  }

  lemma StepKeeps(db: Db, s: Step)
    requires Coupled(db)
    ensures Coupled(Do(db, s)) && Final(db, Do(db, s))
  {
    hide Coupled, ScanSpec, CancelSpec, DeliverAll, Aligned, OthersSame;
    if ValidStep(db, s) {
      match s
      case Scan(tenant, id, current, rules, now) => ScanOneAligns(db, tenant, id, current, rules, now);
      case Cancel(tenant, id) => ScanCancels(db, tenant, id);
      case Deliver(picked) => DeliverySends(db, picked);
      case Read(a) => ReadKeeps(db, a);
    }
  }

  /** From empty tables, through any interleaving: alerts and outbox rows stay coupled, and no
      cancelled alert is ever revived, announced again or duplicated. */
  lemma CoupledAlways(db: Db, steps: seq<Step>, more: seq<Step>)
    requires db.alerts == map[] && db.outbox == map[]
    ensures Coupled(DoAll(db, steps))
    ensures Coupled(DoAll(DoAll(db, steps), more)) && Final(DoAll(db, steps), DoAll(DoAll(db, steps), more))
  {
    hide DoAll, Final;
    FinalFrom(db, steps);
    FinalFrom(DoAll(db, steps), more);
  }

  lemma {:induction false} FinalFrom(db: Db, steps: seq<Step>)
    ensures Coupled(db) ==> Coupled(DoAll(db, steps)) && Final(db, DoAll(db, steps))
  {
    hide Do, Coupled;
    if Coupled(db) && steps != [] {
      FinalFrom(db, steps[..|steps| - 1]);
      StepKeeps(DoAll(db, steps[..|steps| - 1]), steps[|steps| - 1]);
    }
  }
}
