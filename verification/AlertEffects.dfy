/** What a scan of one opportunity means for its owner, in terms of the opportunity's row, the rules and
  * the clock.
  */
module AlertEffects {
  import opened Wrappers
  import opened AlertStore
  import opened AlertLaws

  /** The opportunity is being followed, in one of the stages that are timed. */
  predicate InPlay(o: Opportunity) {
    && o.following && !o.deleted
    && (o.stage == "初步接触" || o.stage == "需求沟通" || o.stage == "方案制定" || o.stage == "报价" || o.stage == "投标")
  }

  /** An enabled rule of the opportunity's tenant and stage whose hours have passed since the stage began. */
  predicate Due(o: Opportunity, r: Rule, now: Time) {
    r.enabled && r.tenant == o.tenant && r.stage == o.stage && now - o.stageChangedAt >= r.hours * 60 * 60 * 1000
  }

  /** What such a rule tells the owner. */
  predicate TellsOwner(k: Identity, o: Opportunity, r: Rule) {
    && k.tenant == o.tenant && k.opportunity == o.id && k.stage == o.stage && k.version == r.version
    && k.recipient == o.owner && o.owner != ""
  }

  predicate Wanted(k: Identity, o: Opportunity, rules: seq<Rule>, now: Time) {
    exists r :: r in rules && Due(o, r, now) && TellsOwner(k, o, r)
  }

  /** An alert about this opportunity that its recipient sees or will see. */
  predicate IsActive(a: Alert, tenant: string, id: nat) {
    a.identity.tenant == tenant && a.identity.opportunity == id && (a.status == PENDING || a.status == UNREAD)
  }

  lemma CandidateIff(o: Opportunity)
    ensures Candidate(o) <==> InPlay(o)
  {
  }

  lemma DesiredIff(o: Opportunity, rules: seq<Rule>, now: Time, k: Identity)
    ensures k in Desired(o, rules, now) <==> Wanted(k, o, rules, now)
  {
    if k in Desired(o, rules, now) {
      var r :| r in rules && Called(o, r, now) && IdentityOf(o, r) == k;
      assert Due(o, r, now) && TellsOwner(k, o, r);
    }
    if Wanted(k, o, rules, now) {
      var r :| r in rules && Due(o, r, now) && TellsOwner(k, o, r);
      assert Called(o, r, now) && IdentityOf(o, r) == k;
    }
  }

  // What creation adds, whatever was there.
  lemma {:induction false} CreatedAre(db: Db, o: Opportunity, rules: seq<Rule>, now: Time)
    ensures var d := CreateAll(db, o, rules, now);
            d.Some? ==> forall a :: a in d.value.alerts && a !in db.alerts ==>
              d.value.alerts[a].status == PENDING && d.value.alerts[a].identity in Desired(o, rules, now)
  {
    hide Called, IdentityOf, Desired;
    if rules != [] {
      var n := |rules| - 1;
      CreatedAre(db, o, rules[..n], now);
      DesiredSnoc(o, rules, now);
    }
  }

  /** Exactly which alerts a scan raises: only for an opportunity in play, only for a due rule, to its
      owner; they are PENDING. */
  lemma NewAlertsAreDue(db: Db, tenant: string, id: nat, current: Option<Opportunity>, rules: seq<Rule>, now: Time)
    ensures var d := ScanSpec(db, tenant, id, current, rules, now);
            forall a :: a in d.alerts && a !in db.alerts ==>
              && current.Some? && InPlay(current.value) && d.alerts[a].status == PENDING
              && Wanted(d.alerts[a].identity, current.value, rules, now)
  {
    hide CreateAll, Desired, Wanted;
    var d := ScanSpec(db, tenant, id, current, rules, now);
    if current.Some? {
      CandidateIff(current.value);
      CreatedAre(db, current.value, rules, now);
      forall a | a in d.alerts && a !in db.alerts
        ensures d.alerts[a].status == PENDING && Wanted(d.alerts[a].identity, current.value, rules, now)
      {
        DesiredIff(current.value, rules, now, d.alerts[a].identity);
      }
    }
  }

  /** And a scan raises all of them: afterwards every identity a due rule calls for has its one alert, and
      every alert still active is for an identity that a due rule calls for; an opportunity that is not
      in play has none. */
  lemma ScanMeans(db: Db, tenant: string, id: nat, current: Option<Opportunity>, rules: seq<Rule>, now: Time)
    requires Coupled(db) && (current.Some? ==> current.value.tenant == tenant && current.value.id == id)
    ensures var d := ScanSpec(db, tenant, id, current, rules, now);
            && (current.Some? && InPlay(current.value) ==>
                  forall k :: Wanted(k, current.value, rules, now) ==>
                    exists a :: a in d.alerts && d.alerts[a].identity == k)
            && (forall a :: a in d.alerts && IsActive(d.alerts[a], tenant, id) ==>
                  && current.Some? && InPlay(current.value)
                  && Wanted(d.alerts[a].identity, current.value, rules, now))
  {
    hide Coupled, ScanSpec, Evolves, OthersSame, Wanted, Desired;
    ScanOneAligns(db, tenant, id, current, rules, now);
    var d := ScanSpec(db, tenant, id, current, rules, now);
    if current.Some? {
      var o := current.value;
      CandidateIff(o);
      forall k ensures Wanted(k, o, rules, now) <==> k in Desired(o, rules, now) { DesiredIff(o, rules, now, k); }
    }
    forall a | a in d.alerts && IsActive(d.alerts[a], tenant, id)
      ensures current.Some? && InPlay(current.value) && Wanted(d.alerts[a].identity, current.value, rules, now)
    {
      assert a in ActiveOf(d, tenant, id);
      assert d.alerts[a].identity in ActiveIds(d, tenant, id);
    }
  }

  /** What delivery makes of one queued event, wherever its alert stands: a pending alert becomes unread and
      the event is sent; otherwise the event is dropped and nothing else changes. */
  lemma DeliveredAs(db: Db, k: Identity)
    requires k in db.outbox
    ensures var d := DeliverOne(db, k);
            var a := db.outbox[k].alert;
            && d.alerts.Keys == db.alerts.Keys && d.outbox.Keys == db.outbox.Keys && d.next == db.next
            && (forall l :: l in db.outbox && l != k ==> d.outbox[l] == db.outbox[l])
            && (forall b :: b in db.alerts && b != a ==> d.alerts[b] == db.alerts[b])
            && (db.outbox[k].status != Queued ==> d == db)
            && (db.outbox[k].status == Queued ==>
                  if a in db.alerts && db.alerts[a].status == PENDING
                  then d.outbox[k] == Event(a, Sent) && d.alerts[a] == Alert(db.alerts[a].identity, UNREAD)
                  else d.outbox[k] == Event(a, Dropped) && d.alerts == db.alerts)
  {
  }
}
