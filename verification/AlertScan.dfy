/** A whole scan: the lease, the two keyset-paged loops and the delivery loop. */
module AlertScan {
  import opened Wrappers
  import opened AlertStore
  import opened AlertLaws

  // ---------------------------------------------------------------- the lease

  datatype LeaseStep = Acquire(worker: string, now: Time) | Renew(worker: string, now: Time)

  function LeaseDo(lease: Option<Lease>, s: LeaseStep, duration: Time): (Option<Lease>, bool) {
    match s
    case Acquire(worker, now) => var (l, ok) := AcquireSpec(lease, worker, now, duration); (Some(l), ok)
    case Renew(worker, now) => RenewSpec(lease, worker, now, duration)
  }

  function LeaseRun(lease: Option<Lease>, steps: seq<LeaseStep>, duration: Time): Option<Lease> {
    if steps == [] then lease
    else LeaseDo(LeaseRun(lease, steps[..|steps| - 1], duration), steps[|steps| - 1], duration).0
  }

  /** While a scanner's lease has not run out, and the scanner itself only renews: nobody else
      acquires or renews, the owner stays, and every renewal it makes succeeds and moves the
      expiry strictly forward. */
  lemma {:induction false} LeaseExcludes(lease: Lease, steps: seq<LeaseStep>, duration: Time)
    requires forall s :: s in steps ==> s.now < lease.until && (s.worker == lease.owner ==> s.Renew?)
    ensures var l := LeaseRun(Some(lease), steps, duration);
            l.Some? && l.value.owner == lease.owner && l.value.until >= lease.until
    ensures forall i :: 0 <= i < |steps| ==>
              var before := LeaseRun(Some(lease), steps[..i], duration);
              var (after, ok) := LeaseDo(before, steps[i], duration);
              && ok == (steps[i].worker == lease.owner)
              && (ok ==> before.Some? && after.Some? && after.value.until > before.value.until)
              && (!ok ==> after == before)
  {
    if steps != [] {
      var front := steps[..|steps| - 1];
      LeaseExcludes(lease, front, duration);
      assert steps[|steps| - 1] in steps;
      forall i | 0 <= i < |steps|
        ensures var before := LeaseRun(Some(lease), steps[..i], duration);
                var (after, ok) := LeaseDo(before, steps[i], duration);
                && ok == (steps[i].worker == lease.owner)
                && (ok ==> before.Some? && after.Some? && after.value.until > before.value.until)
                && (!ok ==> after == before)
      {
        if i < |front| { assert front[..i] == steps[..i] && front[i] == steps[i]; }
      }
    }
  }

  /** A renewal reports one changed row exactly when the worker still owns an unexpired lease:
      the new expiry always differs from the old one. */
  lemma RenewalChangesTheRow(lease: Option<Lease>, worker: string, now: Time, duration: Time)
    ensures var (l, ok) := RenewSpec(lease, worker, now, duration);
            && (ok <==> lease.Some? && lease.value.owner == worker && lease.value.until >= now)
            && (ok <==> l != lease)
            && (ok ==>
                  && l.Some? && l.value.owner == worker && l.value.until > lease.value.until
                  && l.value.until >= now + duration)
  {
  }

  /** The lease after `n` renewals in a row, at the readings of the clock from number `from` on, and whether
      all of them went through; after one that does not there is no other. */
  function Renewed(lease: Option<Lease>, worker: string, clock: nat -> Time, from: nat, n: nat, duration: Time)
    : (Option<Lease>, bool)
  {
    if n == 0 then (lease, true)
    else
      var (l, ok) := Renewed(lease, worker, clock, from, n - 1, duration);
      if ok then RenewSpec(l, worker, clock(from + n - 1), duration) else (l, false)
  }

  lemma RenewedOne(lease: Option<Lease>, worker: string, clock: nat -> Time, from: nat, n: nat, duration: Time)
    ensures Renewed(lease, worker, clock, from, 0, duration) == (lease, true)
    ensures Renewed(lease, worker, clock, from, n, duration).1 ==>
              Renewed(lease, worker, clock, from, n + 1, duration)
              == RenewSpec(Renewed(lease, worker, clock, from, n, duration).0, worker, clock(from + n), duration)
  {
  }

  lemma {:induction false} RenewedMore(lease: Option<Lease>, worker: string, clock: nat -> Time, from: nat, n: nat,
                                       m: nat, duration: Time)
    requires Renewed(lease, worker, clock, from, n, duration).1
    ensures Renewed(lease, worker, clock, from, n + m, duration)
            == Renewed(Renewed(lease, worker, clock, from, n, duration).0, worker, clock, from + n, m, duration)
  {
    hide RenewSpec;
    if m > 0 { RenewedMore(lease, worker, clock, from, n, m - 1, duration); }
  }

  /** Renewals in a row mean that at each of those readings of the clock the worker held an unexpired lease. */
  lemma {:induction false} RenewedIsHeld(lease: Option<Lease>, worker: string, clock: nat -> Time, from: nat, n: nat,
                                         duration: Time, i: nat)
    requires Renewed(lease, worker, clock, from, n, duration).1 && i < n
    ensures var l := Renewed(lease, worker, clock, from, i, duration).0;
            l.Some? && l.value.owner == worker && clock(from + i) <= l.value.until
  {
    if i < n - 1 { RenewedIsHeld(lease, worker, clock, from, n - 1, duration, i); }
  }

  // ---------------------------------------------------------------- keyset pages

  lemma {:induction false} RestMembers(table: seq<Opportunity>, after: nat, keep: Opportunity -> bool, o: Opportunity)
    ensures o in Rest(table, after, keep) <==> o in table && o.id > after && keep(o)
  {
    if table != [] {
      var n := |table| - 1;
      RestMembers(table[..n], after, keep, o);
      assert table == table[..n] + [table[n]];
    }
  }

  lemma {:induction false} RestEmpty(table: seq<Opportunity>, after: nat, keep: Opportunity -> bool)
    requires forall i :: 0 <= i < |table| ==> table[i].id <= after
    ensures Rest(table, after, keep) == []
  {
    if table != [] { RestEmpty(table[..|table| - 1], after, keep); }
  }

  lemma {:induction false} RestFrom(table: seq<Opportunity>, after: nat, keep: Opportunity -> bool, i: nat)
    requires Ascending(table) && i < |Rest(table, after, keep)|
    ensures var rest := Rest(table, after, keep);
            Rest(table, rest[i].id, keep) == rest[i + 1..] && rest[i].id > after && rest[i] in table
  {
    var n := |table| - 1;
    var o := table[n];
    var pre := Rest(table[..n], after, keep);
    var rest := Rest(table, after, keep);
    RestMembers(table, after, keep, rest[i]);
    if i < |pre| {
      RestFrom(table[..n], after, keep, i);
      RestMembers(table[..n], after, keep, pre[i]);
      assert rest[i + 1..] == pre[i + 1..] + if o.id > after && keep(o) then [o] else [];
    } else {
      RestEmpty(table, o.id, keep);
    }
  }

  /** The kept rows come in strictly increasing id order, so a scan visits each of them once. */
  lemma {:induction false} RestSorted(table: seq<Opportunity>, after: nat, keep: Opportunity -> bool)
    requires Ascending(table)
    ensures var rest := Rest(table, after, keep); forall i, j :: 0 <= i < j < |rest| ==> rest[i].id < rest[j].id
  {
    if table != [] {
      var n := |table| - 1;
      RestSorted(table[..n], after, keep);
      var pre, rest := Rest(table[..n], after, keep), Rest(table, after, keep);
      forall i, j | 0 <= i < j < |rest| ensures rest[i].id < rest[j].id {
        assert rest[i] == pre[i];
        RestMembers(table[..n], after, keep, pre[i]);
        var k :| 0 <= k < n && table[..n][k] == pre[i];
        assert table[k].id < table[n].id;
        if j < |pre| { assert pre[i].id < pre[j].id; }
      }
    }
  }

  /** One page moves the cursor past exactly the rows it returned; a short page was the last. */
  lemma PageStep(table: seq<Opportunity>, after: nat, keep: Opportunity -> bool, batch: nat)
    requires Ascending(table) && batch > 0
    ensures var page := Page(table, after, keep, batch);
            var (next, done) := NextPage(after, page, batch);
            && Rest(table, after, keep) == page + Rest(table, next, keep)
            && (done ==> Rest(table, next, keep) == [])
            && (page != [] ==> table != [] && after < next <= table[|table| - 1].id)
            && (page == [] ==> next == after)
            && (forall o :: o in page ==> o in table && keep(o))
  {
    hide Rest;
    var rest := Rest(table, after, keep);
    var page := Page(table, after, keep, batch);
    if page != [] {
      RestFrom(table, after, keep, |page| - 1);
      assert rest == rest[..|page|] + rest[|page|..];
    }
    forall o | o in page ensures o in table && keep(o) {
      assert o in rest;
      RestMembers(table, after, keep, o);
    }
  }

  /** No row between two cursors is skipped. */
  lemma PageCovers(table: seq<Opportunity>, after: nat, keep: Opportunity -> bool, batch: nat, o: Opportunity)
    requires Ascending(table) && batch > 0 && o in table && keep(o) && o.id > after
    requires var (next, done) := NextPage(after, Page(table, after, keep, batch), batch); o.id <= next || done
    ensures o in Page(table, after, keep, batch)
  {
    hide Rest, Page;
    PageStep(table, after, keep, batch);
    RestMembers(table, after, keep, o);
    RestMembers(table, NextPage(after, Page(table, after, keep, batch), batch).0, keep, o);
  }

  // ---------------------------------------------------------------- a scan

  /** What a scan leaves for one opportunity. */
  ghost predicate Good(db: Db, o: Opportunity, rules: seq<Rule>, now: Time) {
    if Candidate(o) then Aligned(db, o, rules, now) else ActiveOf(db, o.tenant, o.id) == {}
  }

  lemma GoodElsewhere(db: Db, d: Db, tenant: string, id: nat, o: Opportunity, rules: seq<Rule>, now: Time)
    requires OthersSame(db, d, tenant, id) && Evolves(db, d) && o.id != id && Good(db, o, rules, now)
    ensures Good(d, o, rules, now)
  {
    hide Desired;
    assert ActiveOf(d, o.tenant, o.id) == ActiveOf(db, o.tenant, o.id);
    forall k | HasAlert(db, k) ensures HasAlert(d, k) {
      var a :| a in db.alerts && db.alerts[a].identity == k;
      assert d.alerts[a].identity == k;
    }
  }

  lemma GoodDelivered(db: Db, d: Db, ks: seq<Identity>, o: Opportunity, rules: seq<Rule>, now: Time)
    requires Delivered(db, d, ks) && Good(db, o, rules, now)
    ensures Good(d, o, rules, now)
  {
    hide Desired;
    assert ActiveOf(d, o.tenant, o.id) == ActiveOf(db, o.tenant, o.id);
    forall k | HasAlert(db, k) ensures HasAlert(d, k) {
      var a :| a in db.alerts && db.alerts[a].identity == k;
      assert d.alerts[a].identity == k;
    }
  }

  lemma FindRow(table: seq<Opportunity>, o: Opportunity)
    requires Ascending(table) && o in table
    ensures Find(table, o.tenant, o.id) == Some(o)
  {
    var n := |table| - 1;
    if table[n] != o {
      assert o in table[..n];
      FindRow(table[..n], o);
    }
  }

  datatype Outcome = Busy | LeaseLost | Failed | Completed

  /** Cancels the alerts of every opportunity that is deleted, closed or in an untimed stage. */
  method CancelInactive(s: Store, worker: string, clock: nat -> Time, start: nat, duration: Time, batch: nat)
    returns (ok: bool, tick: nat)
    requires Ascending(s.opportunities) && batch > 0 && Coupled(s.State())
    modifies s`alerts, s`outbox, s`lease
    ensures Coupled(s.State())
    ensures tick > start && (s.lease, ok) == Renewed(old(s.lease), worker, clock, start, tick - start, duration)
    ensures ok ==> forall o :: o in s.opportunities && !Candidate(o) ==> ActiveOf(s.State(), o.tenant, o.id) == {}
  {
    hide Coupled, Rest, Ascending, Page, ActiveOf, RenewSpec, Renewed;
    var after: nat, done := 0, false;
    tick := start;
    RenewedOne(s.lease, worker, clock, start, 0, duration);
    ok := s.RenewLease(worker, clock(tick), duration);
    tick := tick + 1;
    if !ok { return; }
    IdsPositive(s.opportunities);
    while !done
      invariant Coupled(s.State()) && ok
      invariant tick > start && (s.lease, true) == Renewed(old(s.lease), worker, clock, start, tick - start, duration)
      invariant forall o ::
                  o in s.opportunities && !Candidate(o) && o.id <= after ==> ActiveOf(s.State(), o.tenant, o.id) == {}
      invariant done ==> forall o :: o in s.opportunities && !Candidate(o) ==> ActiveOf(s.State(), o.tenant, o.id) == {}
      invariant after == 0 || (s.opportunities != [] && after <= s.opportunities[|s.opportunities| - 1].id)
      decreases !done, (if s.opportunities == [] then 0 else s.opportunities[|s.opportunities| - 1].id) - after
    {
      var seen := s.State();
      var keep := (o: Opportunity) => !Candidate(o) && ActiveOf(seen, o.tenant, o.id) != {};
      var values := Query(s.opportunities, after, keep, batch);
      PageStep(s.opportunities, after, keep, batch);
      var used;
      ok, used := CancelValues(s, worker, clock, tick, duration, values);
      RenewedMore(old(s.lease), worker, clock, start, tick - start, used, duration);
      tick := tick + used;
      if !ok { return; }
      ghost var before := after;
      after, done := NextPage(after, values, batch).0, NextPage(after, values, batch).1;
      forall o | o in s.opportunities && !Candidate(o) && (o.id <= after || done)
        ensures ActiveOf(s.State(), o.tenant, o.id) == {}
      {
        if o.id > before && ActiveOf(seen, o.tenant, o.id) != {} {
          PageCovers(s.opportunities, before, keep, batch, o);
        }
      }
    }
  }

  lemma IdsPositive(table: seq<Opportunity>)
    requires Ascending(table)
    ensures forall o :: o in table ==> o.id > 0
  {
  }

  method CancelValues(s: Store, worker: string, clock: nat -> Time, tick: nat, duration: Time, values: seq<Opportunity>)
    returns (ok: bool, used: nat)
    requires Coupled(s.State())
    modifies s`alerts, s`outbox, s`lease
    ensures Coupled(s.State())
    ensures (s.lease, ok) == Renewed(old(s.lease), worker, clock, tick, used, duration)
    ensures ok ==> used == |values| + 1
    ensures forall tenant, id :: ActiveOf(old(s.State()), tenant, id) == {} ==> ActiveOf(s.State(), tenant, id) == {}
    ensures ok ==> forall o :: o in values ==> ActiveOf(s.State(), o.tenant, o.id) == {}
  {
    hide Coupled, ActiveOf, CancelSpec, Evolves, OthersSame, RenewSpec;
    used := 0;
    for i := 0 to |values|
      invariant Coupled(s.State()) && used == i
      invariant (s.lease, true) == Renewed(old(s.lease), worker, clock, tick, used, duration)
      invariant forall tenant, id ::
                  ActiveOf(old(s.State()), tenant, id) == {} ==> ActiveOf(s.State(), tenant, id) == {}
      invariant forall j :: 0 <= j < i ==> ActiveOf(s.State(), values[j].tenant, values[j].id) == {}
    {
      ok := s.RenewLease(worker, clock(tick + used), duration);
      used := used + 1;
      if !ok { return; }
      ghost var db := s.State();
      s.CancelOpportunityAlerts(values[i].tenant, values[i].id);
      ScanCancels(db, values[i].tenant, values[i].id);
      CancelOnlyShrinks(db, ActiveOf(db, values[i].tenant, values[i].id));
    }
    ok := s.RenewLease(worker, clock(tick + used), duration);
    used := used + 1;
  }

  lemma CancelOnlyShrinks(db: Db, ids: set<AlertId>)
    ensures forall tenant, id :: ActiveOf(db, tenant, id) == {} ==> ActiveOf(CancelSpec(db, ids), tenant, id) == {}
  {
    forall tenant, id | ActiveOf(db, tenant, id) == {} ensures ActiveOf(CancelSpec(db, ids), tenant, id) == {} {
      assert ActiveOf(CancelSpec(db, ids), tenant, id) <= ActiveOf(db, tenant, id);
    }
  }

  lemma QueuedInOutbox(db: Db, picked: seq<Identity>)
    requires forall k :: k in picked ==> k in QueuedKeys(db)
    ensures forall k :: k in picked ==> k in db.outbox
  {
  }

  lemma DeliveryShortens(db: Db, d: Db, picked: seq<Identity>)
    requires Delivered(db, d, picked)
    ensures QueuedKeys(d) == QueuedKeys(db) - set k | k in picked
  {
  }

  // One batch of queued events, between two renewals.
  method DeliverPage(s: Store, worker: string, clock: nat -> Time, start: nat, duration: Time, batch: nat,
                     ghost now: Time)
    returns (ok: bool, tick: nat, picked: seq<Identity>)
    requires Coupled(s.State())
    modifies s`alerts, s`outbox, s`lease
    ensures Coupled(s.State())
    ensures tick > start && (s.lease, ok) == Renewed(old(s.lease), worker, clock, start, tick - start, duration)
    ensures ok ==> tick == start + 2 && QueuedKeys(s.State()) == QueuedKeys(old(s.State())) - set k | k in picked
    ensures ok && |picked| < batch ==> QueuedKeys(s.State()) == {}
    ensures forall k :: k in picked ==> k in QueuedKeys(old(s.State()))
    ensures |picked| <= batch
    ensures forall o :: Good(old(s.State()), o, s.rules, now) ==> Good(s.State(), o, s.rules, now)
  {
    hide Coupled, Good, QueuedKeys, Delivered, DeliverAll, RenewSpec, Renewed;
    picked := [];
    tick := start;
    RenewedOne(s.lease, worker, clock, start, 0, duration);
    RenewedOne(s.lease, worker, clock, start, 1, duration);
    ok := s.RenewLease(worker, clock(tick), duration);
    tick := tick + 1;
    if !ok { return; }
    picked := s.PickQueued(batch);
    ghost var db := s.State();
    QueuedInOutbox(db, picked);
    s.DeliverBatch(picked);
    DeliverySends(db, picked);
    forall o | Good(db, o, s.rules, now) ensures Good(s.State(), o, s.rules, now) {
      GoodDelivered(db, s.State(), picked, o, s.rules, now);
    }
    DeliveryShortens(db, s.State(), picked);
    ok := s.RenewLease(worker, clock(tick), duration);
    tick := tick + 1;
  }

  /** Delivers batch after batch; it stops when a batch comes up short, and nothing is queued. */
  method DeliverSiteMessages(s: Store, worker: string, clock: nat -> Time, start: nat, duration: Time, batch: nat,
                             ghost now: Time)
    returns (ok: bool, tick: nat)
    requires batch > 0 && Coupled(s.State())
    modifies s`alerts, s`outbox, s`lease
    ensures Coupled(s.State())
    ensures tick > start && (s.lease, ok) == Renewed(old(s.lease), worker, clock, start, tick - start, duration)
    ensures ok ==> QueuedKeys(s.State()) == {}
    ensures forall o :: Good(old(s.State()), o, s.rules, now) ==> Good(s.State(), o, s.rules, now)
  {
    hide Coupled, Good, QueuedKeys, Renewed;
    tick := start;
    RenewedOne(s.lease, worker, clock, start, 0, duration);
    while true
      invariant Coupled(s.State())
      invariant tick >= start && (s.lease, true) == Renewed(old(s.lease), worker, clock, start, tick - start, duration)
      invariant forall o :: Good(old(s.State()), o, s.rules, now) ==> Good(s.State(), o, s.rules, now)
      decreases |QueuedKeys(s.State())|
    {
      ghost var queued := QueuedKeys(s.State());
      var next, picked;
      ok, next, picked := DeliverPage(s, worker, clock, tick, duration, batch, now);
      RenewedMore(old(s.lease), worker, clock, start, tick - start, next - tick, duration);
      tick := next;
      if !ok { return; }
      if |picked| < batch { return; }
      Smaller(QueuedKeys(s.State()), queued, picked[0]);
    }
  }

  lemma Smaller<T>(a: set<T>, b: set<T>, x: T)
    requires a <= b && x in b && x !in a
    ensures |a| < |b|
  {
    SubsetCard(a, b - {x});
  }

  lemma {:induction false} SubsetCard<T>(a: set<T>, b: set<T>)
    requires a <= b
    ensures |a| <= |b|
  {
    if a != {} {
      var x :| x in a;
      SubsetCard(a - {x}, b - {x});
    }
  }

  // The candidates of one page, in order.
  method ScanValues(s: Store, worker: string, licensed: bool, clock: nat -> Time, tick: nat, duration: Time,
                    values: seq<Opportunity>, now: Time)
    returns (r: Outcome, used: nat)
    requires Ascending(s.opportunities) && Coupled(s.State())
    requires forall o :: o in values ==> o in s.opportunities && Candidate(o)
    modifies s`alerts, s`outbox, s`next, s`lease
    ensures Coupled(s.State()) && (r == Completed || r == LeaseLost)
    ensures (s.lease, r == Completed) == Renewed(old(s.lease), worker, clock, tick, used, duration)
    ensures r == Completed ==> used == |values|
    ensures forall o :: o in s.opportunities && Good(old(s.State()), o, s.rules, now) ==>
              Good(s.State(), o, s.rules, now)
    ensures r == Completed && licensed ==> forall o :: o in values ==> Good(s.State(), o, s.rules, now)
  {
    hide Coupled, Good, ScanSpec, CreateAll, OthersSame, Evolves, RenewSpec;
    used := 0;
    for i := 0 to |values|
      invariant Coupled(s.State()) && used == i
      invariant (s.lease, true) == Renewed(old(s.lease), worker, clock, tick, used, duration)
      invariant forall o ::
                  o in s.opportunities && Good(old(s.State()), o, s.rules, now) ==> Good(s.State(), o, s.rules, now)
      invariant licensed ==> forall j :: 0 <= j < i ==> Good(s.State(), values[j], s.rules, now)
    {
      var ok := s.RenewLease(worker, clock(tick + used), duration);
      used := used + 1;
      if !ok { return LeaseLost, used; }
      ghost var db := s.State();
      var o := values[i];
      ok := s.ScanOne(o.tenant, o.id, licensed, now);
      FindRow(s.opportunities, o);
      ScanAligns(db, o, s.rules, now);
      if licensed {
        AlignedIsGood(s.State(), o, s.rules, now);
        forall p | p in s.opportunities && Good(db, p, s.rules, now) ensures Good(s.State(), p, s.rules, now) {
          if p.id == o.id {
            SameRow(s.opportunities, p, o);
          } else {
            GoodElsewhere(db, s.State(), o.tenant, o.id, p, s.rules, now);
          }
        }
      }
      if !ok { return Failed, used; }
    }
    return Completed, used;
  }

  lemma AlignedIsGood(db: Db, o: Opportunity, rules: seq<Rule>, now: Time)
    requires Candidate(o) && Aligned(db, o, rules, now)
    ensures Good(db, o, rules, now)
  {
  }

  lemma SameRow(table: seq<Opportunity>, p: Opportunity, o: Opportunity)
    requires Ascending(table) && p in table && o in table && p.id == o.id
    ensures p == o
  {
  }

  // One page of candidates, between two renewals.
  method ScanPage(s: Store, worker: string, licensed: bool, clock: nat -> Time, start: nat, duration: Time,
                  batch: nat, after: nat, now: Time)
    returns (r: Outcome, tick: nat, values: seq<Opportunity>)
    requires Ascending(s.opportunities) && Coupled(s.State())
    modifies s`alerts, s`outbox, s`next, s`lease
    ensures Coupled(s.State()) && (r == Completed || r == LeaseLost)
    ensures tick > start
    ensures (s.lease, r == Completed) == Renewed(old(s.lease), worker, clock, start, tick - start, duration)
    ensures r == Completed ==>
              tick - start == |values| + 2 && values == Page(s.opportunities, after, Candidate, batch)
    ensures forall o :: o in s.opportunities && Good(old(s.State()), o, s.rules, now) ==>
              Good(s.State(), o, s.rules, now)
    ensures r == Completed && licensed ==> forall o :: o in values ==> Good(s.State(), o, s.rules, now)
  {
    hide Coupled, Rest, Good, RenewSpec, Renewed, Page;
    tick := start;
    RenewedOne(s.lease, worker, clock, start, 0, duration);
    values := [];
    var ok := s.RenewLease(worker, clock(tick), duration);
    tick := tick + 1;
    if !ok { return LeaseLost, tick, values; }
    values := Query(s.opportunities, after, Candidate, batch);
    PageMembers(s.opportunities, after, batch);
    var used;
    r, used := ScanValues(s, worker, licensed, clock, tick, duration, values, now);
    RenewedMore(old(s.lease), worker, clock, start, tick - start, used, duration);
    tick := tick + used;
    if r != Completed { return; }
    RenewedOne(old(s.lease), worker, clock, start, tick - start, duration);
    ok := s.RenewLease(worker, clock(tick), duration);
    tick := tick + 1;
    r := if ok then Completed else LeaseLost;
  }

  lemma PageMembers(table: seq<Opportunity>, after: nat, batch: nat)
    ensures forall o :: o in Page(table, after, Candidate, batch) ==> o in table && Candidate(o)
  {
    hide Rest;
    forall o | o in Page(table, after, Candidate, batch) ensures o in table && Candidate(o) {
      assert o in Rest(table, after, Candidate);
      RestMembers(table, after, Candidate, o);
    }
  }

  // The paged loop over the candidates.
  method ScanCandidates(s: Store, worker: string, licensed: bool, clock: nat -> Time, start: nat, duration: Time,
                        batch: nat, now: Time)
    returns (r: Outcome, tick: nat, ghost visited: seq<Opportunity>)
    requires Ascending(s.opportunities) && batch > 0 && Coupled(s.State())
    modifies s`alerts, s`outbox, s`next, s`lease
    ensures Coupled(s.State()) && (r == Completed || r == LeaseLost)
    ensures tick > start
    ensures (s.lease, r == Completed) == Renewed(old(s.lease), worker, clock, start, tick - start, duration)
    ensures r == Completed ==> tick - start >= |visited| + 2
    ensures forall o :: o in s.opportunities && Good(old(s.State()), o, s.rules, now) ==>
              Good(s.State(), o, s.rules, now)
    ensures r == Completed ==> visited == Rest(s.opportunities, 0, Candidate)
    ensures r == Completed && licensed ==>
              forall o :: o in s.opportunities && Candidate(o) ==> Good(s.State(), o, s.rules, now)
  {
    hide Coupled, Rest, Ascending, Good, Page, RenewSpec, Renewed, Candidate;
    visited := [];
    tick := start;
    RenewedOne(s.lease, worker, clock, start, 0, duration);
    var after: nat, done := 0, false;
    IdsPositive(s.opportunities);
    while !done
      invariant Coupled(s.State())
      invariant tick >= start + |visited| && (done ==> tick >= start + |visited| + 2)
      invariant (s.lease, true) == Renewed(old(s.lease), worker, clock, start, tick - start, duration)
      invariant visited + Rest(s.opportunities, after, Candidate) == Rest(s.opportunities, 0, Candidate)
      invariant done ==> Rest(s.opportunities, after, Candidate) == []
      invariant forall o ::
                  o in s.opportunities && Good(old(s.State()), o, s.rules, now) ==> Good(s.State(), o, s.rules, now)
      invariant licensed ==>
        forall o :: o in s.opportunities && Candidate(o) && (o.id <= after || done) ==> Good(s.State(), o, s.rules, now)
      invariant after == 0 || (s.opportunities != [] && after <= s.opportunities[|s.opportunities| - 1].id)
      decreases !done, (if s.opportunities == [] then 0 else s.opportunities[|s.opportunities| - 1].id) - after
    {
      PageStep(s.opportunities, after, Candidate, batch);
      var values, next;
      r, next, values := ScanPage(s, worker, licensed, clock, tick, duration, batch, after, now);
      RenewedMore(old(s.lease), worker, clock, start, tick - start, next - tick, duration);
      tick := next;
      if r != Completed { return; }
      ghost var before := after;
      after, done := NextPage(after, values, batch).0, NextPage(after, values, batch).1;
      visited := visited + values;
      forall o | licensed && o in s.opportunities && Candidate(o) && before < o.id && (o.id <= after || done)
        ensures Good(s.State(), o, s.rules, now)
      {
        PageCovers(s.opportunities, before, Candidate, batch, o);
      }
    }
    r := Completed;
  }

  /** The whole scan.  `clock(i)` is the time at the i-th reading of the clock; `now` is the
      first.  `visited` lists the candidates in the order they were scanned.  Every reading after the
      first is a renewal, and the scan is over at the first that fails. */
  method Scan(s: Store, worker: string, licensed: bool, clock: nat -> Time, duration: Time, batch: nat)
    returns (r: Outcome, ghost visited: seq<Opportunity>, tick: nat)
    requires Ascending(s.opportunities) && batch > 0 && Coupled(s.State())
    modifies s`alerts, s`outbox, s`next, s`lease
    ensures Coupled(s.State()) && r != Failed
    ensures r != Busy ==>
              && tick > 0
              && (s.lease, r == Completed)
                 == Renewed(Some(Lease(worker, clock(0) + duration)), worker, clock, 1, tick - 1, duration)
    ensures r == Completed ==> tick >= |visited| + 6
    ensures r == Busy ==>
              s.State() == old(s.State()) && old(s.lease).Some? && old(s.lease).value.owner != worker
                  && old(s.lease).value.until > clock(0)
    ensures r == Completed ==> visited == Rest(s.opportunities, 0, Candidate) && QueuedKeys(s.State()) == {}
    ensures r == Completed && licensed ==> forall o :: o in s.opportunities ==> Good(s.State(), o, s.rules, clock(0))
  {
    hide Coupled, Rest, Ascending, Aligned, RenewSpec, Renewed, ActiveOf, QueuedKeys;
    visited, tick := [], 1;
    var now := clock(0);
    var acquired := s.AcquireLease(worker, now, duration);
    if !acquired { return Busy, visited, tick; }
    ghost var taken := s.lease;
    RenewedOne(taken, worker, clock, 1, 0, duration);
    var ok := s.RenewLease(worker, clock(1), duration);
    tick := 2;
    if !ok { return LeaseLost, visited, tick; }
    ghost var before := tick;
    ok, tick := CancelInactive(s, worker, clock, tick, duration, batch);
    RenewedMore(taken, worker, clock, 1, before - 1, tick - before, duration);
    if !ok { return LeaseLost, visited, tick; }
    before := tick;
    r, tick, visited := ScanCandidates(s, worker, licensed, clock, tick, duration, batch, now);
    RenewedMore(taken, worker, clock, 1, before - 1, tick - before, duration);
    if r != Completed { return; }
    RenewedOne(taken, worker, clock, 1, tick - 1, duration);
    ok := s.RenewLease(worker, clock(tick), duration);
    tick := tick + 1;
    if !ok { return LeaseLost, visited, tick; }
    before := tick;
    ok, tick := DeliverSiteMessages(s, worker, clock, tick, duration, batch, now);
    RenewedMore(taken, worker, clock, 1, before - 1, tick - before, duration);
    return if ok then Completed else LeaseLost, visited, tick;
  }
}
