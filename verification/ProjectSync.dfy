/** The incremental project synchronisation: one row per customer holds the cursor, a version and a
  * finite lease.  A worker claims a row, fetches pages outside any transaction, and applies each
  * page, the project snapshots and the new cursor in one transaction fenced by owner and version.
  */
module ProjectSync {
  import opened Wrappers

  type Time = int

  // `body` stands for the snapshot's other columns and its child rows.
  datatype Bundle = Bundle(project: string, updatedAt: Time, body: string)
  datatype Page = Page(bundles: seq<Bundle>, next: string, more: bool)

  datatype Row = Row(cursor: string, version: nat, lockedBy: string, lockedUntil: Option<Time>, nextRun: Time)

  /** A page that was applied: the cursor it was fetched with and the version it was applied at. */
  datatype Applied = Applied(from: string, page: Page, version: nat)

  // `log` is history: every page ever applied for this customer, in order.
  datatype Customer = Customer(row: Row, projects: map<string, Bundle>, log: seq<Applied>)

  /** What a worker remembers of the row it claimed. */
  datatype Stage = Ready | Fetched(page: Page) | Broken
  datatype Held = Held(id: nat, cursor: string, version: nat, stage: Stage)

  datatype Error = LeaseLost | StoreFailed
  datatype Intervals = Intervals(lease: Time, sync: Time, retry: Time)

  // ---------------------------------------------------------------- the source

  predicate DistinctProjects(bundles: seq<Bundle>) {
    forall i, j :: 0 <= i < j < |bundles| ==> bundles[i].project != bundles[j].project
  }

  /** What the HTTP source accepts of an answer to a request with this cursor. */
  predicate Acceptable(cursor: string, page: Page) {
    && DistinctProjects(page.bundles)
    && (page.more ==> page.next != "" && page.next != cursor)
    && (cursor != "" ==> page.next != "")
  }

  // ---------------------------------------------------------------- the project table

  function Upsert(projects: map<string, Bundle>, b: Bundle): map<string, Bundle> {
    if b.project in projects && b.updatedAt <= projects[b.project].updatedAt then projects else projects[b.project := b]
  }

  function UpsertAll(projects: map<string, Bundle>, bundles: seq<Bundle>): map<string, Bundle> {
    if bundles == [] then projects
    else Upsert(UpsertAll(projects, bundles[..|bundles| - 1]), bundles[|bundles| - 1])
  }

  function Changes(projects: map<string, Bundle>, bundles: seq<Bundle>): nat {
    if bundles == [] then 0
    else
      var n := |bundles| - 1;
      var before := UpsertAll(projects, bundles[..n]);
      Changes(projects, bundles[..n]) + if Upsert(before, bundles[n]) != before then 1 else 0
  }

  /** The bundles of the pages applied, in order. */
  function Bundles(log: seq<Applied>): seq<Bundle> {
    if log == [] then [] else Bundles(log[..|log| - 1]) + log[|log| - 1].page.bundles
  }

  lemma {:induction false} UpsertConcat(m: map<string, Bundle>, a: seq<Bundle>, b: seq<Bundle>)
    ensures UpsertAll(m, a + b) == UpsertAll(UpsertAll(m, a), b)
  {
    if b == [] {
      assert a + b == a;
    } else {
      var ab := a + b;
      assert ab[..|ab| - 1] == a + b[..|b| - 1];
      UpsertConcat(m, a, b[..|b| - 1]);
    }
  }

  lemma BundlesSnoc(log: seq<Applied>, a: Applied)
    ensures Bundles(log + [a]) == Bundles(log) + a.page.bundles
  {
    assert (log + [a])[..|log|] == log;
  }

  lemma {:induction false} ChangesConcat(m: map<string, Bundle>, a: seq<Bundle>, b: seq<Bundle>)
    ensures Changes(m, a + b) == Changes(m, a) + Changes(UpsertAll(m, a), b)
  {
    if b == [] {
      assert a + b == a;
    } else {
      var n := |b| - 1;
      assert (a + b)[..|a + b| - 1] == a + b[..n];
      ChangesConcat(m, a, b[..n]);
      UpsertConcat(m, a, b[..n]);
    }
  }

  // ---------------------------------------------------------------- the transactions

  predicate Due(r: Row, now: Time) { r.nextRun <= now && (r.lockedUntil.None? || r.lockedUntil.value < now) }

  type Table = map<nat, Customer>

  function SeedSpec(t: Table, active: set<nat>, now: Time): Table {
    map id | id in t.Keys + active :: if id in t then t[id] else Customer(Row("", 1, "", None, now), map[], [])
  }

  function ClaimSpec(t: Table, id: nat, worker: string, now: Time, lease: Time): (Table, Option<Held>) {
    if id in t && Due(t[id].row, now) then
      var r := t[id].row;
      (t[id := t[id].(row := r.(lockedBy := worker, lockedUntil := Some(now + lease), version := r.version + 1))],
       Some(Held(id, r.cursor, r.version + 1, Ready)))
    else (t, None)
  }

  predicate Owns(t: Table, h: Held, worker: string) {
    h.id in t && t[h.id].row.lockedBy == worker && t[h.id].row.version == h.version
  }

  predicate Fenced(t: Table, h: Held, worker: string, now: Time) {
    Owns(t, h, worker) && t[h.id].row.lockedUntil.Some? && t[h.id].row.lockedUntil.value > now
  }

  function AdvanceRow(r: Row, page: Page, now: Time, iv: Intervals): Row {
    if page.more then r.(cursor := page.next, version := r.version + 1, lockedUntil := Some(now + iv.lease))
    else r.(cursor := page.next, version := r.version + 1, lockedBy := "", lockedUntil := None,
            nextRun := now + iv.sync)
  }

  function ApplySpec(t: Table, h: Held, worker: string, page: Page, now: Time, stored: bool,
                     iv: Intervals): (Table, Option<Error>) {
    if !Fenced(t, h, worker, now) then (t, Some(LeaseLost))
    else if !stored then (t, Some(StoreFailed))
    else
      var c := t[h.id];
      (t[h.id := Customer(AdvanceRow(c.row, page, now, iv), UpsertAll(c.projects, page.bundles),
                          c.log + [Applied(h.cursor, page, h.version)])], None)
  }

  function FailSpec(t: Table, h: Held, worker: string, now: Time, iv: Intervals): (Table, Option<Error>) {
    if !Owns(t, h, worker) then (t, Some(LeaseLost))
    else
      var r := t[h.id].row;
      (t[h.id := t[h.id].(row := Row(r.cursor, r.version + 1, "", None, now + iv.retry))],
       None)
  }

  class SyncStore {
    var customers: Table

    method SeedCustomers(active: set<nat>, now: Time)
      modifies this
      ensures customers == SeedSpec(old(customers), active, now)
    {
      var missing := active - customers.Keys;
      ghost var before := customers;
      while missing != {}
        invariant missing <= active - before.Keys
        invariant customers == SeedSpec(before, active - before.Keys - missing, now)
      {
        var id :| id in missing;
        customers := customers[id := Customer(Row("", 1, "", None, now), map[], [])];
        missing := missing - {id};
      }
      assert active - before.Keys - {} + before.Keys == before.Keys + active;
    }

    /** `id` is the row that SKIP LOCKED hands to this transaction, if it hands out any. */
    method Claim(id: nat, worker: string, now: Time, lease: Time) returns (state: Option<Held>)
      modifies this
      ensures (customers, state) == ClaimSpec(old(customers), id, worker, now, lease)
    {
      if id !in customers || !Due(customers[id].row, now) { return None; }
      var row := customers[id].row;
      customers := customers[id := customers[id].(
        row := Row(row.cursor, row.version + 1, worker, Some(now + lease), row.nextRun))];
      return Some(Held(id, row.cursor, row.version + 1, Ready));
    }

    method ApplyPage(state: Held, worker: string, page: Page, now: Time, stored: bool, iv: Intervals)
      returns (after: Held, updated: nat, err: Option<Error>)
      modifies this
      ensures (customers, err) == ApplySpec(old(customers), state, worker, page, now, stored, iv)
      ensures err.None? ==> after == Held(state.id, page.next, state.version + 1, Ready)
      ensures err.None? ==> updated == Changes(old(customers[state.id].projects), page.bundles)
      ensures err.Some? ==> after == state && updated == 0
    {
      after, updated := state, 0;
      if !Fenced(customers, state, worker, now) { return after, 0, Some(LeaseLost); }
      var current := customers[state.id];
      var projects := current.projects;
      for i := 0 to |page.bundles|
        invariant projects == UpsertAll(current.projects, page.bundles[..i])
        invariant updated == Changes(current.projects, page.bundles[..i])
      {
        var b := page.bundles[i];
        assert page.bundles[..i + 1][..i] == page.bundles[..i];
        if b.project !in projects || projects[b.project].updatedAt < b.updatedAt {
          projects := projects[b.project := b];
          updated := updated + 1;
        }
      }
      assert page.bundles[..|page.bundles|] == page.bundles;
      if !stored { return state, 0, Some(StoreFailed); }   // rolled back
      customers := customers[state.id := Customer(AdvanceRow(current.row, page, now, iv), projects,
                                                  current.log + [Applied(state.cursor, page, state.version)])];
      return Held(state.id, page.next, state.version + 1, Ready), updated, None;
    }

    method Failed(state: Held, worker: string, now: Time, iv: Intervals) returns (err: Option<Error>)
      modifies this
      ensures (customers, err) == FailSpec(old(customers), state, worker, now, iv)
    {
      if state.id !in customers || customers[state.id].row.lockedBy != worker
          || customers[state.id].row.version != state.version {
        return Some(LeaseLost);
      }
      var row := customers[state.id].row;
      customers := customers[state.id := customers[state.id].(
        row := Row(row.cursor, row.version + 1, "", None, now + iv.retry))];
      return None;
    }

    /** One round of one worker with no other worker in between: what it does to the table is what
        its script does in the world of all workers, and it reports the rows that its pages changed.  It
        stops early where the answers end. */
    method RunOnce(id: nat, worker: string, active: set<nat>, now: Time, answers: seq<Answer>, iv: Intervals)
      returns (updated: nat)
      modifies this
      ensures customers == DoAll(World(old(customers), map[]), Script(id, worker, active, now, answers, iv)).customers
      ensures if id in customers then Progress(Before(old(customers), id, now), customers[id], updated)
              else updated == 0
    {
      hide *;
      ghost var w := World(customers, map[]);
      ghost var first := Before(customers, id, now);
      updated := 0;
      SeedCustomers(active, now);
      var claimed := Claim(id, worker, now, iv.lease);
      ScriptStart(w, id, worker, active, now, iv);
      ClaimedSame(w.customers, id, worker, active, now, iv.lease);
      assert answers[..0] == [];
      if claimed.None? {
        Idle(w, id, worker, active, now, answers, 0, iv);
        return;
      }
      var state := claimed.value;
      for k := 0 to |answers|
        invariant state.stage == Ready && state.id == id && id in customers
        invariant Progress(first, customers[id], updated)
        invariant DoAll(w, Script(id, worker, active, now, answers[..k], iv)) == World(customers, map[worker := state])
      {
        var a := answers[k];
        ScriptSnoc(w, id, worker, active, now, answers, k, iv);
        OneAnswer(customers, worker, state, a, iv);
        var page := Changed(state.cursor, a.raw);
        var err;
        ghost var table := customers;
        if page.None? {
          FailedSame(first, table, state, worker, a.at, iv, updated);
          err := Failed(state, worker, a.at, iv);
          Idle(w, id, worker, active, now, answers, k + 1, iv);
          return;
        }
        var count;
        AppliedMore(first, table, state, worker, page.value, a.at, a.stored, iv, updated);
        state, count, err := ApplyPage(state, worker, page.value, a.at, a.stored, iv);
        updated := updated + count;
        if err.Some? || !page.value.more {
          Idle(w, id, worker, active, now, answers, k + 1, iv);
          return;
        }
        assert answers[..k + 1][..k] == answers[..k];
      }
      assert answers[..|answers|] == answers;
    }
  }

  /** A customer as a round finds it. */
  function Before(t: Table, id: nat, now: Time): Customer {
    if id in t then t[id] else Customer(Row("", 1, "", None, now), map[], [])
  }

  /** From `c` to `d` pages were applied, and `updated` counts the rows they changed. */
  ghost predicate Progress(c: Customer, d: Customer, updated: nat) {
    && |c.log| <= |d.log| && d.log[..|c.log|] == c.log
    && var more := Bundles(d.log[|c.log|..]);
       d.projects == UpsertAll(c.projects, more) && updated == Changes(c.projects, more)
  }

  lemma NoProgress(c: Customer, d: Customer)
    requires d.log == c.log && d.projects == c.projects
    ensures Progress(c, d, 0)
  {
    assert d.log[|c.log|..] == [] && d.log[..|c.log|] == c.log;
  }

  lemma ClaimedSame(t: Table, id: nat, worker: string, active: set<nat>, now: Time, lease: Time)
    ensures var (after, held) := ClaimSpec(SeedSpec(t, active, now), id, worker, now, lease);
            && (id in after ==> Progress(Before(t, id, now), after[id], 0))
            && (held.Some? ==> held.value.id == id && id in after)
  {
    var after := ClaimSpec(SeedSpec(t, active, now), id, worker, now, lease).0;
    if id in after { NoProgress(Before(t, id, now), after[id]); }
  }

  lemma FailedSame(c: Customer, t: Table, h: Held, worker: string, now: Time, iv: Intervals, updated: nat)
    requires h.id in t && Progress(c, t[h.id], updated)
    ensures var after := FailSpec(t, h, worker, now, iv).0; h.id in after && Progress(c, after[h.id], updated)
  {
    hide UpsertAll, Changes, Bundles;
  }

  lemma AppliedMore(c: Customer, t: Table, h: Held, worker: string, page: Page, now: Time, stored: bool,
                    iv: Intervals, updated: nat)
    requires h.id in t && Progress(c, t[h.id], updated)
    ensures var (after, err) := ApplySpec(t, h, worker, page, now, stored, iv);
            && h.id in after
            && Progress(c, after[h.id], updated + if err == None then Changes(t[h.id].projects, page.bundles) else 0)
  {
    hide UpsertAll, Changes, Bundles;
    var d := t[h.id];
    var a := Applied(h.cursor, page, h.version);
    var pages := d.log[|c.log|..];
    assert (d.log + [a])[|c.log|..] == pages + [a] && (d.log + [a])[..|c.log|] == d.log[..|c.log|];
    BundlesSnoc(pages, a);
    UpsertConcat(c.projects, Bundles(pages), page.bundles);
    ChangesConcat(c.projects, Bundles(pages), page.bundles);
  }

  // ---------------------------------------------------------------- all workers together

  // `workers` holds what each worker that is in a round remembers; workers have distinct names.
  datatype World = World(customers: Table, workers: map<string, Held>)

  datatype Step =
    | Seed(active: set<nat>, now: Time)
    | Take(id: nat, worker: string, now: Time, lease: Time)
    | Fetch(worker: string, raw: Option<Page>)
    | Settle(worker: string, now: Time, stored: bool, iv: Intervals)
    | Crash(worker: string)

  // An answer the source refuses, or none at all, is a failed fetch.
  function Changed(cursor: string, raw: Option<Page>): Option<Page> {
    if raw.Some? && Acceptable(cursor, raw.value) then raw else None
  }

  function Do(w: World, s: Step): World {
    match s
    case Seed(active, now) => w.(customers := SeedSpec(w.customers, active, now))
    case Take(id, worker, now, lease) =>
      if worker in w.workers then w
      else
        var (t, held) := ClaimSpec(w.customers, id, worker, now, lease);
        World(t, if held.Some? then w.workers[worker := held.value] else w.workers)
    case Fetch(worker, raw) =>
      if worker !in w.workers || !w.workers[worker].stage.Ready? then w
      else
        var h := w.workers[worker];
        var page := Changed(h.cursor, raw);
        w.(workers := w.workers[worker := h.(stage := if page.Some? then Fetched(page.value) else Broken)])
    case Settle(worker, now, stored, iv) =>
      if worker !in w.workers then w
      else
        var h := w.workers[worker];
        if h.stage.Ready? then w
        else if h.stage.Broken? then World(FailSpec(w.customers, h, worker, now, iv).0, w.workers - {worker})
        else
          var (t, err) := ApplySpec(w.customers, h, worker, h.stage.page, now, stored, iv);
          World(t, if err.None? && h.stage.page.more
                then w.workers[worker := Held(h.id, h.stage.page.next, h.version + 1, Ready)]
                   else w.workers - {worker})
    case Crash(worker) => w.(workers := w.workers - {worker})
  }

  function DoAll(w: World, steps: seq<Step>): World {
    if steps == [] then w else Do(DoAll(w, steps[..|steps| - 1]), steps[|steps| - 1])
  }

  predicate Initial(w: World) { w.customers == map[] && w.workers == map[] }

  /** One answer of the source, and when and whether the database takes it. */
  datatype Answer = Answer(raw: Option<Page>, at: Time, stored: bool)

  function Script(id: nat, worker: string, active: set<nat>, now: Time, answers: seq<Answer>,
                  iv: Intervals): seq<Step> {
    if answers == [] then [Seed(active, now), Take(id, worker, now, iv.lease)]
    else
      var n := |answers| - 1;
      Script(id, worker, active, now, answers[..n], iv)
        + [Fetch(worker, answers[n].raw), Settle(worker, answers[n].at, answers[n].stored, iv)]
  }

  lemma DoAllTwo(w: World, steps: seq<Step>, a: Step, b: Step)
    ensures DoAll(w, steps + [a, b]) == Do(Do(DoAll(w, steps), a), b)
  {
    hide Do;
    var all := steps + [a, b];
    assert all[..|all| - 1] == steps + [a];
    assert (steps + [a])[..|steps|] == steps;
  }

  lemma ScriptStart(w: World, id: nat, worker: string, active: set<nat>, now: Time, iv: Intervals)
    requires w.workers == map[]
    ensures var (t, held) := ClaimSpec(SeedSpec(w.customers, active, now), id, worker, now, iv.lease);
            && DoAll(w, Script(id, worker, active, now, [], iv))
               == World(t, if held.Some? then map[worker := held.value] else map[])
            && (held.Some? ==> held.value.stage == Ready)
  {
    hide SeedSpec;
    DoAllTwo(w, [], Seed(active, now), Take(id, worker, now, iv.lease));
    assert [] + [Seed(active, now), Take(id, worker, now, iv.lease)] == Script(id, worker, active, now, [], iv);
  }

  // What a lone worker's fetch and settlement come to.
  lemma OneAnswer(t: Table, worker: string, h: Held, a: Answer, iv: Intervals)
    requires h.stage == Ready
    ensures var v := Do(Do(World(t, map[worker := h]), Fetch(worker, a.raw)), Settle(worker, a.at, a.stored, iv));
            var page := Changed(h.cursor, a.raw);
            if page.None? then v == World(FailSpec(t, h, worker, a.at, iv).0, map[])
            else
              var (t', err) := ApplySpec(t, h, worker, page.value, a.at, a.stored, iv);
              v == World(t', if err.None? && page.value.more
                             then map[worker := Held(h.id, page.value.next, h.version + 1, Ready)] else map[])
  {
    hide Acceptable, UpsertAll;
    var held := map[worker := h];
    assert held - {worker} == map[];
    forall x: Held ensures held[worker := x] == map[worker := x] && held[worker := x] - {worker} == map[] { }
  }

  lemma ScriptSnoc(w: World, id: nat, worker: string, active: set<nat>, now: Time, answers: seq<Answer>, k: nat,
                   iv: Intervals)
    requires k < |answers|
    ensures var v := DoAll(w, Script(id, worker, active, now, answers[..k], iv));
            DoAll(w, Script(id, worker, active, now, answers[..k + 1], iv))
            == Do(Do(v, Fetch(worker, answers[k].raw)), Settle(worker, answers[k].at, answers[k].stored, iv))
  {
    hide Do;
    assert answers[..k + 1][..k] == answers[..k];
    DoAllTwo(w, Script(id, worker, active, now, answers[..k], iv),
             Fetch(worker, answers[k].raw), Settle(worker, answers[k].at, answers[k].stored, iv));
  }

  // A worker that is not in a round ignores the rest of its script.
  lemma {:induction false} Idle(w: World, id: nat, worker: string, active: set<nat>, now: Time, answers: seq<Answer>,
                                k: nat, iv: Intervals)
    requires k <= |answers|
    requires worker !in DoAll(w, Script(id, worker, active, now, answers[..k], iv)).workers
    ensures DoAll(w, Script(id, worker, active, now, answers, iv))
            == DoAll(w, Script(id, worker, active, now, answers[..k], iv))
    decreases |answers| - k
  {
    if k == |answers| {
      assert answers[..k] == answers;
    } else {
      ScriptSnoc(w, id, worker, active, now, answers, k, iv);
      Idle(w, id, worker, active, now, answers, k + 1, iv);
    }
  }
}
