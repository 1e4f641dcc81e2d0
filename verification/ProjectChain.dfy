/** The project synchronisation over every interleaving of workers, crashes and lease takeovers. */
module ProjectChain {
  import opened Wrappers
  import opened ProjectSync

  function End(log: seq<Applied>): string { if log == [] then "" else log[|log| - 1].page.next }

  /** The i-th applied page was fetched with the cursor the page before it left. */
  predicate Gapless(log: seq<Applied>) {
    forall i :: 0 <= i < |log| ==> log[i].from == End(log[..i]) && Acceptable(log[i].from, log[i].page)
  }

  /** No two pages were applied at the same version. */
  predicate Ordered(log: seq<Applied>, version: nat) {
    && (forall i, j :: 0 <= i < j < |log| ==> log[i].version < log[j].version)
    && (forall i :: 0 <= i < |log| ==> log[i].version < version)
  }

  /** The stored cursor is the end of a gapless chain of pages, and the project table is exactly
      what those pages produce. */
  predicate Good(c: Customer) {
    && Gapless(c.log) && Ordered(c.log, c.row.version)
    && c.row.cursor == End(c.log) && c.projects == UpsertAll(map[], Bundles(c.log))
  }

  predicate Faithful(t: Table, h: Held) {
    && h.id in t && h.version <= t[h.id].row.version
    && (h.version == t[h.id].row.version ==> h.cursor == t[h.id].row.cursor)
    && (h.stage.Fetched? ==> Acceptable(h.cursor, h.stage.page))
  }

  predicate Current(t: Table, h: Held) { h.id in t && h.version == t[h.id].row.version }

  predicate Inv(w: World) {
    && (forall id :: id in w.customers ==> Good(w.customers[id]))
    && (forall a :: a in w.workers ==> Faithful(w.customers, w.workers[a]))
    && (forall a, b :: a in w.workers && b in w.workers && a != b && w.workers[a].id == w.workers[b].id ==>
         !(Current(w.customers, w.workers[a]) && Current(w.customers, w.workers[b])))
  }

  // ---------------------------------------------------------------- one page

  lemma GaplessSnoc(log: seq<Applied>, a: Applied)
    requires Gapless(log) && a.from == End(log) && Acceptable(a.from, a.page)
    ensures Gapless(log + [a])
  {
    hide Acceptable;
    var more := log + [a];
    forall i | 0 <= i < |more| ensures more[i].from == End(more[..i]) && Acceptable(more[i].from, more[i].page) {
      if i < |log| { assert more[..i] == log[..i] && more[i] == log[i]; } else { assert more[..i] == log; }
    }
  }

  lemma PageKeepsGood(c: Customer, page: Page, now: Time, iv: Intervals)
    requires Good(c) && Acceptable(c.row.cursor, page)
    ensures Good(Customer(AdvanceRow(c.row, page, now, iv), UpsertAll(c.projects, page.bundles),
                          c.log + [Applied(c.row.cursor, page, c.row.version)]))
  {
    hide UpsertAll, Acceptable, Gapless, Bundles;
    var a := Applied(c.row.cursor, page, c.row.version);
    GaplessSnoc(c.log, a);
    BundlesSnoc(c.log, a);
    UpsertConcat(map[], Bundles(c.log), page.bundles);
  }

  lemma RowKeepsGood(c: Customer, r: Row)
    requires Good(c) && r.cursor == c.row.cursor && r.version >= c.row.version
    ensures Good(c.(row := r))
  {
    hide UpsertAll, Acceptable, Bundles;
  }

  // ---------------------------------------------------------------- every step

  /** Replacing one customer's row by a later version keeps everything the other rows and the other
      workers need. */
  lemma RowMoves(w: World, id: nat, c: Customer, workers: map<string, Held>, me: string)
    requires Inv(w) && id in w.customers && Good(c) && c.row.version > w.customers[id].row.version
    requires workers.Keys <= w.workers.Keys + {me}
    requires forall a :: a in workers && a != me ==> a in w.workers && workers[a] == w.workers[a]
    requires me in workers ==> workers[me].id == id && Faithful(w.customers[id := c], workers[me])
    ensures Inv(World(w.customers[id := c], workers))
  {
    hide Good, Acceptable;
    var t := w.customers[id := c];
    forall a | a in workers && a != me
      ensures Faithful(t, workers[a]) && (workers[a].id == id ==> !Current(t, workers[a]))
    {
      assert Faithful(w.customers, w.workers[a]);
    }
    forall a, b | a in workers && b in workers && a != b && workers[a].id == workers[b].id
      ensures !(Current(t, workers[a]) && Current(t, workers[b]))
    {
      if workers[a].id != id && a != me && b != me {
        assert !(Current(w.customers, w.workers[a]) && Current(w.customers, w.workers[b]));
      }
    }
  }

  lemma TakeKeeps(w: World, s: Step)
    requires Inv(w) && s.Take?
    ensures Inv(Do(w, s))
  {
    hide Good, Inv;
    if s.worker !in w.workers && s.id in w.customers && Due(w.customers[s.id].row, s.now) {
      var c := w.customers[s.id];
      var r := c.row.(lockedBy := s.worker, lockedUntil := Some(s.now + s.lease), version := c.row.version + 1);
      GoodOf(w, s.id);
      RowKeepsGood(c, r);
      RowMoves(w, s.id, c.(row := r), Do(w, s).workers, s.worker);
    }
  }

  lemma GoodOf(w: World, id: nat)
    requires Inv(w) && id in w.customers
    ensures Good(w.customers[id])
  {
  }

  lemma FaithfulOf(w: World, a: string)
    requires Inv(w) && a in w.workers
    ensures Faithful(w.customers, w.workers[a])
  {
  }

  // Forgetting what a worker remembers keeps everything.
  lemma ForgetKeeps(w: World, a: string)
    requires Inv(w)
    ensures Inv(w.(workers := w.workers - {a}))
  {
    hide Good, Acceptable;
  }

  lemma SettleKeeps(w: World, s: Step)
    requires Inv(w) && s.Settle?
    ensures Inv(Do(w, s))
  {
    hide Good, Inv, Acceptable, UpsertAll, AdvanceRow;
    if s.worker in w.workers && !w.workers[s.worker].stage.Ready? {
      var h := w.workers[s.worker];
      FaithfulOf(w, s.worker);
      ForgetKeeps(w, s.worker);
      GoodOf(w, h.id);
      var c := w.customers[h.id];
      if h.stage.Broken? {
        if Owns(w.customers, h, s.worker) {
          var r := c.row.(lockedBy := "", lockedUntil := None, nextRun := s.now + s.iv.retry,
                          version := c.row.version + 1);
          RowKeepsGood(c, r);
          RowMoves(w, h.id, c.(row := r), w.workers - {s.worker}, s.worker);
        }
      } else if Fenced(w.customers, h, s.worker, s.now) && s.stored {
        PageKeepsGood(c, h.stage.page, s.now, s.iv);
        var c' := Customer(AdvanceRow(c.row, h.stage.page, s.now, s.iv), UpsertAll(c.projects, h.stage.page.bundles),
                           c.log + [Applied(h.cursor, h.stage.page, h.version)]);
        AdvanceFacts(c.row, h.stage.page, s.now, s.iv);
        RowMoves(w, h.id, c', Do(w, s).workers, s.worker);
      }
    }
  }

  lemma AdvanceFacts(r: Row, page: Page, now: Time, iv: Intervals)
    ensures AdvanceRow(r, page, now, iv).version == r.version + 1 && AdvanceRow(r, page, now, iv).cursor == page.next
  {
  }

  lemma SeedKeeps(w: World, active: set<nat>, now: Time)
    requires Inv(w)
    ensures Inv(Do(w, Seed(active, now)))
  {
    hide Good, Acceptable;
    FreshIsGood(now);
    var t := Do(w, Seed(active, now)).customers;
    forall a | a in w.workers
      ensures Faithful(t, w.workers[a]) && (Current(t, w.workers[a]) <==> Current(w.customers, w.workers[a]))
    {
      assert Faithful(w.customers, w.workers[a]);
    }
  }

  lemma FreshIsGood(now: Time)
    ensures Good(Customer(Row("", 1, "", None, now), map[], []))
  {
  }

  lemma FetchKeeps(w: World, a: string, raw: Option<Page>)
    requires Inv(w)
    ensures Inv(Do(w, Fetch(a, raw)))
  {
    hide Good, Acceptable;
    var v := Do(w, Fetch(a, raw));
    forall b | b in v.workers
      ensures Faithful(v.customers, v.workers[b])
              && (Current(v.customers, v.workers[b]) <==> Current(w.customers, w.workers[b]))
    {
      assert Faithful(w.customers, w.workers[b]);
    }
  }

  lemma CrashIsForget(w: World, a: string)
    ensures Do(w, Crash(a)) == w.(workers := w.workers - {a})
  {
  }

  lemma StepKeeps(w: World, s: Step)
    requires Inv(w)
    ensures Inv(Do(w, s))
  {
    hide Inv, Do;
    match s
    case Take(_, _, _, _) => TakeKeeps(w, s);
    case Settle(_, _, _, _) => SettleKeeps(w, s);
    case Seed(active, now) => SeedKeeps(w, active, now);
    case Fetch(a, raw) => FetchKeeps(w, a, raw);
    case Crash(a) => CrashIsForget(w, a); ForgetKeeps(w, a);
  }

  lemma {:induction false} InvAlways(w: World, steps: seq<Step>)
    requires Initial(w)
    ensures Inv(DoAll(w, steps))
  {
    hide Do;
    if steps != [] {
      InvAlways(w, steps[..|steps| - 1]);
      StepKeeps(DoAll(w, steps[..|steps| - 1]), steps[|steps| - 1]);
    }
  }

  /** The first page was fetched with the empty cursor, each later one with the cursor the page before
      it left. */
  predicate Linked(log: seq<Applied>) {
    forall i :: 0 <= i < |log| ==> log[i].from == if i == 0 then "" else log[i - 1].page.next
  }

  /** The applied pages are linked and no two were applied at the same version; the stored cursor is
      where the last page left it, and the project table is exactly what these pages produce. */
  predicate ChainOf(c: Customer) {
    && Linked(c.log)
    && (forall i, j :: 0 <= i < j < |c.log| ==> c.log[i].version < c.log[j].version < c.row.version)
    && c.row.cursor == (if c.log == [] then "" else c.log[|c.log| - 1].page.next)
    && c.projects == UpsertAll(map[], Bundles(c.log))
  }

  lemma LinkedAt(log: seq<Applied>, i: nat)
    requires Gapless(log) && i < |log|
    ensures log[i].from == if i == 0 then "" else log[i - 1].page.next
  {
    hide Acceptable;
    var before := log[..i];
    assert log[i].from == End(before);
    assert i > 0 ==> before[i - 1] == log[i - 1];
  }

  lemma GaplessLinks(log: seq<Applied>)
    requires Gapless(log)
    ensures Linked(log)
  {
    hide Gapless;
    forall i | 0 <= i < |log| ensures log[i].from == if i == 0 then "" else log[i - 1].page.next {
      LinkedAt(log, i);
    }
  }

  lemma GoodReads(c: Customer)
    requires Good(c)
    ensures ChainOf(c)
  {
    hide Gapless, Linked, UpsertAll, Acceptable, Bundles;
    GaplessLinks(c.log);
  }

  /** In every reachable state every stored cursor is the end of a gapless chain. */
  lemma GaplessAlways(w: World, steps: seq<Step>, id: nat)
    requires Initial(w) && id in DoAll(w, steps).customers
    ensures ChainOf(DoAll(w, steps).customers[id])
  {
    hide *;
    InvAlways(w, steps);
    GoodOf(DoAll(w, steps), id);
    GoodReads(DoAll(w, steps).customers[id]);
  }

  // ---------------------------------------------------------------- stale holders

  /** Every step leaves a row as it is or moves it to a later version; only a settlement that holds
      the lease appends a page, one page, fetched with the cursor the row had; nothing else moves
      the cursor, the projects or the log. */
  lemma StepMoves(w: World, s: Step, id: nat)
    requires Inv(w) && id in w.customers
    ensures id in Do(w, s).customers
    ensures var c, c' := w.customers[id], Do(w, s).customers[id];
            && (c' == c || c'.row.version == c.row.version + 1)
            && (c'.log == c.log ==> c'.row.cursor == c.row.cursor && c'.projects == c.projects)
            && (c'.log != c.log ==>
                  && s.Settle? && s.worker in w.workers && w.workers[s.worker].stage.Fetched?
                  && Fenced(w.customers, w.workers[s.worker], s.worker, s.now)
                  && c'.log == c.log + [Applied(c.row.cursor, w.workers[s.worker].stage.page, c.row.version)])
  {
    hide Good, Acceptable, UpsertAll;
  }

  predicate Stale(t: Table, h: Held) { h.id in t && h.version < t[h.id].row.version }

  lemma {:induction false} StaleForever(w: World, steps: seq<Step>, h: Held)
    requires Inv(w) && Stale(w.customers, h)
    ensures Inv(DoAll(w, steps)) && Stale(DoAll(w, steps).customers, h)
  {
    hide Inv, Do;
    if steps != [] {
      var v := DoAll(w, steps[..|steps| - 1]);
      StaleForever(w, steps[..|steps| - 1], h);
      StepMoves(v, steps[|steps| - 1], h.id);
      StepKeeps(v, steps[|steps| - 1]);
    }
  }

  /** A worker whose row has moved on can never apply a page or report a failure any more, however
      late it tries and whatever the other workers did meanwhile. */
  lemma LateHolderRejected(w: World, steps: seq<Step>, h: Held, worker: string, page: Page, now: Time, stored: bool,
                           iv: Intervals)
    requires Inv(w) && Stale(w.customers, h)
    ensures var t := DoAll(w, steps).customers;
            ApplySpec(t, h, worker, page, now, stored, iv) == (t, Some(LeaseLost))
            && FailSpec(t, h, worker, now, iv) == (t, Some(LeaseLost))
  {
    hide Inv, Do, DoAll;
    StaleForever(w, steps, h);
  }

  /** Taking a row over, applying a page or reporting a failure makes every earlier claim on that row
      stale: so a page is applied at most once, and never by a holder that was overtaken. */
  lemma MovedOnIsStale(w: World, s: Step, a: string)
    requires Inv(w) && a in w.workers && Moved(w, Do(w, s), w.workers[a].id)
    ensures Stale(Do(w, s).customers, w.workers[a])
  {
    hide Do, Good, Acceptable;
    FaithfulOf(w, a);
    StepMoves(w, s, w.workers[a].id);
  }

  predicate Moved(w: World, v: World, id: nat) {
    id in w.customers && id in v.customers && v.customers[id] != w.customers[id]
  }

  predicate Unmoved(w: World, v: World, id: nat) {
    id in w.customers && id in v.customers && v.customers[id] == w.customers[id]
  }

  /** While a worker is up to date with a row whose lease has not run out, no other worker's step
      changes the row. */
  lemma LeaseExcludes(w: World, s: Step, a: string)
    requires Inv(w) && a in w.workers && Current(w.customers, w.workers[a])
    requires var r := w.customers[w.workers[a].id].row;
             && r.lockedUntil.Some? && (s.Take? || s.Settle? ==> s.worker != a && s.now <= r.lockedUntil.value)
    ensures Unmoved(w, Do(w, s), w.workers[a].id)
  {
    hide Inv, Do, Unmoved;
    match s
    case Take(_, _, _, _) => TakeRespects(w, s, w.workers[a].id);
    case Settle(_, _, _, _) => SettleRespects(w, s, a);
    case _ => OthersRespect(w, s, w.workers[a].id);
  }

  lemma TakeRespects(w: World, s: Step, id: nat)
    requires s.Take? && id in w.customers && w.customers[id].row.lockedUntil.Some?
             && s.now <= w.customers[id].row.lockedUntil.value
    ensures Unmoved(w, Do(w, s), id)
  {
  }

  lemma SettleRespects(w: World, s: Step, a: string)
    requires Inv(w) && s.Settle? && a in w.workers && s.worker != a && Current(w.customers, w.workers[a])
    ensures Unmoved(w, Do(w, s), w.workers[a].id)
  {
    hide Inv, UpsertAll, AdvanceRow;
    if s.worker in w.workers { OneCurrent(w, a, s.worker); }
  }

  lemma OthersRespect(w: World, s: Step, id: nat)
    requires (s.Seed? || s.Fetch? || s.Crash?) && id in w.customers
    ensures Unmoved(w, Do(w, s), id)
  {
    hide Acceptable;
  }

  lemma OneCurrent(w: World, a: string, b: string)
    requires Inv(w) && a in w.workers && b in w.workers && a != b
    ensures w.workers[a].id == w.workers[b].id ==>
              !(Current(w.customers, w.workers[a]) && Current(w.customers, w.workers[b]))
  {
  }

  // ---------------------------------------------------------------- the project table

  /** The project table holds, of all bundles ever applied, the newest of each project - of equally
      new ones the first - and nothing else. */
  lemma {:induction false} TableIsNewest(bundles: seq<Bundle>, p: string)
    ensures p in UpsertAll(map[], bundles) <==> exists i :: 0 <= i < |bundles| && bundles[i].project == p
    ensures p in UpsertAll(map[], bundles) ==>
              var b := UpsertAll(map[], bundles)[p];
              exists k :: 0 <= k < |bundles| && bundles[k] == b && b.project == p
                && (forall i :: 0 <= i < |bundles| && bundles[i].project == p ==> bundles[i].updatedAt <= b.updatedAt)
                && (forall i :: 0 <= i < k && bundles[i].project == p ==> bundles[i].updatedAt < b.updatedAt)
  {
    if bundles != [] {
      var n := |bundles| - 1;
      TableIsNewest(bundles[..n], p);
      if bundles[n].project == p && p !in UpsertAll(map[], bundles[..n]) {
        assert forall i :: 0 <= i < n ==> bundles[..n][i].project != p;
      }
      if p in UpsertAll(map[], bundles) {
        if exists i :: 0 <= i < n && bundles[..n][i].project == p {
          var b := UpsertAll(map[], bundles[..n])[p];
          var k :| 0 <= k < n && bundles[..n][k] == b && b.project == p
            && (forall i :: 0 <= i < n && bundles[..n][i].project == p ==> bundles[..n][i].updatedAt <= b.updatedAt)
            && (forall i :: 0 <= i < k && bundles[..n][i].project == p ==> bundles[..n][i].updatedAt < b.updatedAt);
          assert forall i :: 0 <= i < n ==> bundles[..n][i] == bundles[i];
        }
      }
    }
  }

  /** Delivering the same news in another order, in other pages or more than once makes no difference. */
  lemma OrderDoesNotMatter(a: seq<Bundle>, b: seq<Bundle>)
    requires forall x :: x in a <==> x in b
    requires forall x, y :: x in a && y in a && x.project == y.project && x.updatedAt == y.updatedAt ==> x == y
    ensures UpsertAll(map[], a) == UpsertAll(map[], b)
  {
    hide UpsertAll;
    forall p ensures p in UpsertAll(map[], a) <==> p in UpsertAll(map[], b)
             ensures p in UpsertAll(map[], a) && p in UpsertAll(map[], b) ==>
                       UpsertAll(map[], a)[p] == UpsertAll(map[], b)[p]
    {
      SameEntry(a, b, p);
    }
  }

  lemma SameEntry(a: seq<Bundle>, b: seq<Bundle>, p: string)
    requires forall x :: x in a <==> x in b
    requires forall x, y :: x in a && y in a && x.project == y.project && x.updatedAt == y.updatedAt ==> x == y
    ensures p in UpsertAll(map[], a) <==> p in UpsertAll(map[], b)
    ensures p in UpsertAll(map[], a) ==> UpsertAll(map[], a)[p] == UpsertAll(map[], b)[p]
  {
    hide UpsertAll;
    TableIsNewest(a, p);
    TableIsNewest(b, p);
    assert (exists i :: 0 <= i < |a| && a[i].project == p) <==> exists i :: 0 <= i < |b| && b[i].project == p by {
      if i :| 0 <= i < |a| && a[i].project == p { assert a[i] in b; }
      if i :| 0 <= i < |b| && b[i].project == p { assert b[i] in a; }
    }
    if p in UpsertAll(map[], a) {
      var x, y := UpsertAll(map[], a)[p], UpsertAll(map[], b)[p];
      assert x in a && y in b;
      assert x in b && y in a;
    }
  }

  // ---------------------------------------------------------------- a round nobody disturbs

  function CursorBefore(start: string, answers: seq<Answer>): string
    requires forall a :: a in answers ==> a.raw.Some?
  {
    if answers == [] then start else answers[|answers| - 1].raw.value.next
  }

  /** Every answer is a page the source accepts, stored before the lease of the page before it ran
      out, and only the last says that there is no more. */
  predicate Smooth(start: string, deadline: Time, answers: seq<Answer>, iv: Intervals) {
    && (forall a :: a in answers ==> a.raw.Some? && a.stored)
    && (forall k :: 0 <= k < |answers| ==> Acceptable(CursorBefore(start, answers[..k]), answers[k].raw.value))
    && (forall k :: 0 <= k < |answers| ==> answers[k].at < if k == 0 then deadline else answers[k - 1].at + iv.lease)
    && (forall k :: 0 <= k < |answers| ==> (answers[k].raw.value.more <==> k < |answers| - 1))
  }

  function Pages(start: string, version: nat, answers: seq<Answer>): seq<Applied>
    requires forall a :: a in answers ==> a.raw.Some?
  {
    if answers == [] then []
    else
      var n := |answers| - 1;
      Pages(start, version, answers[..n])
          + [Applied(CursorBefore(start, answers[..n]), answers[n].raw.value, version + n)]
  }

  /** Where such a round stands after k of its answers, not the last. */
  predicate Underway(w: World, t: Table, id: nat, worker: string, now: Time, answers: seq<Answer>, k: nat,
                     iv: Intervals)
    requires id in t && k < |answers| && forall a :: a in answers ==> a.raw.Some?
  {
    var c := t[id];
    var cursor := CursorBefore(c.row.cursor, answers[..k]);
    && w.workers == map[worker := Held(id, cursor, c.row.version + 1 + k, Ready)]
    && id in w.customers
    && w.customers[id].log == c.log + Pages(c.row.cursor, c.row.version + 1, answers[..k])
    && w.customers[id].row == Row(cursor, c.row.version + 1 + k, worker,
                                  Some(if k == 0 then now + iv.lease else answers[k - 1].at + iv.lease), c.row.nextRun)
  }

  lemma {:induction false} SmoothSoFar(t: Table, id: nat, worker: string, active: set<nat>, now: Time,
                                       answers: seq<Answer>, k: nat, iv: Intervals)
    requires id in t && Due(t[id].row, now) && k < |answers| && Smooth(t[id].row.cursor, now + iv.lease, answers, iv)
    requires forall a :: a in answers ==> a.raw.Some?
    ensures Underway(DoAll(World(t, map[]), Script(id, worker, active, now, answers[..k], iv)), t, id, worker, now,
                     answers, k, iv)
  {
    hide *;
    var w := World(t, map[]);
    if k == 0 {
      SmoothStart(t, id, worker, active, now, answers, iv);
      assert answers[..0] == [];
    } else {
      SmoothSoFar(t, id, worker, active, now, answers, k - 1, iv);
      ScriptSnoc(w, id, worker, active, now, answers, k - 1, iv);
      SmoothStep(DoAll(w, Script(id, worker, active, now, answers[..k - 1], iv)), t, id, worker, now, answers, k - 1,
                 iv);
    }
  }

  lemma SmoothStart(t: Table, id: nat, worker: string, active: set<nat>, now: Time, answers: seq<Answer>, iv: Intervals)
    requires id in t && Due(t[id].row, now) && 0 < |answers| && forall a :: a in answers ==> a.raw.Some?
    ensures Underway(DoAll(World(t, map[]), Script(id, worker, active, now, [], iv)), t, id, worker, now, answers, 0,
                     iv)
  {
    hide UpsertAll, DoAll, Script;
    ScriptStart(World(t, map[]), id, worker, active, now, iv);
    assert answers[..0] == [];
  }

  lemma PagesSnoc(start: string, version: nat, answers: seq<Answer>, k: nat)
    requires k < |answers| && forall a :: a in answers ==> a.raw.Some?
    ensures CursorBefore(start, answers[..k + 1]) == answers[k].raw.value.next
    ensures Pages(start, version, answers[..k + 1])
         == Pages(start, version, answers[..k])
             + [Applied(CursorBefore(start, answers[..k]), answers[k].raw.value, version + k)]
  {
    assert answers[..k + 1][..k] == answers[..k];
  }

  lemma SmoothStep(v: World, t: Table, id: nat, worker: string, now: Time, answers: seq<Answer>, k: nat, iv: Intervals)
    requires id in t && k < |answers| && Smooth(t[id].row.cursor, now + iv.lease, answers, iv)
    requires Underway(v, t, id, worker, now, answers, k, iv)
    ensures answers[k].raw.value.more <==> k < |answers| - 1
    ensures var a := answers[k];
            var u := Do(Do(v, Fetch(worker, a.raw)), Settle(worker, a.at, a.stored, iv));
            if a.raw.value.more then k + 1 < |answers| && Underway(u, t, id, worker, now, answers, k + 1, iv)
            else Settled(u, t, id, answers, iv)
  {
    hide Acceptable, UpsertAll, Pages, Do, CursorBefore;
    var a := answers[k];
    assert a in answers;
    OneAnswer(v.customers, worker, v.workers[worker], a, iv);
    PagesSnoc(t[id].row.cursor, t[id].row.version + 1, answers, k);
    if !a.raw.value.more { assert answers[..k + 1] == answers; }
  }

  /** The round is over: all pages are applied, one after the other, and the row is released. */
  predicate Settled(w: World, t: Table, id: nat, answers: seq<Answer>, iv: Intervals)
    requires id in t && answers != [] && forall a :: a in answers ==> a.raw.Some?
  {
    var r := t[id].row;
    && w.workers == map[] && id in w.customers
    && w.customers[id].log == t[id].log + Pages(r.cursor, r.version + 1, answers)
    && w.customers[id].row == Row(answers[|answers| - 1].raw.value.next, r.version + 1 + |answers|, "", None,
                                  answers[|answers| - 1].at + iv.sync)
  }

  /** A round on a due row with no other worker in between applies every page the source offers. */
  lemma UndisturbedRound(t: Table, id: nat, worker: string, active: set<nat>, now: Time, answers: seq<Answer>,
                         iv: Intervals)
    requires id in t && Due(t[id].row, now) && answers != [] && Smooth(t[id].row.cursor, now + iv.lease, answers, iv)
    ensures Settled(DoAll(World(t, map[]), Script(id, worker, active, now, answers, iv)), t, id, answers, iv)
  {
    hide Do, DoAll, Script, Underway, Settled, Acceptable;
    var n := |answers| - 1;
    SmoothSoFar(t, id, worker, active, now, answers, n, iv);
    ScriptSnoc(World(t, map[]), id, worker, active, now, answers, n, iv);
    SmoothStep(DoAll(World(t, map[]), Script(id, worker, active, now, answers[..n], iv)), t, id, worker, now, answers,
               n, iv);
    assert answers[..n + 1] == answers;
  }
}
