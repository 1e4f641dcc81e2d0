/** What each transaction of the project synchronisation needs and does, in terms of the row, the page and
  * the clock; and which pages can ever be applied.
  */
module ProjectEffects {
  import opened Wrappers
  import opened ProjectSync
  import opened ProjectChain

  /** A page the source may answer with when asked for what comes after `from`: each project once, another
      page only behind a cursor that moves, and never back to the beginning. */
  predicate MayFollow(from: string, page: Page) {
    && (forall i, j :: 0 <= i < j < |page.bundles| ==> page.bundles[i].project != page.bundles[j].project)
    && (page.more ==> page.next != "" && page.next != from)
    && (from != "" ==> page.next != "")
  }

  /** Exactly which answers a worker takes: pages that may follow its cursor.  Anything else breaks the round. */
  lemma FetchedIff(w: World, worker: string, raw: Option<Page>)
    requires worker in w.workers && w.workers[worker].stage.Ready?
    ensures var v := Do(w, Fetch(worker, raw));
            && v.customers == w.customers && worker in v.workers
            && (raw.Some? && MayFollow(w.workers[worker].cursor, raw.value) ==>
                  v.workers[worker].stage == Fetched(raw.value))
            && (raw.None? || !MayFollow(w.workers[worker].cursor, raw.value) ==> v.workers[worker].stage == Broken)
  {
    var from := w.workers[worker].cursor;
    if raw.Some? { assert MayFollow(from, raw.value) <==> Acceptable(from, raw.value); }
  }

  /** In every reachable state every page ever applied was one that may follow the cursor it was asked with. */
  lemma AppliedMayFollow(w: World, steps: seq<Step>, id: nat, i: nat)
    requires Initial(w) && id in DoAll(w, steps).customers && i < |DoAll(w, steps).customers[id].log|
    ensures var a := DoAll(w, steps).customers[id].log[i]; MayFollow(a.from, a.page)
  {
    hide DoAll, Good;
    InvAlways(w, steps);
    GoodOf(DoAll(w, steps), id);
    GoodFollows(DoAll(w, steps).customers[id], i);
  }

  lemma GoodFollows(c: Customer, i: nat)
    requires Good(c) && i < |c.log|
    ensures MayFollow(c.log[i].from, c.log[i].page)
  {
    hide UpsertAll, Bundles;
    assert Acceptable(c.log[i].from, c.log[i].page);
  }

  /** Exactly which rows are handed out: those whose next run is due and whose lease, if any, has run out. */
  lemma TakenIff(w: World, id: nat, worker: string, now: Time, lease: Time)
    requires worker !in w.workers
    ensures var v := Do(w, Take(id, worker, now, lease));
            && (worker in v.workers <==>
                  && id in w.customers && w.customers[id].row.nextRun <= now
                  && (w.customers[id].row.lockedUntil == None || w.customers[id].row.lockedUntil.value < now))
            && (worker !in v.workers ==> v == w)
            && (worker in v.workers ==>
                  && var r := w.customers[id].row;
                     && v.customers == w.customers[id := w.customers[id].(
                       row := Row(r.cursor, r.version + 1, worker, Some(now + lease), r.nextRun))]
                     && v.workers[worker] == Held(id, r.cursor, r.version + 1, Ready))
  {
  }

  /** The row is this worker's at the version it knows, and its lease runs beyond `now`. */
  predicate Holds(t: Table, h: Held, worker: string, now: Time) {
    && h.id in t && t[h.id].row.lockedBy == worker && t[h.id].row.version == h.version
    && t[h.id].row.lockedUntil.Some? && now < t[h.id].row.lockedUntil.value
  }

  /** Exactly when a page is applied, and what then becomes of the row: after the last page it is released
      until its next run, before that the lease is renewed. */
  lemma AppliedIff(t: Table, h: Held, worker: string, page: Page, now: Time, stored: bool, iv: Intervals)
    ensures var (after, err) := ApplySpec(t, h, worker, page, now, stored, iv);
            && (err == None <==> Holds(t, h, worker, now) && stored)
            && (err == Some(LeaseLost) <==> !Holds(t, h, worker, now))
            && (err != None ==> after == t)
            && (err == None ==>
                  && after.Keys == t.Keys && (forall k :: k in t && k != h.id ==> after[k] == t[k])
                  && after[h.id].log == t[h.id].log + [Applied(h.cursor, page, h.version)]
                  && var r, r' := t[h.id].row, after[h.id].row;
                     r' == if page.more then Row(page.next, r.version + 1, worker, Some(now + iv.lease), r.nextRun)
                           else Row(page.next, r.version + 1, "", None, now + iv.sync))
  {
    hide UpsertAll;
  }

  /** A failure is recorded by whoever still holds the row at its version, in or out of the lease; it keeps
      the cursor, the projects and the log, and puts the next run off. */
  lemma FailedIff(t: Table, h: Held, worker: string, now: Time, iv: Intervals)
    ensures var (after, err) := FailSpec(t, h, worker, now, iv);
            && (err == None <==> h.id in t && t[h.id].row.lockedBy == worker && t[h.id].row.version == h.version)
            && (err != None ==> after == t)
            && (err == None ==>
                  && var r := t[h.id].row;
                     after == t[h.id := t[h.id].(row := Row(r.cursor, r.version + 1, "", None, now + iv.retry))])
  {
  }

  /** A customer seen for the first time starts without a cursor and is due at once; nobody else changes. */
  lemma SeededAs(t: Table, active: set<nat>, now: Time, id: nat)
    ensures var v := SeedSpec(t, active, now);
            && (id in v <==> id in t || id in active)
            && (id in t ==> v[id] == t[id])
            && (id in v && id !in t ==>
                  v[id].row == Row("", 1, "", None, now) && v[id].projects == map[] && v[id].log == [])
  {
  }

  /** The bundles that are news: of projects not known yet, or newer than what is. */
  function News(projects: map<string, Bundle>, bundles: seq<Bundle>): set<Bundle> {
    set b | b in bundles && (b.project !in projects || projects[b.project].updatedAt < b.updatedAt)
  }

  lemma {:induction false} OtherProjects(projects: map<string, Bundle>, bundles: seq<Bundle>, project: string)
    requires forall b :: b in bundles ==> b.project != project
    ensures var after := UpsertAll(projects, bundles);
            (project in after <==> project in projects) && (project in projects ==> after[project] == projects[project])
  {
    if bundles != [] {
      assert bundles[|bundles| - 1] in bundles;
      OtherProjects(projects, bundles[..|bundles| - 1], project);
    }
  }

  /** The number a page reports is the number of its bundles that are news. */
  lemma {:induction false} ChangesAreNews(projects: map<string, Bundle>, bundles: seq<Bundle>)
    requires DistinctProjects(bundles)
    ensures Changes(projects, bundles) == |News(projects, bundles)|
  {
    if bundles == [] {
      assert News(projects, bundles) == {};
    } else {
      var n := |bundles| - 1;
      var b := bundles[n];
      ChangesAreNews(projects, bundles[..n]);
      OtherProjects(projects, bundles[..n], b.project);
      NewsSnoc(projects, bundles);
    }
  }

  lemma NewsSnoc(projects: map<string, Bundle>, bundles: seq<Bundle>)
    requires bundles != [] && DistinctProjects(bundles)
    ensures var n := |bundles| - 1;
            var b := bundles[n];
            |News(projects, bundles)|
            == |News(projects, bundles[..n])|
               + if b.project !in projects || projects[b.project].updatedAt < b.updatedAt then 1 else 0
  {
    var n := |bundles| - 1;
    var b := bundles[n];
    assert bundles == bundles[..n] + [b];
    assert b !in News(projects, bundles[..n]);
    assert News(projects, bundles)
        == News(projects, bundles[..n])
           + if b.project !in projects || projects[b.project].updatedAt < b.updatedAt then {b} else {};
  }
}
