/** The periodic identity reconciliation: pages through the CRM identity links, compares each
  * with the portal and the platform, and keeps a table of open findings.
  */
module Reconciliation {
  import opened Wrappers
  import Splitter

  datatype Candidate = Candidate(
    link: nat, tenant: string, customer: nat, contact: nat, user: string, account: string, status: string,
    accountNo: string, customerExists: bool, customerStatus: string, customerMerged: bool, contactValid: bool,
    compensation: string)

  datatype Snapshot = Snapshot(
    user: string, found: bool, customer: nat, contact: Option<nat>, account: string, accountNo: string, status: string)

  datatype Mode = AUTO_COMPENSATION | NEEDS_REVIEW
  datatype Finding = Finding(code: string, mode: Mode)

  function NeedsReview(code: string): Option<Finding> { Some(Finding(code, NEEDS_REVIEW)) }

  function ClassifyPortal(c: Candidate, p: Snapshot): Option<Finding> {
    if !c.customerExists || c.customerStatus != "ACTIVE" || c.customerMerged then NeedsReview("CRM_CUSTOMER_INACTIVE")
    else if !c.contactValid then NeedsReview("CRM_CONTACT_INVALID")
    else if Splitter.Trim(c.accountNo) == "" then NeedsReview("CRM_ACCOUNT_NO_MISSING")
    else if !p.found then
      if c.compensation in {"PENDING", "PROCESSING", "RETRY_WAIT"}
      then Some(Finding("PORTAL_LINK_MISSING_COMPENSATION_PENDING", AUTO_COMPENSATION))
      else if c.compensation == "DEAD_LETTER" then NeedsReview("PORTAL_LINK_MISSING_COMPENSATION_DEAD_LETTER")
      else NeedsReview("PORTAL_LINK_MISSING")
    else if p.user != c.user || p.customer != c.customer || p.contact != Some(c.contact)
            || p.account != c.account || p.accountNo != c.accountNo then NeedsReview("IDENTITY_MAPPING_MISMATCH")
    else if c.status != p.status then NeedsReview("IDENTITY_STATUS_MISMATCH")
    else if c.status !in {"PENDING", "ACTIVE", "DISABLED"} then NeedsReview("CRM_IDENTITY_STATUS_UNKNOWN")
    else None
  }

  datatype Binding = Binding(status: string, found: bool)

  function ClassifyPlatform(c: Candidate, b: Binding): Option<Finding> {
    if c.status == "ACTIVE" then
      if !b.found then NeedsReview("PLATFORM_BINDING_MISSING")
      else if b.status != "ACTIVE" then NeedsReview("PLATFORM_BINDING_STATUS_MISMATCH")
      else None
    else if c.status == "DISABLED" then
      if b.found && b.status == "ACTIVE" then NeedsReview("PLATFORM_BINDING_STATUS_MISMATCH") else None
    else if c.status == "PENDING" then None
    else NeedsReview("CRM_IDENTITY_STATUS_UNKNOWN")
  }

  // What the platform says when asked about a link; an absent link is a failed call.
  // None: no platform is configured.
  type Platform = Option<map<nat, Binding>>

  // What the portal says when asked about the page that ends with a link; absent is a failed call.
  type Portal = map<nat, seq<Snapshot>>

  /** The verdict on one link; None if the platform has to be asked and does not answer. */
  function Verdict(c: Candidate, p: Snapshot, platform: Platform): Option<Option<Finding>> {
    var portal := ClassifyPortal(c, p);
    if portal.Some? || platform.None? then Some(portal)
    else if c.link in platform.value then Some(ClassifyPlatform(c, platform.value[c.link])) else None
  }

  // ---------------------------------------------------------------- the findings table

  // The stored key is a digest of these three, taken as collision free.
  datatype Key = Key(tenant: string, link: nat, code: string)
  datatype Row = Row(mode: Mode, open: bool, count: nat, lastRun: string)
  type Findings = map<Key, Row>

  function Resolve(f: Findings, c: Candidate, except_: Option<Key>, run: string): Findings {
    map k | k in f :: if k.tenant == c.tenant && k.link == c.link && Some(k) != except_ && f[k].open
                      then f[k].(open := false, lastRun := run) else f[k]
  }

  function Upsert(f: Findings, k: Key, mode: Mode, run: string): Findings {
    f[k := Row(mode, true, if k in f then f[k].count + 1 else 1, run)]
  }

  function KeyOf(c: Candidate, finding: Finding): Key { Key(c.tenant, c.link, finding.code) }

  function Persist(f: Findings, run: string, c: Candidate, finding: Option<Finding>): Findings {
    match finding
    case None => Resolve(f, c, None, run)
    case Some(v) => Upsert(Resolve(f, c, Some(KeyOf(c, v)), run), KeyOf(c, v), v.mode, run)
  }

  datatype Observation = Observation(candidate: Candidate, snapshot: Snapshot, finding: Option<Finding>)

  function PersistAll(f: Findings, run: string, seen: seq<Observation>): Findings {
    if seen == [] then f
    else
      var o := seen[|seen| - 1];
      Persist(PersistAll(f, run, seen[..|seen| - 1]), run, o.candidate, o.finding)
  }

  datatype Metrics = Metrics(scanned: nat, consistent: nat, auto: nat, review: nat)

  function Count(m: Metrics, finding: Option<Finding>): Metrics {
    match finding
    case None => m.(scanned := m.scanned + 1, consistent := m.consistent + 1)
    case Some(v) =>
      if v.mode == AUTO_COMPENSATION then m.(scanned := m.scanned + 1, auto := m.auto + 1)
      else m.(scanned := m.scanned + 1, review := m.review + 1)
  }

  const NOTHING := Metrics(0, 0, 0, 0)

  function CountAll(m: Metrics, seen: seq<Observation>): Metrics {
    if seen == [] then m else Count(CountAll(m, seen[..|seen| - 1]), seen[|seen| - 1].finding)
  }

  predicate Balanced(m: Metrics) { m.scanned == m.consistent + m.auto + m.review }

  // ---------------------------------------------------------------- the run

  datatype Error = DuplicateRun | InvalidCandidate | PortalFailed | DuplicateSnapshot | MissingSnapshot
                 | PlatformFailed | PersistFailed
  datatype RunStatus = RUNNING | SUCCEEDED | FAILED
  datatype RunRow = RunRow(status: RunStatus, metrics: Metrics)

  predicate Ascending(links: seq<Candidate>) {
    && (forall i :: 0 <= i < |links| ==> links[i].link > 0)
    && (forall i, j :: 0 <= i < j < |links| ==> links[i].link < links[j].link)
  }

  /** The keyset query on the first n links, without its limit. */
  function After(links: seq<Candidate>, n: nat, cursor: nat): seq<Candidate>
    requires n <= |links|
  {
    if n == 0 then [] else After(links, n - 1, cursor) + if links[n - 1].link > cursor then [links[n - 1]] else []
  }

  lemma {:induction false} AfterIs(links: seq<Candidate>, n: nat, i: nat, cursor: nat)
    requires Ascending(links) && i <= n <= |links|
    requires (i > 0 ==> links[i - 1].link <= cursor) && (i < |links| ==> cursor < links[i].link)
    ensures After(links, n, cursor) == links[i..n]
  {
    if i < n {
      AfterIs(links, n - 1, i, cursor);
      assert cursor < links[n - 1].link;
    } else if i > 0 {
      NoneBefore(links, n, cursor);
    }
  }

  lemma {:induction false} NoneBefore(links: seq<Candidate>, n: nat, cursor: nat)
    requires Ascending(links) && 0 < n <= |links| && links[n - 1].link <= cursor
    ensures After(links, n, cursor) == []
  {
    if n > 1 { NoneBefore(links, n - 1, cursor); }
  }

  /** The snapshot is the portal's answer about this candidate. */
  ghost predicate Answered(o: Observation, portal: Portal) {
    && o.snapshot.user == o.candidate.user
    && exists last :: last in portal && o.snapshot in portal[last]
  }

  /** The observations are those of a prefix of the links, each once and in order, each with the
      portal's answer and the verdict that answer gives. */
  ghost predicate Observed(links: seq<Candidate>, seen: seq<Observation>,
                           portal: Portal, platform: Platform) {
    && |seen| <= |links|
    && forall i :: 0 <= i < |seen| ==>
      && seen[i].candidate == links[i] && Answered(seen[i], portal)
      && Verdict(links[i], seen[i].snapshot, platform) == Some(seen[i].finding)
  }

  /** The observations are those of the first candidates of a page, judged by the portal's answer. */
  predicate Judged(page: seq<Candidate>, known: map<string, Snapshot>, platform: Platform, more: seq<Observation>) {
    && |more| <= |page|
    && forall i :: 0 <= i < |more| ==>
      && more[i].candidate == page[i] && page[i].user in known && more[i].snapshot == known[page[i].user]
      && Verdict(page[i], more[i].snapshot, platform) == Some(more[i].finding)
  }

  lemma JudgedIsObserved(page: seq<Candidate>, more: seq<Observation>, known: map<string, Snapshot>,
                         snapshots: seq<Snapshot>, portal: Portal, platform: Platform)
    requires Judged(page, known, platform, more)
    requires forall u :: u in known ==> known[u] in snapshots && known[u].user == u
    requires exists last :: last in portal && portal[last] == snapshots
    ensures Observed(page, more, portal, platform)
  {
    hide Verdict;
    forall i | 0 <= i < |more| ensures Answered(more[i], portal) { assert more[i].snapshot in snapshots; }
  }

  lemma ObservedMore(links: seq<Candidate>, seen: seq<Observation>, page: seq<Candidate>, more: seq<Observation>,
                     portal: Portal, platform: Platform)
    requires Observed(links, seen, portal, platform) && Observed(page, more, portal, platform)
    requires |seen| + |page| <= |links| && page == links[|seen|..|seen| + |page|]
    ensures Observed(links, seen + more, portal, platform)
  {
    hide Verdict, Answered;
    var all := seen + more;
    forall i | 0 <= i < |all|
      ensures all[i].candidate == links[i] && Answered(all[i], portal)
      ensures Verdict(links[i], all[i].snapshot, platform) == Some(all[i].finding)
    {
      if i >= |seen| { assert all[i] == more[i - |seen|] && links[i] == page[i - |seen|]; }
    }
  }

  lemma Nothing(links: seq<Candidate>, f: Findings, run: string, portal: Portal, platform: Platform)
    ensures Observed(links, [], portal, platform) && CountAll(NOTHING, []) == NOTHING && PersistAll(f, run, []) == f
            && Balanced(NOTHING)
  {
  }

  predicate Advances(page: seq<Candidate>, after: nat, i: nat)
    requires i < |page|
  {
    (if i == 0 then after else page[i - 1].link) < page[i].link && Splitter.Trim(page[i].user) != ""
  }

  function CursorAt(links: seq<Candidate>, k: nat): nat
    requires k <= |links|
  {
    if k == 0 then 0 else links[k - 1].link
  }

  /** After k links have been seen, the keyset query returns the next ones. */
  lemma NextPage(links: seq<Candidate>, k: nat, batch: nat)
    requires Ascending(links) && k <= |links| && batch > 0
    ensures var rest := After(links, |links|, CursorAt(links, k));
            var page := rest[..Min(batch, |rest|)];
            && |page| == Min(batch, |links| - k) && page == links[k..k + |page|]
            && (|page| == 0 <==> k == |links|)
            && (|page| > 0 ==> page[|page| - 1].link == CursorAt(links, k + |page|))
  {
    AfterIs(links, |links|, k, CursorAt(links, k));
  }

  lemma OneMore(f: Findings, run: string, m: Metrics, page: seq<Candidate>, known: map<string, Snapshot>,
                platform: Platform, seen: seq<Observation>, o: Observation)
    requires Judged(page, known, platform, seen) && |seen| < |page|
    requires o.candidate == page[|seen|] && page[|seen|].user in known && o.snapshot == known[page[|seen|].user]
    requires Verdict(o.candidate, o.snapshot, platform) == Some(o.finding)
    ensures Judged(page, known, platform, seen + [o])
    ensures PersistAll(f, run, seen + [o]) == Persist(PersistAll(f, run, seen), run, o.candidate, o.finding)
    ensures CountAll(m, seen + [o]) == Count(CountAll(m, seen), o.finding)
  {
    hide Verdict;
    assert (seen + [o])[..|seen|] == seen;
  }

  /** The portal answered about the candidate, the platform where it has to, and the finding can be stored. */
  predicate Observable(c: Candidate, known: map<string, Snapshot>, platform: Platform, unwritable: set<nat>) {
    c.user in known && Verdict(c, known[c.user], platform).Some? && c.link !in unwritable
  }

  /** A page without errors: every candidate names a user; the portal answers, about each user once and about
      every candidate; the platform answers where it has to; every finding can be stored. */
  predicate PageFine(page: seq<Candidate>, portal: Portal, platform: Platform, unwritable: set<nat>) {
    && page != [] && (forall c :: c in page ==> Splitter.Trim(c.user) != "") && page[|page| - 1].link in portal
    && var answer := portal[page[|page| - 1].link];
       && (forall i, j :: 0 <= i < j < |answer| ==> answer[i].user != answer[j].user)
       && forall c :: c in page ==>
            && c.link !in unwritable
            && exists s :: s in answer && s.user == c.user && Verdict(c, s, platform).Some?
  }

  /** All pages from link k on are without errors. */
  predicate AllFine(links: seq<Candidate>, k: nat, batch: nat, portal: Portal, platform: Platform,
                    unwritable: set<nat>)
    requires k <= |links| && batch > 0
    decreases |links| - k
  {
    k == |links|
    || (PageFine(links[k..k + Min(batch, |links| - k)], portal, platform, unwritable)
        && AllFine(links, k + Min(batch, |links| - k), batch, portal, platform, unwritable))
  }

  lemma PageIsFine(page: seq<Candidate>, known: map<string, Snapshot>, portal: Portal, platform: Platform,
                   unwritable: set<nat>)
    requires page != [] && page[|page| - 1].link in portal
    requires var answer := portal[page[|page| - 1].link];
             && (forall i, j :: 0 <= i < j < |answer| ==> answer[i].user != answer[j].user)
             && (forall u :: u in known ==> known[u] in answer && known[u].user == u)
             && forall s :: s in answer ==> s.user in known
    ensures PageFine(page, portal, platform, unwritable) <==>
              && (forall c :: c in page ==> Splitter.Trim(c.user) != "")
              && forall i :: 0 <= i < |page| ==> Observable(page[i], known, platform, unwritable)
  {
    hide Verdict, Splitter.Trim;
    var answer := portal[page[|page| - 1].link];
    forall c: Candidate
      ensures c.user in known && Verdict(c, known[c.user], platform).Some?
          <==> exists s :: s in answer && s.user == c.user && Verdict(c, s, platform).Some?
    {
      if s :| s in answer && s.user == c.user && Verdict(c, s, platform).Some? {
        SameSnapshot(answer, s, known[c.user]);
      }
    }
    if forall i :: 0 <= i < |page| ==> Observable(page[i], known, platform, unwritable) {
      forall c | c in page ensures Observable(c, known, platform, unwritable) {
        var i :| 0 <= i < |page| && page[i] == c;
      }
    }
  }

  lemma FineStep(links: seq<Candidate>, k: nat, batch: nat, portal: Portal, platform: Platform,
                 unwritable: set<nat>)
    requires k <= |links| && batch > 0
    ensures var n := k + Min(batch, |links| - k);
            AllFine(links, k, batch, portal, platform, unwritable) <==>
              k == |links|
              || (PageFine(links[k..n], portal, platform, unwritable)
                  && AllFine(links, n, batch, portal, platform, unwritable))
  {
    hide PageFine;
  }

  // What rules a page out before anybody looks at its candidates.
  lemma NotFine(page: seq<Candidate>, portal: Portal, platform: Platform, unwritable: set<nat>)
    ensures PageFine(page, portal, platform, unwritable) ==>
              && page != [] && (forall c :: c in page ==> Splitter.Trim(c.user) != "")
              && page[|page| - 1].link in portal
              && var answer := portal[page[|page| - 1].link];
                 forall i, j :: 0 <= i < j < |answer| ==> answer[i].user != answer[j].user
  {
    hide Verdict, Splitter.Trim;
  }

  // The links of a page always move the cursor, so it is refused only for a user that is missing.
  lemma AdvanceIs(links: seq<Candidate>, k: nat, page: seq<Candidate>, after: nat)
    requires Ascending(links) && k + |page| <= |links| && page == links[k..k + |page|] && after == CursorAt(links, k)
    ensures (forall i :: 0 <= i < |page| ==> Advances(page, after, i))
        <==> forall c :: c in page ==> Splitter.Trim(c.user) != ""
  {
    hide Splitter.Trim;
    forall i | 0 <= i < |page| ensures Advances(page, after, i) <==> Splitter.Trim(page[i].user) != "" {
      assert page[i] == links[k + i];
      assert i > 0 ==> page[i - 1] == links[k + i - 1];
    }
    if forall i :: 0 <= i < |page| ==> Advances(page, after, i) {
      forall c | c in page ensures Splitter.Trim(c.user) != "" {
        var i :| 0 <= i < |page| && page[i] == c;
        assert Advances(page, after, i);
      }
    }
  }

  lemma SameSnapshot(answer: seq<Snapshot>, s: Snapshot, t: Snapshot)
    requires (forall i, j :: 0 <= i < j < |answer| ==> answer[i].user != answer[j].user)
    requires s in answer && t in answer && s.user == t.user
    ensures s == t
  {
    var i :| 0 <= i < |answer| && answer[i] == s;
    var j :| 0 <= j < |answer| && answer[j] == t;
  }

  class Reconciler {
    var links: seq<Candidate>
    var findings: Findings
    var runs: map<string, RunRow>

    method ListCandidates(after: nat, limit: nat) returns (page: seq<Candidate>)
      ensures var rest := After(links, |links|, after); page == rest[..Min(limit, |rest|)]
    {
      page := [];
      for i := 0 to |links|
        invariant var rest := After(links, i, after); page == rest[..Min(limit, |rest|)]
      {
        if links[i].link > after && |page| < limit { page := page + [links[i]]; }
      }
    }

    method PersistObservation(run: string, c: Candidate, finding: Option<Finding>)
      modifies this`findings
      ensures findings == Persist(old(findings), run, c, finding)
    {
      if finding.None? {
        findings := map k | k in findings :: if k.tenant == c.tenant && k.link == c.link && findings[k].open
                                             then findings[k].(open := false, lastRun := run) else findings[k];
        return;
      }
      var key := Key(c.tenant, c.link, finding.value.code);
      findings := map k | k in findings :: if k.tenant == c.tenant && k.link == c.link && k != key && findings[k].open
                                           then findings[k].(open := false, lastRun := run) else findings[k];
      if key in findings {
        var row := findings[key];
        findings := findings[key := Row(finding.value.mode, true, row.count + 1, run)];
      } else {
        findings := findings[key := Row(finding.value.mode, true, 1, run)];
      }
    }

    // The snapshots of one page by subject; every subject may occur once.
    method BySubject(snapshots: seq<Snapshot>) returns (r: Option<map<string, Snapshot>>)
      ensures r.None? <==> exists i, j :: 0 <= i < j < |snapshots| && snapshots[i].user == snapshots[j].user
      ensures r.Some? ==> forall u :: u in r.value ==> r.value[u] in snapshots && r.value[u].user == u
      ensures r.Some? ==> forall s :: s in snapshots ==> s.user in r.value
    {
      var m: map<string, Snapshot> := map[];
      for i := 0 to |snapshots|
        invariant forall j, k :: 0 <= j < k < i ==> snapshots[j].user != snapshots[k].user
        invariant forall u :: u in m ==> m[u] in snapshots && m[u].user == u
        invariant forall u :: u in m <==> exists j :: 0 <= j < i && snapshots[j].user == u
      {
        if snapshots[i].user in m { return None; }
        m := m[snapshots[i].user := snapshots[i]];
      }
      return Some(m);
    }

    // One page: the observations made before the first error, if any.
    method ObservePage(run: string, page: seq<Candidate>, known: map<string, Snapshot>, platform: Platform,
                       unwritable: set<nat>, metrics: Metrics)
      returns (m: Metrics, err: Option<Error>, ghost seen: seq<Observation>)
      modifies this`findings
      ensures findings == PersistAll(old(findings), run, seen)
      ensures Judged(page, known, platform, seen) && (err.None? ==> |seen| == |page|)
      ensures err.None? <==> forall i :: 0 <= i < |page| ==> Observable(page[i], known, platform, unwritable)
      ensures err != Some(DuplicateRun)
      ensures err != Some(PersistFailed) ==> m == CountAll(metrics, seen)
      ensures Balanced(metrics) ==> Balanced(m)
    {
      hide ClassifyPortal, ClassifyPlatform, Persist;
      m, err, seen := metrics, None, [];
      for i := 0 to |page|
        invariant err.None? && |seen| == i && findings == PersistAll(old(findings), run, seen)
        invariant Judged(page, known, platform, seen)
        invariant m == CountAll(metrics, seen) && (Balanced(metrics) ==> Balanced(m))
        invariant forall j :: 0 <= j < i ==> Observable(page[j], known, platform, unwritable)
      {
        var c := page[i];
        ghost var fine := Observable(c, known, platform, unwritable);
        if c.user !in known { return m, Some(MissingSnapshot), seen; }
        var finding := ClassifyPortal(c, known[c.user]);
        if finding.None? && platform.Some? {
          if c.link !in platform.value { return m, Some(PlatformFailed), seen; }
          finding := ClassifyPlatform(c, platform.value[c.link]);
        }
        m := Count(m, finding);
        if c.link in unwritable { return m, Some(PersistFailed), seen; }
        PersistObservation(run, c, finding);
        ghost var o := Observation(c, known[c.user], finding);
        OneMore(old(findings), run, metrics, page, known, platform, seen, o);
        seen := seen + [o];
      }
    }

    /** One reconciliation run over a fixed link table. */
    method RunOnce(run: string, batch: nat, portal: Portal, platform: Platform,
                   unwritable: set<nat>)
      returns (metrics: Metrics, err: Option<Error>, ghost seen: seq<Observation>)
      requires Ascending(links) && batch > 0
      modifies this`findings, this`runs
      ensures findings == PersistAll(old(findings), run, seen)
      ensures Observed(links, seen, portal, platform)
      ensures err.None? ==> |seen| == |links|
      ensures err.None? <==> run !in old(runs) && AllFine(links, 0, batch, portal, platform, unwritable)
      ensures err != Some(PersistFailed) ==> metrics == CountAll(NOTHING, seen)
      ensures Balanced(metrics)
      ensures err == Some(DuplicateRun) <==> run in old(runs)
      ensures err == Some(DuplicateRun) ==> runs == old(runs) && seen == []
      ensures err != Some(DuplicateRun) ==>
                runs == old(runs)[run := RunRow(if err.None? then SUCCEEDED else FAILED, metrics)]
    {
      hide *;
      Nothing(links, findings, run, portal, platform);
      metrics, err, seen := NOTHING, None, [];
      if run in runs { return metrics, Some(DuplicateRun), seen; }
      runs := runs[run := RunRow(RUNNING, metrics)];
      metrics, err, seen := Pages(run, batch, portal, platform, unwritable);
      runs := runs[run := RunRow(if err.None? then SUCCEEDED else FAILED, metrics)];
    }

    // The cursor behind a page, unless a candidate is malformed.
    method Advance(page: seq<Candidate>, after: nat) returns (ok: bool, cursor: nat)
      ensures ok ==> cursor == if page == [] then after else page[|page| - 1].link
      ensures ok <==> forall i :: 0 <= i < |page| ==> Advances(page, after, i)
    {
      cursor := after;
      for i := 0 to |page|
        invariant cursor == if i == 0 then after else page[i - 1].link
        invariant forall j :: 0 <= j < i ==> Advances(page, after, j)
      {
        if page[i].link <= cursor || Splitter.Trim(page[i].user) == "" {
          assert !Advances(page, after, i);
          return false, cursor;
        }
        cursor := page[i].link;
      }
      return true, cursor;
    }

    // One page: the portal's answer, and the observations made before the first error, if any.
    method ReadPage(run: string, page: seq<Candidate>, after: nat, portal: Portal, platform: Platform,
                    unwritable: set<nat>, metrics: Metrics)
      returns (m: Metrics, err: Option<Error>, cursor: nat, ghost more: seq<Observation>)
      requires page != []
      requires (forall i :: 0 <= i < |page| ==> Advances(page, after, i))
          <==> forall c :: c in page ==> Splitter.Trim(c.user) != ""
      modifies this`findings
      ensures findings == PersistAll(old(findings), run, more)
      ensures Observed(page, more, portal, platform) && (err.None? ==> |more| == |page|)
      ensures err.None? <==> PageFine(page, portal, platform, unwritable)
      ensures err.None? ==> cursor == page[|page| - 1].link
      ensures err != Some(DuplicateRun)
      ensures err != Some(PersistFailed) ==> m == CountAll(metrics, more)
      ensures Balanced(metrics) ==> Balanced(m)
    {
      hide Verdict, CountAll, Observed, Judged, Balanced, PageFine, Observable, Advances, PersistAll, Splitter.Trim;
      m, err, more := metrics, None, [];
      Nothing(page, findings, run, portal, platform);
      CountNothing(metrics);
      NotFine(page, portal, platform, unwritable);
      var ok;
      ok, cursor := Advance(page, after);
      if !ok { return m, Some(InvalidCandidate), cursor, more; }
      if cursor !in portal { return m, Some(PortalFailed), cursor, more; }
      var known := BySubject(portal[cursor]);
      if known.None? { return m, Some(DuplicateSnapshot), cursor, more; }
      PageIsFine(page, known.value, portal, platform, unwritable);
      m, err, more := ObservePage(run, page, known.value, platform, unwritable, metrics);
      JudgedIsObserved(page, more, known.value, portal[cursor], portal, platform);
      JudgedShort(page, known.value, platform, more);
    }

    // The page behind the first k links, and what is known of it.
    method PageAfter(ghost k: nat, cursor: nat, batch: nat) returns (page: seq<Candidate>)
      requires Ascending(links) && k <= |links| && batch > 0 && cursor == CursorAt(links, k)
      ensures |page| == (if batch < |links| - k then batch else |links| - k) && page == links[k..k + |page|]
      ensures page != [] ==> page[|page| - 1].link == CursorAt(links, k + |page|)
      ensures (forall i :: 0 <= i < |page| ==> Advances(page, cursor, i))
          <==> forall c :: c in page ==> Splitter.Trim(c.user) != ""
    {
      hide Splitter.Trim, Advances, Ascending;
      page := ListCandidates(cursor, batch);
      NextPage(links, k, batch);
      AdvanceIs(links, k, page, cursor);
    }

    // The loop over pages, between the start and the finish of the run row.
    method Pages(run: string, batch: nat, portal: Portal, platform: Platform,
                 unwritable: set<nat>)
      returns (metrics: Metrics, err: Option<Error>, ghost seen: seq<Observation>)
      requires Ascending(links) && batch > 0
      modifies this`findings
      ensures findings == PersistAll(old(findings), run, seen)
      ensures Observed(links, seen, portal, platform)
      ensures err.None? ==> |seen| == |links|
      ensures err.None? <==> AllFine(links, 0, batch, portal, platform, unwritable)
      ensures err != Some(PersistFailed) ==> metrics == CountAll(NOTHING, seen)
      ensures Balanced(metrics)
      ensures err != Some(DuplicateRun)
    {
      hide *;
      Nothing(links, findings, run, portal, platform);
      metrics, err, seen := NOTHING, None, [];
      ghost var start := findings;
      StartOf(links, start, run, portal, platform);
      var cursor: nat := 0;
      while true
        invariant err.None? && Recorded(links, start, findings, run, seen, portal, platform)
        invariant |seen| <= |links| && cursor == CursorAt(links, |seen|)
        invariant metrics == CountAll(NOTHING, seen) && Balanced(metrics)
        invariant AllFine(links, 0, batch, portal, platform, unwritable)
              <==> AllFine(links, |seen|, batch, portal, platform, unwritable)
        decreases |links| - |seen|
      {
        var page := PageAfter(|seen|, cursor, batch);
        MinIs(batch, |links| - |seen|);
        FineStep(links, |seen|, batch, portal, platform, unwritable);
        if |page| == 0 {
          RecordedIs(links, start, findings, run, seen, portal, platform);
          return;
        }
        ghost var more;
        ghost var past, before := seen, findings;
        metrics, err, cursor, more := ReadPage(run, page, cursor, portal, platform, unwritable, metrics);
        CountConcat(NOTHING, past, more);
        RecordedMore(links, start, before, findings, run, past, page, more, portal, platform);
        seen := seen + more;
        RecordedIs(links, start, findings, run, seen, portal, platform);
        if err.Some? { return; }
        FineStep(links, |seen|, batch, portal, platform, unwritable);
        if |page| < batch { return; }
      }
    }
  }

  /** The findings are those of `f` after the observations, which are of a prefix of the links. */
  ghost predicate Recorded(links: seq<Candidate>, f: Findings, g: Findings, run: string, seen: seq<Observation>,
                           portal: Portal, platform: Platform) {
    Observed(links, seen, portal, platform) && g == PersistAll(f, run, seen)
  }

  lemma RecordedIs(links: seq<Candidate>, f: Findings, g: Findings, run: string, seen: seq<Observation>,
                   portal: Portal, platform: Platform)
    requires Recorded(links, f, g, run, seen, portal, platform)
    ensures Observed(links, seen, portal, platform) && g == PersistAll(f, run, seen) && |seen| <= |links|
  {
    hide PersistAll;
  }

  lemma StartOf(links: seq<Candidate>, f: Findings, run: string, portal: Portal, platform: Platform)
    ensures Recorded(links, f, f, run, [], portal, platform) && CursorAt(links, 0) == 0
  {
  }

  lemma MinIs(a: nat, b: nat)
    ensures Min(a, b) == if a < b then a else b
  {
  }

  lemma RecordedMore(links: seq<Candidate>, f: Findings, g: Findings, h: Findings, run: string,
                     seen: seq<Observation>, page: seq<Candidate>, more: seq<Observation>, portal: Portal,
                     platform: Platform)
    requires Recorded(links, f, g, run, seen, portal, platform) && h == PersistAll(g, run, more)
    requires Observed(page, more, portal, platform)
    requires |seen| + |page| <= |links| && page == links[|seen|..|seen| + |page|]
    ensures Recorded(links, f, h, run, seen + more, portal, platform)
  {
    hide Observed, PersistAll;
    PersistConcat(f, run, seen, more);
    ObservedMore(links, seen, page, more, portal, platform);
  }

  lemma JudgedShort(page: seq<Candidate>, known: map<string, Snapshot>, platform: Platform, more: seq<Observation>)
    requires Judged(page, known, platform, more)
    ensures |more| <= |page|
  {
  }

  lemma CountNothing(m: Metrics)
    ensures CountAll(m, []) == m
  {
  }

  function Min(a: nat, b: nat): nat { if a < b then a else b }

  lemma {:induction false} PersistConcat(f: Findings, run: string, a: seq<Observation>, b: seq<Observation>)
    ensures PersistAll(f, run, a + b) == PersistAll(PersistAll(f, run, a), run, b)
  {
    if b == [] {
      assert a + b == a;
    } else {
      var ab := a + b;
      assert ab[..|ab| - 1] == a + b[..|b| - 1];
      PersistConcat(f, run, a, b[..|b| - 1]);
    }
  }

  lemma {:induction false} CountConcat(m: Metrics, a: seq<Observation>, b: seq<Observation>)
    ensures CountAll(m, a + b) == CountAll(CountAll(m, a), b)
  {
    if b == [] {
      assert a + b == a;
    } else {
      var ab := a + b;
      assert ab[..|ab| - 1] == a + b[..|b| - 1];
      CountConcat(m, a, b[..|b| - 1]);
    }
  }

  // ---------------------------------------------------------------- what a run leaves

  /** The open findings of one link. */
  function OpenOf(f: Findings, tenant: string, link: nat): set<Key> {
    set k | k in f && k.tenant == tenant && k.link == link && f[k].open
  }

  function Expected(o: Observation): set<Key> {
    if o.finding.None? then {} else {KeyOf(o.candidate, o.finding.value)}
  }

  lemma PersistOpens(f: Findings, run: string, c: Candidate, finding: Option<Finding>)
    ensures OpenOf(Persist(f, run, c, finding), c.tenant, c.link)
            == if finding.None? then {} else {KeyOf(c, finding.value)}
    ensures forall k: Key :: !(k.tenant == c.tenant && k.link == c.link) ==>
              (k in Persist(f, run, c, finding) <==> k in f) && (k in f ==> Persist(f, run, c, finding)[k] == f[k])
  {
  }

  /** Observing other links leaves a link's findings alone. */
  lemma {:induction false} OtherLinksUntouched(f: Findings, run: string, seen: seq<Observation>, k: Key)
    requires forall i :: 0 <= i < |seen| ==> seen[i].candidate.link != k.link
    ensures k in PersistAll(f, run, seen) <==> k in f
    ensures k in f ==> PersistAll(f, run, seen)[k] == f[k]
  {
    hide Persist;
    if seen != [] {
      var n := |seen| - 1;
      OtherLinksUntouched(f, run, seen[..n], k);
      PersistOpens(PersistAll(f, run, seen[..n]), run, seen[n].candidate, seen[n].finding);
    }
  }

  /** After observing links with distinct ids, each observed link has exactly the open findings of
      its verdict - one or none - whatever was open before. */
  lemma {:induction false} OpenFindingsAreVerdicts(f: Findings, run: string, seen: seq<Observation>, i: nat)
    requires forall j, k :: 0 <= j < k < |seen| ==> seen[j].candidate.link != seen[k].candidate.link
    requires i < |seen|
    ensures OpenOf(PersistAll(f, run, seen), seen[i].candidate.tenant, seen[i].candidate.link) == Expected(seen[i])
  {
    hide Persist;
    var n := |seen| - 1;
    var g := PersistAll(f, run, seen[..n]);
    PersistOpens(g, run, seen[n].candidate, seen[n].finding);
    if i < n {
      OpenFindingsAreVerdicts(f, run, seen[..n], i);
      var c := seen[i].candidate;
      assert c.link != seen[n].candidate.link;
      assert OpenOf(PersistAll(f, run, seen), c.tenant, c.link) == OpenOf(g, c.tenant, c.link);
    }
  }

  /** A run without error, over any link table and any findings: every link ends with exactly the
      open findings of the verdict on the portal's and the platform's answers about it. */
  lemma SuccessfulRun(links: seq<Candidate>, f: Findings, run: string, seen: seq<Observation>, portal: Portal,
                      platform: Platform, i: nat)
    requires Ascending(links) && Observed(links, seen, portal, platform) && |seen| == |links| && i < |links|
    ensures Answered(seen[i], portal)
    ensures var verdict := Verdict(links[i], seen[i].snapshot, platform);
            && verdict.Some?
            && OpenOf(PersistAll(f, run, seen), links[i].tenant, links[i].link)
               == if verdict.value.None? then {} else {KeyOf(links[i], verdict.value.value)}
  {
    hide Verdict, PersistAll, OpenOf;
    forall j, k | 0 <= j < k < |seen| ensures seen[j].candidate.link != seen[k].candidate.link {
      assert links[j].link < links[k].link;
    }
    OpenFindingsAreVerdicts(f, run, seen, i);
  }

  function Occurrences(seen: seq<Observation>, k: Key): nat {
    if seen == [] then 0
    else Occurrences(seen[..|seen| - 1], k) + if k in Expected(seen[|seen| - 1]) then 1 else 0
  }

  /** occurrence_count is conserved: over any observations, in one run or many, a finding's count
      grows by exactly the number of observations that reported it. */
  lemma {:induction false} OccurrencesCount(f: Findings, run: string, seen: seq<Observation>, k: Key)
    ensures k in PersistAll(f, run, seen) <==> k in f || Occurrences(seen, k) > 0
    ensures k in PersistAll(f, run, seen) ==>
              PersistAll(f, run, seen)[k].count == (if k in f then f[k].count else 0) + Occurrences(seen, k)
  {
    if seen != [] { OccurrencesCount(f, run, seen[..|seen| - 1], k); }
  }

  /** The observations with a finding of this mode, by their numbers. */
  function Found(seen: seq<Observation>, mode: Mode): set<nat> {
    set i: nat | i < |seen| && seen[i].finding.Some? && seen[i].finding.value.mode == mode
  }

  function Clean(seen: seq<Observation>): set<nat> { set i: nat | i < |seen| && seen[i].finding.None? }

  /** The counters say what was scanned, found clean, left to compensation and put up for review. */
  predicate Counts(m: Metrics, seen: seq<Observation>) {
    && m.scanned == |seen| && Balanced(m) && m.consistent == |Clean(seen)|
    && m.auto == |Found(seen, AUTO_COMPENSATION)| && m.review == |Found(seen, NEEDS_REVIEW)|
  }

  lemma {:induction false} MetricsBalance(seen: seq<Observation>)
    ensures Counts(CountAll(NOTHING, seen), seen)
  {
    hide Counts, Count;
    if seen == [] {
      NothingFound();
    } else {
      var front := seen[..|seen| - 1];
      MetricsBalance(front);
      assert seen == front + [seen[|seen| - 1]];
      CountsMore(CountAll(NOTHING, front), front, seen[|seen| - 1]);
    }
  }

  lemma CountsMore(m: Metrics, front: seq<Observation>, o: Observation)
    requires Counts(m, front)
    ensures Counts(Count(m, o.finding), front + [o])
  {
    hide Clean, Found;
    CleanSnoc(front, o);
    FoundSnoc(front, o, AUTO_COMPENSATION);
    FoundSnoc(front, o, NEEDS_REVIEW);
  }

  lemma NothingFound()
    ensures Counts(NOTHING, [])
  {
    assert Clean([]) == {} && Found([], AUTO_COMPENSATION) == {} && Found([], NEEDS_REVIEW) == {};
  }

  lemma CleanSnoc(front: seq<Observation>, o: Observation)
    ensures |Clean(front + [o])| == |Clean(front)| + if o.finding.None? then 1 else 0
  {
    assert Clean(front + [o]) == Clean(front) + if o.finding.None? then {|front|} else {};
  }

  lemma FoundSnoc(front: seq<Observation>, o: Observation, mode: Mode)
    ensures |Found(front + [o], mode)| == |Found(front, mode)|
                                          + if o.finding.Some? && o.finding.value.mode == mode then 1 else 0
  {
    assert Found(front + [o], mode)
        == Found(front, mode) + if o.finding.Some? && o.finding.value.mode == mode then {|front|} else {};
  }

  /** Only this run's mark is on the rows a run changed; a finding that was not reported keeps its mode and
      count and is at most closed; one that was is open, with the mode it was last reported with. */
  lemma {:induction false} RunMarksChanges(f: Findings, run: string, seen: seq<Observation>, k: Key)
    requires k in PersistAll(f, run, seen)
    ensures var row := PersistAll(f, run, seen)[k];
            && (k !in f || row != f[k] ==> row.lastRun == run)
            && (Occurrences(seen, k) == 0 ==>
                  && k in f && row.mode == f[k].mode && row.count == f[k].count
                  && (row.open ==> f[k].open))
            && (seen != [] && k in Expected(seen[|seen| - 1]) ==>
                  row == Row(seen[|seen| - 1].finding.value.mode, true,
                             (if k in f then f[k].count else 0) + Occurrences(seen, k), run))
  {
    if seen != [] {
      var n := |seen| - 1;
      OccurrencesCount(f, run, seen[..n], k);
      if k in PersistAll(f, run, seen[..n]) { RunMarksChanges(f, run, seen[..n], k); }
    }
  }

  // A binding that matches the CRM status; a pending identity may have any.
  predicate Agrees(status: string, b: Binding) {
    && (status == "ACTIVE" ==> b.found && b.status == "ACTIVE")
    && (status == "DISABLED" ==> !(b.found && b.status == "ACTIVE"))
  }

  /** No finding at all means the CRM, the portal and - if there is one - the platform agree. */
  lemma NoFindingMeansAgreement(c: Candidate, p: Snapshot, platform: Platform)
    ensures Verdict(c, p, platform) == Some(None) <==>
            && c.customerExists && c.customerStatus == "ACTIVE" && !c.customerMerged && c.contactValid
            && Splitter.Trim(c.accountNo) != "" && p.found
            && p.user == c.user && p.customer == c.customer && p.contact == Some(c.contact)
            && p.account == c.account && p.accountNo == c.accountNo && p.status == c.status
            && c.status in {"PENDING", "ACTIVE", "DISABLED"}
            && (platform.Some? ==> c.link in platform.value && Agrees(c.status, platform.value[c.link]))
  {
    hide Splitter.Trim;
  }

  /** The reconciler reports a repair in progress only when the compensation worker owns it. */
  lemma AutoOnlyWithLiveTask(c: Candidate, p: Snapshot, platform: Platform)
    ensures Verdict(c, p, platform).Some? && Verdict(c, p, platform).value.Some?
              && Verdict(c, p, platform).value.value.mode == AUTO_COMPENSATION
            <==> (c.customerExists && c.customerStatus == "ACTIVE" && !c.customerMerged && c.contactValid
                  && Splitter.Trim(c.accountNo) != "" && !p.found
                     && c.compensation in {"PENDING", "PROCESSING", "RETRY_WAIT"})
  {
    hide Splitter.Trim;
  }

  predicate CustomerInactive(c: Candidate) { !c.customerExists || c.customerStatus != "ACTIVE" || c.customerMerged }

  predicate CrmSound(c: Candidate) { !CustomerInactive(c) && c.contactValid && Splitter.Trim(c.accountNo) != "" }

  predicate SameIdentity(c: Candidate, p: Snapshot) {
    && p.user == c.user && p.customer == c.customer && p.contact == Some(c.contact) && p.account == c.account
    && p.accountNo == c.accountNo
  }

  /** The CRM and the portal agree about an identity that both know. */
  predicate PortalSound(c: Candidate, p: Snapshot) {
    CrmSound(c) && p.found && SameIdentity(c, p) && p.status == c.status
  }

  /** What the code of a finding says, for every link: it names the first thing that is wrong, looking at
      the customer, the contact and the account number ... */
  lemma CrmCodeMeans(c: Candidate, p: Snapshot, platform: Platform)
    requires Verdict(c, p, platform).Some? && Verdict(c, p, platform).value.Some?
    ensures var code := Verdict(c, p, platform).value.value.code;
            && (code == "CRM_CUSTOMER_INACTIVE" <==> CustomerInactive(c))
            && (code == "CRM_CONTACT_INVALID" <==> !CustomerInactive(c) && !c.contactValid)
            && (code == "CRM_ACCOUNT_NO_MISSING" <==>
                  !CustomerInactive(c) && c.contactValid && Splitter.Trim(c.accountNo) == "")
  {
    hide Splitter.Trim;
  }

  /** ... then whether the portal has the link, and who is to bring it there ... */
  lemma MissingCodeMeans(c: Candidate, p: Snapshot, platform: Platform)
    requires Verdict(c, p, platform).Some? && Verdict(c, p, platform).value.Some?
    ensures var code, task := Verdict(c, p, platform).value.value.code, c.compensation;
            && (code == "PORTAL_LINK_MISSING_COMPENSATION_PENDING" <==>
                  CrmSound(c) && !p.found && (task == "PENDING" || task == "PROCESSING" || task == "RETRY_WAIT"))
            && (code == "PORTAL_LINK_MISSING_COMPENSATION_DEAD_LETTER" <==>
                  CrmSound(c) && !p.found && task == "DEAD_LETTER")
  {
    hide Splitter.Trim;
  }

  lemma NobodyBringsIt(c: Candidate, p: Snapshot, platform: Platform)
    requires Verdict(c, p, platform).Some? && Verdict(c, p, platform).value.Some?
    ensures Verdict(c, p, platform).value.value.code == "PORTAL_LINK_MISSING" <==>
              CrmSound(c) && !p.found && c.compensation != "PENDING" && c.compensation != "PROCESSING"
              && c.compensation != "RETRY_WAIT" && c.compensation != "DEAD_LETTER"
  {
    hide Splitter.Trim;
  }

  /** ... and then whether it is the same link there, in the same status, and one that is known. */
  lemma PortalCodeMeans(c: Candidate, p: Snapshot, platform: Platform)
    requires Verdict(c, p, platform).Some? && Verdict(c, p, platform).value.Some?
    ensures var code := Verdict(c, p, platform).value.value.code;
            && (code == "IDENTITY_MAPPING_MISMATCH" <==> CrmSound(c) && p.found && !SameIdentity(c, p))
            && (code == "IDENTITY_STATUS_MISMATCH" <==>
                  CrmSound(c) && p.found && SameIdentity(c, p) && p.status != c.status)
            && (code == "CRM_IDENTITY_STATUS_UNKNOWN" <==>
                  PortalSound(c, p) && c.status != "PENDING" && c.status != "ACTIVE" && c.status != "DISABLED")
  {
    hide Splitter.Trim;
  }

  /** And of the platform's binding, for a link that the CRM and the portal agree about. */
  lemma BindingMeans(c: Candidate, p: Snapshot, platform: Platform)
    requires PortalSound(c, p) && platform.Some? && c.link in platform.value
    ensures Verdict(c, p, platform).Some?
    ensures var v, b := Verdict(c, p, platform).value, platform.value[c.link];
            && (v == Some(Finding("PLATFORM_BINDING_MISSING", NEEDS_REVIEW)) <==> c.status == "ACTIVE" && !b.found)
            && (v == Some(Finding("PLATFORM_BINDING_STATUS_MISMATCH", NEEDS_REVIEW)) <==>
                  || (c.status == "ACTIVE" && b.found && b.status != "ACTIVE")
                  || (c.status == "DISABLED" && b.found && b.status == "ACTIVE"))
  {
    hide Splitter.Trim;
  }
}
