/** The compensation chain over every interleaving of workers, lease takeovers and crashes. */
module CompensationLaws {
  import opened Wrappers
  import opened Compensation
  import Splitter

  // ---------------------------------------------------------------- the invariant

  /** A task's number is its operation's number and the suffix of its step, and it carries that
      operation's identity. */
  predicate Named(ops: map<Key, Identity>, k: Key, t: Task) {
    && k.1 != "" && k.1[|k.1| - 1] == Suffix(t.kind)
    && var op := (k.0, k.1[..|k.1| - 1]); op in ops && ops[op] == t.who
  }

  predicate Counted(t: Task) {
    && t.version >= 1
    && (t.status == PENDING ==> t.attempts == 0)
    && (t.status == RETRY_WAIT ==> 1 <= t.attempts <= 6)
    && (t.status == PROCESSING || t.status == SUCCEEDED ==> t.attempts <= 6)
    && (t.status == DEAD_LETTER ==> t.attempts == 7)
  }

  /** A finished role task has its mapping task; a finished mapping task has its link. */
  predicate Chained(db: Db, k: Key, t: Task) {
    && (t.kind == ROLE && t.status == SUCCEEDED ==>
          ChildKey(k) in db.tasks && db.tasks[ChildKey(k)].kind == MAPPING && db.tasks[ChildKey(k)].who == t.who)
    && (t.kind == MAPPING && t.status == SUCCEEDED ==> Linked(db, k, t.who))
  }

  predicate Linked(db: Db, k: Key, who: Identity) {
    && var l := (k.0, who.customer, who.contact);
       l in db.links && db.links[l].user == who.user && db.links[l].portalAccount != ""
  }

  predicate DbOk(db: Db, ops: map<Key, Identity>) {
    forall k :: k in db.tasks ==> Named(ops, k, db.tasks[k]) && Counted(db.tasks[k]) && Chained(db, k, db.tasks[k])
  }

  /** A copy agrees with its row for as long as the row stays at the copy's version. */
  predicate Genuine(db: Db, k: Key, c: Task) {
    && k in db.tasks && c.kind == db.tasks[k].kind && c.who == db.tasks[k].who
    && c.version <= db.tasks[k].version
    && (c.version == db.tasks[k].version ==> c.attempts == db.tasks[k].attempts)
  }

  predicate Inv(w: World) {
    && DbOk(w.db, w.ops)
    && forall a :: a in w.held ==> Genuine(w.db, a.1, w.held[a])
  }

  // ---------------------------------------------------------------- rows only move forward

  /** Between two states: every task is still there with its kind and identity, unchanged or at a
      later version, and links keep their user and never lose their account. */
  predicate Forward(db: Db, db': Db) {
    && (forall k :: k in db.tasks ==>
          && k in db'.tasks && db'.tasks[k].kind == db.tasks[k].kind && db'.tasks[k].who == db.tasks[k].who
          && (db'.tasks[k] == db.tasks[k] || db'.tasks[k].version > db.tasks[k].version))
    && (forall l :: l in db.links ==>
          && l in db'.links && db'.links[l].user == db.links[l].user
          && (db.links[l].portalAccount != "" ==> db'.links[l].portalAccount == db.links[l].portalAccount))
  }

  lemma ForwardKeepsMemory(db: Db, db': Db, k: Key, c: Task)
    requires Forward(db, db') && Genuine(db, k, c)
    ensures Genuine(db', k, c)
  {
  }

  lemma ForwardKeepsChain(db: Db, db': Db, k: Key, t: Task)
    requires Forward(db, db') && Chained(db, k, t)
    ensures Chained(db', k, t)
  {
    hide ChildNo;
  }

  // ---------------------------------------------------------------- one settlement

  lemma ReleaseKeeps(db: Db, ops: map<Key, Identity>, key: Key, status: Status, attempts: nat, next: Option<Time>)
    requires DbOk(db, ops) && key in db.tasks
    requires var t := Released(db.tasks[key], status, attempts, next); Counted(t) && Chained(db, key, t)
    ensures var db' := db.(tasks := db.tasks[key := Released(db.tasks[key], status, attempts, next)]);
            DbOk(db', ops) && Forward(db, db')
  {
    hide ChildNo, Counted, Named, Chained;
    var t := Released(db.tasks[key], status, attempts, next);
    var db' := db.(tasks := db.tasks[key := t]);
    NamedSame(ops, key, db.tasks[key], t);
    forall k | k in db'.tasks ensures Chained(db', k, db'.tasks[k]) {
      ForwardKeepsChain(db, db', k, db'.tasks[k]);
    }
  }

  lemma NamedSame(ops: map<Key, Identity>, k: Key, t: Task, u: Task)
    requires Named(ops, k, t) && u.kind == t.kind && u.who == t.who
    ensures Named(ops, k, u)
  {
  }

  predicate Keeps(db: Db, ops: map<Key, Identity>, db': Db) { DbOk(db', ops) && Forward(db, db') }

  lemma FailedKeeps(db: Db, ops: map<Key, Identity>, worker: string, c: Copy, now: Time)
    requires DbOk(db, ops) && Genuine(db, c.key, c.task)
    ensures Keeps(db, ops, FailedSpec(db, worker, c, now).0)
  {
    hide Named, Forward;
    ForwardSame(db);
    if Fenced(db, worker, c) {
      var (status, next) := FailurePlan(now, c.task.attempts + 1);
      ReleaseKeeps(db, ops, c.key, status, c.task.attempts + 1, next);
    }
  }

  lemma ForwardSame(db: Db)
    ensures Forward(db, db)
  {
  }

  lemma ForwardTrans(a: Db, b: Db, c: Db)
    requires Forward(a, b) && Forward(b, c)
    ensures Forward(a, c)
  {
  }

  lemma CompleteKeeps(db: Db, ops: map<Key, Identity>, worker: string, c: Copy)
    requires DbOk(db, ops)
    requires Fenced(db, worker, c) ==> Chained(db, c.key, db.tasks[c.key].(status := SUCCEEDED))
    ensures Keeps(db, ops, CompleteSpec(db, worker, c).0)
  {
    hide Named, Forward, ChildNo;
    ForwardSame(db);
    if Fenced(db, worker, c) {
      ReleaseKeeps(db, ops, c.key, SUCCEEDED, db.tasks[c.key].attempts, None);
    }
  }

  /** The naming discipline: a role task's child number belongs to its own operation, so a row found
      there is the mapping task of the same identity. */
  lemma ChildIsOwn(db: Db, ops: map<Key, Identity>, k: Key)
    requires DbOk(db, ops) && k in db.tasks && db.tasks[k].kind == ROLE
    ensures Named(ops, ChildKey(k), NewTask(MAPPING, db.tasks[k].who))
    ensures ChildKey(k) in db.tasks ==>
              db.tasks[ChildKey(k)].kind == MAPPING && db.tasks[ChildKey(k)].who == db.tasks[k].who
  {
    assert Named(ops, k, db.tasks[k]);
    var no := ChildKey(k).1;
    assert no[..|no| - 1] == k.1[..|k.1| - 1];
    if ChildKey(k) in db.tasks { assert Named(ops, ChildKey(k), db.tasks[ChildKey(k)]); }
  }

  lemma WithChildKeeps(db: Db, ops: map<Key, Identity>, c: Copy)
    requires DbOk(db, ops) && Genuine(db, c.key, c.task) && c.task.kind == ROLE
    ensures Keeps(db, ops, WithChild(db, c))
    ensures ChildKey(c.key) in WithChild(db, c).tasks
    ensures WithChild(db, c).tasks[ChildKey(c.key)].kind == MAPPING
            && WithChild(db, c).tasks[ChildKey(c.key)].who == c.task.who
  {
    hide Named, ChildNo;
    ChildIsOwn(db, ops, c.key);
    var db' := WithChild(db, c);
    forall k | k in db'.tasks ensures Chained(db', k, db'.tasks[k]) {
      if k in db.tasks { ForwardKeepsChain(db, db', k, db'.tasks[k]); }
    }
  }

  lemma CompleteRoleKeeps(db: Db, ops: map<Key, Identity>, worker: string, c: Copy)
    requires DbOk(db, ops) && Genuine(db, c.key, c.task) && c.task.kind == ROLE
    ensures Keeps(db, ops, CompleteRoleSpec(db, worker, c).0)
  {
    hide DbOk, Forward, ChildNo, CompleteSpec;
    ForwardSame(db);
    WithChildKeeps(db, ops, c);
    var mid := WithChild(db, c);
    assert Genuine(mid, c.key, c.task) by { ForwardKeepsMemory(db, mid, c.key, c.task); }
    CompleteKeeps(mid, ops, worker, c);
    ForwardTrans(db, mid, CompleteSpec(mid, worker, c).0);
  }

  lemma LinkForward(db: Db, ops: map<Key, Identity>, c: Copy, link: Link, portalAccount: string)
    requires DbOk(db, ops) && LinkAfter(db, c, portalAccount) == Some(link)
    ensures Keeps(db, ops, db.(links := db.links[LinkOf(c) := link]))
    ensures Linked(db.(links := db.links[LinkOf(c) := link]), c.key, c.task.who)
  {
    hide Named, Counted, ChildNo, UserTaken;
    var db' := db.(links := db.links[LinkOf(c) := link]);
    forall k | k in db'.tasks ensures Chained(db', k, db'.tasks[k]) {
      ForwardKeepsChain(db, db', k, db'.tasks[k]);
    }
  }

  lemma CompleteMappingKeeps(db: Db, ops: map<Key, Identity>, worker: string, c: Copy, portalAccount: string)
    requires DbOk(db, ops) && Genuine(db, c.key, c.task) && c.task.kind == MAPPING
    ensures Keeps(db, ops, CompleteMappingSpec(db, worker, c, portalAccount).0)
  {
    hide DbOk, Forward, ChildNo, CompleteSpec, LinkAfter;
    ForwardSame(db);
    var link := LinkAfter(db, c, portalAccount);
    if link.Some? && Fenced(db, worker, c) {
      var mid := db.(links := db.links[LinkOf(c) := link.value]);
      LinkForward(db, ops, c, link.value, portalAccount);
      CompleteKeeps(mid, ops, worker, c);
      ForwardTrans(db, mid, CompleteSpec(mid, worker, c).0);
    }
  }

  lemma DispatchKeeps(db: Db, ops: map<Key, Identity>, worker: string, c: Copy, a: Answer)
    requires DbOk(db, ops) && Genuine(db, c.key, c.task)
    ensures Keeps(db, ops, DispatchSpec(db, worker, c, a).0)
  {
    hide DbOk, Forward, FailedSpec, CompleteSpec, CompleteRoleSpec, CompleteMappingSpec, Splitter.Trim, ChildNo;
    ForwardSame(db);
    FailedKeeps(db, ops, worker, c, a.at);
    match c.task.kind
    case ROLE => CompleteRoleKeeps(db, ops, worker, c);
    case MAPPING => if a.remote.Some? { CompleteMappingKeeps(db, ops, worker, c, a.remote.value); }
    case UNKNOWN =>
    case _ => CompleteKeeps(db, ops, worker, c);
  }

  // ---------------------------------------------------------------- every step

  lemma NamedGrows(ops: map<Key, Identity>, op: Key, who: Identity, k: Key, t: Task)
    requires Named(ops, k, t) && (op in ops ==> ops[op] == who)
    ensures Named(ops[op := who], k, t)
  {
  }

  lemma FreshIsNamed(ops: map<Key, Identity>, tenant: string, op: string, kind: Kind, who: Identity)
    requires (tenant, op) in ops && ops[(tenant, op)] == who
    ensures Named(ops, (tenant, op + [Suffix(kind)]), NewTask(kind, who)) && Counted(NewTask(kind, who))
  {
    assert (op + [Suffix(kind)])[..|op|] == op;
  }

  lemma EnqueueKeeps(w: World, s: Step)
    requires Inv(w) && s.Enqueue?
    ensures Inv(Do(w, s)) && Forward(w.db, Do(w, s).db)
  {
    hide ChildNo, Named, Counted, Suffix;
    var v := Do(w, s);
    if v != w {
      FreshIsNamed(v.ops, s.tenant, s.op, s.kind, s.who);
      forall k | k in v.db.tasks
        ensures Named(v.ops, k, v.db.tasks[k]) && Counted(v.db.tasks[k]) && Chained(v.db, k, v.db.tasks[k])
      {
        if k in w.db.tasks {
          NamedGrows(w.ops, (s.tenant, s.op), s.who, k, w.db.tasks[k]);
          ForwardKeepsChain(w.db, v.db, k, v.db.tasks[k]);
        }
      }
    } else {
      ForwardSame(w.db);
    }
  }

  lemma ClaimKeeps(db: Db, ops: map<Key, Identity>, key: Key, worker: string, now: Time, lease: Time)
    requires DbOk(db, ops)
    ensures Keeps(db, ops, ClaimSpec(db, key, worker, now, lease).0)
    ensures ClaimSpec(db, key, worker, now, lease).1.Some? ==>
              Genuine(ClaimSpec(db, key, worker, now, lease).0, key,
                      ClaimSpec(db, key, worker, now, lease).1.value.task)
  {
    hide Named, ChildNo;
    var db' := ClaimSpec(db, key, worker, now, lease).0;
    forall k | k in db'.tasks ensures Named(ops, k, db'.tasks[k]) && Chained(db', k, db'.tasks[k]) {
      NamedSame(ops, k, db.tasks[k], db'.tasks[k]);
      ForwardKeepsChain(db, db', k, db'.tasks[k]);
    }
  }

  lemma TakeKeeps(w: World, s: Step)
    requires Inv(w) && s.Take?
    ensures Inv(Do(w, s)) && Forward(w.db, Do(w, s).db)
  {
    hide DbOk, Forward, Genuine, ClaimSpec;
    ClaimKeeps(w.db, w.ops, s.key, s.worker, s.now, s.lease);
    var db' := ClaimSpec(w.db, s.key, s.worker, s.now, s.lease).0;
    forall a | a in w.held ensures Genuine(db', a.1, w.held[a]) {
      ForwardKeepsMemory(w.db, db', a.1, w.held[a]);
    }
  }

  lemma DispatchStepKeeps(w: World, s: Step)
    requires Inv(w) && s.Dispatch?
    ensures Inv(Do(w, s)) && Forward(w.db, Do(w, s).db)
  {
    hide DbOk, DispatchSpec, Forward, Genuine;
    ForwardSame(w.db);
    if (s.worker, s.key) in w.held {
      var c := Copy(s.key, w.held[(s.worker, s.key)]);
      assert Genuine(w.db, c.key, c.task);
      DispatchKeeps(w.db, w.ops, s.worker, c, s.answer);
      var db' := DispatchSpec(w.db, s.worker, c, s.answer).0;
      forall a | a in w.held ensures Genuine(db', a.1, w.held[a]) {
        ForwardKeepsMemory(w.db, db', a.1, w.held[a]);
      }
    }
  }

  lemma LinksKeep(db: Db, ops: map<Key, Identity>, db': Db)
    requires DbOk(db, ops) && db'.tasks == db.tasks && Forward(db, db')
    ensures DbOk(db', ops)
  {
    hide Named, Counted, ChildNo, Forward;
    forall k | k in db'.tasks ensures Chained(db', k, db'.tasks[k]) {
      ForwardKeepsChain(db, db', k, db'.tasks[k]);
    }
  }

  lemma MemoryKeeps(w: World, v: World)
    requires Inv(w) && DbOk(v.db, v.ops) && Forward(w.db, v.db)
    requires forall a :: a in v.held ==> a in w.held && v.held[a] == w.held[a]
    ensures Inv(v)
  {
    hide DbOk, Forward, Genuine;
    forall a | a in v.held ensures Genuine(v.db, a.1, v.held[a]) {
      ForwardKeepsMemory(w.db, v.db, a.1, w.held[a]);
    }
  }

  lemma UpsertForward(db: Db, link: LinkKey, user: string, account: string, found: LinkKey)
    ensures Forward(db, UpsertSpec(db, link, user, account, found))
    ensures UpsertSpec(db, link, user, account, found).tasks == db.tasks
  {
    hide UserTaken, Splitter.Trim;
  }

  lemma SetLinkForward(w: World, link: LinkKey, status: LinkStatus)
    ensures Forward(w.db, Do(w, SetLink(link, status)).db)
    ensures Do(w, SetLink(link, status)).db.tasks == w.db.tasks
    ensures Do(w, SetLink(link, status)).ops == w.ops && Do(w, SetLink(link, status)).held == w.held
  {
  }

  lemma LinkStepKeeps(w: World, s: Step)
    requires Inv(w) && (s.SetLink? || s.UpsertLink? || s.Stop?)
    ensures Inv(Do(w, s)) && Forward(w.db, Do(w, s).db)
  {
    hide DbOk, Forward, Genuine, UpsertSpec;
    if s.SetLink? {
      SetLinkForward(w, s.link, s.status);
    } else if s.UpsertLink? {
      UpsertForward(w.db, s.link, s.user, s.account, s.found);
    } else {
      ForwardSame(w.db);
    }
    LinksKeep(w.db, w.ops, Do(w, s).db);
    MemoryKeeps(w, Do(w, s));
  }

  lemma StepKeeps(w: World, s: Step)
    requires Inv(w)
    ensures Inv(Do(w, s)) && Forward(w.db, Do(w, s).db)
  {
    hide Inv, Do, Forward;
    match s
    case Enqueue(_, _, _, _) => EnqueueKeeps(w, s);
    case Take(_, _, _, _) => TakeKeeps(w, s);
    case Dispatch(_, _, _) => DispatchStepKeeps(w, s);
    case _ => LinkStepKeeps(w, s);
  }

  lemma {:induction false} RunKeeps(w: World, steps: seq<Step>)
    requires Inv(w)
    ensures Inv(DoAll(w, steps)) && Forward(w.db, DoAll(w, steps).db)
  {
    hide Inv, Do, Forward;
    if steps == [] {
      ForwardSame(w.db);
    } else {
      var v := DoAll(w, steps[..|steps| - 1]);
      RunKeeps(w, steps[..|steps| - 1]);
      StepKeeps(v, steps[|steps| - 1]);
      ForwardTrans(w.db, v.db, DoAll(w, steps).db);
    }
  }

  /** In every reachable state a finished role task has its one mapping task, with the same identity,
      and a finished mapping task has its identity link, for the same user and with an account; and
      no task has failed more than seven times. */
  lemma ChainHolds(w: World, steps: seq<Step>, k: Key)
    requires Initial(w) && k in DoAll(w, steps).db.tasks
    ensures var db := DoAll(w, steps).db;
            var t := db.tasks[k];
            && t.attempts <= 7 && (t.status == DEAD_LETTER <==> t.attempts == 7)
            && (t.kind == ROLE && t.status == SUCCEEDED ==>
                  ChildKey(k) in db.tasks && db.tasks[ChildKey(k)].kind == MAPPING
                      && db.tasks[ChildKey(k)].who == t.who)
            && (t.kind == MAPPING && t.status == SUCCEEDED ==> Linked(db, k, t.who))
  {
    hide DoAll, ChildNo, Named;
    RunKeeps(w, steps);
  }

  // ---------------------------------------------------------------- the version fence

  predicate Spent(db: Db, c: Copy) { c.key in db.tasks && c.task.version < db.tasks[c.key].version }

  /** Once a row has moved past a copy's version - taken over, completed or failed - nothing a worker
      does with that copy has any effect, ever. */
  lemma SpentForever(w: World, steps: seq<Step>, c: Copy, worker: string, a: Answer)
    requires Inv(w) && Spent(w.db, c)
    ensures var db := DoAll(w, steps).db;
            Spent(db, c) && DispatchSpec(db, worker, c, a).0 == db && !DispatchSpec(db, worker, c, a).1.accepted
  {
    hide DoAll, Inv, Splitter.Trim;
    RunKeeps(w, steps);
  }

  /** A result is accepted at most once per claim: accepting it, or letting anyone else claim the
      task, spends the copy. */
  lemma AcceptedOnce(db: Db, worker: string, c: Copy, a: Answer)
    requires DispatchSpec(db, worker, c, a).1.accepted
    ensures Fenced(db, worker, c) && Spent(DispatchSpec(db, worker, c, a).0, c)
  {
    hide Splitter.Trim, LinkAfter, BindingFenced, ChildNo;
    ChildIsAnother(c.key.1);
  }

  lemma ChildIsAnother(no: string)
    ensures ChildNo(no) != no
  {
    if no != "" && no[|no| - 1] == 'R' { assert ChildNo(no)[|no| - 1] == 'M'; }
  }

  lemma TakenOverIsSpent(db: Db, worker: string, c: Copy, other: string, now: Time, lease: Time)
    requires Fenced(db, worker, c) && ClaimSpec(db, c.key, other, now, lease).1.Some?
    ensures Spent(ClaimSpec(db, c.key, other, now, lease).0, c)
  {
  }

  // ---------------------------------------------------------------- administrator's decisions

  /** The worker's answer is an accepted mapping with this account for this link. */
  predicate MapsLink(db: Db, worker: string, c: Copy, a: Answer, l: LinkKey) {
    && a.licensed && !Invalid(c) && c.task.kind == MAPPING && LinkOf(c) == l && Fenced(db, worker, c)
    && a.remote.Some? && Splitter.Trim(a.remote.value) != ""
  }

  /** Exactly when a worker's step changes a link: by an accepted mapping of that link, unless it is
      DISABLED, of another user, or has another account.  Then it is WAITING, an ACTIVE one too. */
  lemma LinkMoves(db: Db, worker: string, c: Copy, a: Answer, l: LinkKey)
    requires l in db.links
    ensures var db' := DispatchSpec(db, worker, c, a).0;
            && l in db'.links
            && (db'.links[l] != db.links[l] <==>
                  && MapsLink(db, worker, c, a, l) && db.links[l].status != DISABLED
                  && db.links[l].user == c.task.who.user && db.links[l].portalAccount in {"", a.remote.value})
            && (db'.links[l] != db.links[l] ==>
                  db'.links[l] == Link(db.links[l].user, a.remote.value, WAITING, db.links[l].version + 1))
  {
    hide UserTaken, BindingFenced, ChildNo, Invalid;
    assert a.remote.Some? && a.remote.value == "" ==> Splitter.Trim(a.remote.value) == "";
  }

  /** So a late mapping result takes an ACTIVE link back to WAITING exactly then. */
  lemma ActiveReverts(db: Db, worker: string, c: Copy, a: Answer, l: LinkKey)
    requires l in db.links && db.links[l].status == ACTIVE
    ensures var db' := DispatchSpec(db, worker, c, a).0;
            && l in db'.links
            && (db'.links[l].status != ACTIVE <==>
                  && MapsLink(db, worker, c, a, l)
                  && db.links[l].user == c.task.who.user && db.links[l].portalAccount in {"", a.remote.value})
  {
    hide DispatchSpec, MapsLink;
    LinkMoves(db, worker, c, a, l);
  }

  /** And exactly when it creates one. */
  lemma LinkAppears(db: Db, worker: string, c: Copy, a: Answer, l: LinkKey)
    requires l !in db.links
    ensures var db' := DispatchSpec(db, worker, c, a).0;
            && (l in db'.links <==> MapsLink(db, worker, c, a, l) && !UserTaken(db, l.0, c.task.who.user))
            && (l in db'.links ==> db'.links[l] == Link(c.task.who.user, a.remote.value, WAITING, 1))
  {
    hide UserTaken, BindingFenced, ChildNo, Invalid;
    assert a.remote.Some? && a.remote.value == "" ==> Splitter.Trim(a.remote.value) == "";
  }

  lemma {:induction false} TrimLeftEnds(s: string, c: char)
    requires !Splitter.Space(c)
    ensures Splitter.TrimLeft(s + [c]) == Splitter.TrimLeft(s) + [c]
  {
    if s != "" {
      assert (s + [c])[1..] == s[1..] + [c];
      TrimLeftEnds(s[1..], c);
    } else {
      assert s + [c] == [c];
    }
  }

  lemma NumberNotBlank(op: string)
    ensures Splitter.Trim(op + [Suffix(MAPPING)]) != ""
  {
    TrimLeftEnds(op, 'M');
  }

  /** Such a run exists from any empty database, for any identity: the mapping call of an operation
      seems to fail and is queued, the operation is repeated and succeeds, the invite is consumed - and
      then the queued call succeeds too. */
  lemma ActiveRevertsRun(w: World, tenant: string, op: string, who: Identity, account: string, worker: string)
    returns (steps: seq<Step>)
    requires Initial(w) && Splitter.Trim(tenant) != "" && who.customer != 0 && who.contact != 0
    requires Splitter.Trim(who.user) != "" && Splitter.Trim(who.account) != "" && Splitter.Trim(account) != ""
    ensures var l := (tenant, who.customer, who.contact);
            && |steps| == 5
            && l in DoAll(w, steps[..4]).db.links && DoAll(w, steps[..4]).db.links[l].status == ACTIVE
            && l in DoAll(w, steps).db.links && DoAll(w, steps).db.links[l].status == WAITING
  {
    hide *;
    var l := (tenant, who.customer, who.contact);
    var key := (tenant, op + [Suffix(MAPPING)]);
    var a := Answer(true, Some(account), true, true, 0);
    var s1, s2, s3 := Enqueue(tenant, op, MAPPING, who), Take(key, worker, 0, 0), UpsertLink(l, who.user, account, l);
    var s4, s5 := SetLink(l, ACTIVE), Step.Dispatch(key, worker, a);
    steps := [s1, s2, s3, s4, s5];
    assert steps[..4] == [s1, s2, s3, s4];
    DoOneMore(w, steps);
    DoOneMore(w, steps[..4]);
    DoOneMore(w, [s1, s2, s3]);
    DoOneMore(w, [s1, s2]);
    DoOneMore(w, [s1]);
    DoNothing(w);
    assert steps[..4][..3] == [s1, s2, s3] && [s1, s2, s3][..2] == [s1, s2] && [s1, s2][..1] == [s1] && [s1][..0] == [];
    var v2 := Do(Do(w, s1), s2);
    QueuedAndTaken(w, tenant, op, who, worker);
    ProvisionedAndConsumed(v2, l, who.user, account);
    NumberNotBlank(op);
    var v4: World := Do(Do(v2, s3), s4);
    LateMapping(v4, key, who, worker, account);
  }

  lemma DoOneMore(w: World, steps: seq<Step>)
    requires steps != []
    ensures DoAll(w, steps) == Do(DoAll(w, steps[..|steps| - 1]), steps[|steps| - 1])
  {
  }

  lemma DoNothing(w: World)
    ensures DoAll(w, []) == w
  {
  }

  lemma QueuedAndTaken(w: World, tenant: string, op: string, who: Identity, worker: string)
    requires Initial(w)
    ensures var key, t := (tenant, op + [Suffix(MAPPING)]), Locked(NewTask(MAPPING, who), worker, 0);
            var v := Do(Do(w, Enqueue(tenant, op, MAPPING, who)), Take(key, worker, 0, 0));
            v.db == Db(map[key := t], map[]) && v.held == map[(worker, key) := t]
  {
    var key := (tenant, op + [Suffix(MAPPING)]);
    assert map[key := NewTask(MAPPING, who)][key := Locked(NewTask(MAPPING, who), worker, 0)]
        == map[key := Locked(NewTask(MAPPING, who), worker, 0)];
  }

  lemma ProvisionedAndConsumed(v: World, l: LinkKey, user: string, account: string)
    requires v.db.links == map[] && Splitter.Trim(account) != ""
    ensures var u := Do(Do(v, UpsertLink(l, user, account, l)), SetLink(l, ACTIVE));
            && u.held == v.held && u.db.tasks == v.db.tasks
            && l in u.db.links && u.db.links[l] == Link(user, account, ACTIVE, 2)
  {
    hide Splitter.Trim;
  }

  lemma LateMapping(v: World, key: Key, who: Identity, worker: string, account: string)
    requires Splitter.Trim(key.0) != "" && Splitter.Trim(key.1) != "" && who.customer != 0 && who.contact != 0
    requires Splitter.Trim(who.user) != "" && Splitter.Trim(who.account) != "" && Splitter.Trim(account) != ""
    requires var t, l := Locked(NewTask(MAPPING, who), worker, 0), (key.0, who.customer, who.contact);
             && v.db.tasks == map[key := t] && v.held == map[(worker, key) := t]
             && l in v.db.links && v.db.links[l] == Link(who.user, account, ACTIVE, 2)
    ensures var l := (key.0, who.customer, who.contact);
            var u := Do(v, Step.Dispatch(key, worker, Answer(true, Some(account), true, true, 0)));
            l in u.db.links && u.db.links[l].status == WAITING
  {
    hide DispatchSpec, Splitter.Trim;
    var c, a := Copy(key, Locked(NewTask(MAPPING, who), worker, 0)), Answer(true, Some(account), true, true, 0);
    LinkMoves(v.db, worker, c, a, (key.0, who.customer, who.contact));
  }

  /** An administrator's DISABLED survives every worker's step: only the invite service ends it. */
  lemma {:induction false} DisabledStays(w: World, steps: seq<Step>, l: LinkKey)
    requires l in w.db.links && w.db.links[l].status == DISABLED
    requires forall s :: s in steps ==> !(s.SetLink? && s.link == l)
    ensures l in DoAll(w, steps).db.links && DoAll(w, steps).db.links[l] == w.db.links[l]
  {
    hide Do;
    if steps != [] {
      DisabledStays(w, steps[..|steps| - 1], l);
      DisabledStep(DoAll(w, steps[..|steps| - 1]), steps[|steps| - 1], l);
    }
  }

  lemma DisabledStep(w: World, s: Step, l: LinkKey)
    requires l in w.db.links && w.db.links[l].status == DISABLED && !(s.SetLink? && s.link == l)
    ensures l in Do(w, s).db.links && Do(w, s).db.links[l] == w.db.links[l]
  {
    hide DispatchSpec, UserTaken, Splitter.Trim;
    if s.Dispatch? && (s.worker, s.key) in w.held {
      LinkMoves(w.db, s.worker, Copy(s.key, w.held[(s.worker, s.key)]), s.answer, l);
    }
  }

  /** A mapping task whose link is disabled is neither completed nor failed, however often the portal
      answers: it stays as it is until its lease runs out. */
  lemma DisabledMappingWaits(db: Db, worker: string, c: Copy, a: Answer)
    requires c.task.kind == MAPPING && LinkOf(c) in db.links && db.links[LinkOf(c)].status == DISABLED
    requires a.licensed && !Invalid(c) && a.remote.Some? && Splitter.Trim(a.remote.value) != ""
    ensures DispatchSpec(db, worker, c, a) == (db, Report(true, false))
  {
    hide Splitter.Trim;
  }

  /** The platform is never asked to bind a user whose link is disabled, but may be asked to unbind. */
  lemma BindingRespectsDisabled(db: Db, worker: string, c: Copy, a: Answer)
    requires c.task.kind == BINDING && DispatchSpec(db, worker, c, a).1.called
    ensures LinkOf(c) in db.links && db.links[LinkOf(c)].user == c.task.who.user ==>
              db.links[LinkOf(c)].status != DISABLED
  {
    hide Splitter.Trim;
  }

  // ---------------------------------------------------------------- derived numbers

  /** Two numbers derive the same child exactly when they are equal or one is the other plus R. */
  predicate Clash(a: string, b: string) {
    && a != b
    && ((a == b + "R" && !EndsInR(b)) || (b == a + "R" && !EndsInR(a)))
  }

  predicate EndsInR(s: string) { s != "" && s[|s| - 1] == 'R' }

  lemma SameChild(a: string, b: string)
    ensures ChildNo(a) == ChildNo(b) <==> a == b || Clash(a, b)
  {
    var x, y := if EndsInR(a) then a[..|a| - 1] else a, if EndsInR(b) then b[..|b| - 1] else b;
    assert ChildNo(a) == x + "M" && ChildNo(b) == y + "M";
    assert EndsInR(a) ==> a == x + "R";
    assert EndsInR(b) ==> b == y + "R";
    if ChildNo(a) == ChildNo(b) {
      assert (x + "M")[..|x|] == (y + "M")[..|y|];
      assert x == y;
    }
  }

  /** Outside the naming discipline: of two role tasks of different people completed one after the
      other, with no child yet, the second gets a mapping task of its own exactly when the numbers do
      not clash; where they do, it is marked SUCCEEDED with the first person's mapping task. */
  lemma SecondChildIsOwn(db: Db, worker: string, a: Copy, b: Copy)
    requires a.key.0 == b.key.0 && a.key != b.key && a.task.who != b.task.who
    requires Fenced(db, worker, a) && Fenced(db, worker, b)
    requires ChildKey(a.key) !in db.tasks && ChildKey(b.key) !in db.tasks
    ensures var last := CompleteRoleSpec(CompleteRoleSpec(db, worker, a).0, worker, b).0;
            && last.tasks[b.key].status == SUCCEEDED && ChildKey(b.key) in last.tasks
            && (last.tasks[ChildKey(b.key)].who == b.task.who <==> !Clash(a.key.1, b.key.1))
  {
    hide ChildNo, Clash;
    SameChild(a.key.1, b.key.1);
  }

  // ---------------------------------------------------------------- the worker is one of the world's

  predicate DistinctKeys(copies: seq<Copy>) { forall i, j :: 0 <= i < j < |copies| ==> copies[i].key != copies[j].key }

  /** The worker remembers these copies. */
  predicate Remembers(w: World, worker: string, copies: seq<Copy>) {
    forall c :: c in copies ==> (worker, c.key) in w.held && w.held[(worker, c.key)] == c.task
  }

  lemma OneTake(w: World, copies: seq<Copy>, key: Key, worker: string, now: Time, lease: Time)
    requires Remembers(w, worker, copies) && DistinctKeys(copies) && forall c :: c in copies ==> c.key != key
    ensures var (db, c) := ClaimSpec(w.db, key, worker, now, lease);
            var v := Do(w, Take(key, worker, now, lease));
            var more := copies + if c.Some? then [c.value] else [];
            && v.db == db && Remembers(v, worker, more) && DistinctKeys(more)
            && forall d :: d in more ==> d in copies || d.key == key
  {
    hide Claimable;
  }

  predicate Once(picked: seq<Key>) { forall i, j :: 0 <= i < j < |picked| ==> picked[i] != picked[j] }

  lemma {:induction false} ClaimsAreWorldRun(w: World, picked: seq<Key>, worker: string, now: Time, lease: Time)
    returns (steps: seq<Step>)
    requires Once(picked)
    ensures var (db, copies) := ClaimAll(w.db, picked, worker, now, lease);
            var v := DoAll(w, steps);
            v.db == db && Remembers(v, worker, copies) && DistinctKeys(copies)
            && forall c :: c in copies ==> c.key in picked
  {
    hide ClaimSpec, Do, Remembers, DistinctKeys, Once;
    if picked == [] {
      steps := [];
      NothingRemembered(w, worker);
    } else {
      var n := |picked| - 1;
      assert Once(picked[..n]) by { OnceFront(picked); }
      steps := ClaimsAreWorldRun(w, picked[..n], worker, now, lease);
      var copies := ClaimAll(w.db, picked[..n], worker, now, lease).1;
      forall c | c in copies ensures c.key != picked[n] && c.key in picked {
        Earlier(picked, n, c.key);
      }
      OneTake(DoAll(w, steps), copies, picked[n], worker, now, lease);
      var take := Take(picked[n], worker, now, lease);
      assert (steps + [take])[..|steps|] == steps;
      steps := steps + [take];
    }
  }

  lemma OnceFront(picked: seq<Key>)
    requires Once(picked) && picked != []
    ensures Once(picked[..|picked| - 1])
  {
  }

  lemma Earlier(picked: seq<Key>, n: nat, key: Key)
    requires n < |picked| && key in picked[..n] && Once(picked)
    ensures key != picked[n] && key in picked
  {
  }

  lemma NothingRemembered(w: World, worker: string)
    ensures Remembers(w, worker, []) && DistinctKeys([])
  {
  }

  lemma OneDispatch(w: World, copies: seq<Copy>, k: nat, worker: string, a: Answer)
    requires k < |copies| && DistinctKeys(copies) && Remembers(w, worker, copies[k..])
    ensures var v := Do(w, Step.Dispatch(copies[k].key, worker, a));
            v.db == DispatchSpec(w.db, worker, copies[k], a).0 && Remembers(v, worker, copies[k + 1..])
  {
    hide DispatchSpec;
    assert copies[k] == copies[k..][0];
    forall c | c in copies[k + 1..] ensures c in copies[k..] && c.key != copies[k].key {
      var i :| 0 <= i < |copies| - k - 1 && copies[k + 1..][i] == c;
      assert copies[k..][i + 1] == c && copies[k + 1 + i] == c;
    }
  }

  lemma {:induction false} DispatchesAreWorldRun(w: World, copies: seq<Copy>, k: nat, worker: string,
                                                  answers: map<Key, Answer>)
    returns (steps: seq<Step>)
    requires k <= |copies| && DistinctKeys(copies) && Remembers(w, worker, copies)
    requires forall c :: c in copies ==> c.key in answers
    ensures DoAll(w, steps).db == DispatchAll(w.db, copies[..k], worker, answers)
    ensures Remembers(DoAll(w, steps), worker, copies[k..])
  {
    hide DispatchSpec, Do, Remembers, DistinctKeys;
    if k == 0 {
      steps := [];
      assert copies[..0] == [] && copies[0..] == copies;
    } else {
      steps := DispatchesAreWorldRun(w, copies, k - 1, worker, answers);
      var c := copies[k - 1];
      assert copies[..k][..k - 1] == copies[..k - 1];
      OneDispatch(DoAll(w, steps), copies, k - 1, worker, answers[c.key]);
      var step := Step.Dispatch(c.key, worker, answers[c.key]);
      assert (steps + [step])[..|steps|] == steps;
      steps := steps + [step];
    }
  }

  lemma {:induction false} DoAllConcat(w: World, a: seq<Step>, b: seq<Step>)
    ensures DoAll(w, a + b) == DoAll(DoAll(w, a), b)
  {
    hide Do;
    if b == [] {
      assert a + b == a;
    } else {
      var ab := a + b;
      assert ab[..|ab| - 1] == a + b[..|b| - 1];
      DoAllConcat(w, a, b[..|b| - 1]);
    }
  }

  /** A poll with nobody else in between is a run of the world, so everything proved of all runs holds
      of it. */
  lemma PollIsWorldRun(w: World, picked: seq<Key>, worker: string, now: Time, lease: Time,
                       answers: map<Key, Answer>)
    returns (steps: seq<Step>)
    requires Once(picked) && forall k :: k in picked ==> k in answers
    ensures var (claimed, copies) := ClaimAll(w.db, picked, worker, now, lease);
            DoAll(w, steps).db == DispatchAll(claimed, copies, worker, answers)
  {
    hide Do, DoAll, ClaimAll, DispatchAll, DistinctKeys, Remembers;
    var first := ClaimsAreWorldRun(w, picked, worker, now, lease);
    var (claimed, copies) := ClaimAll(w.db, picked, worker, now, lease);
    var more := DispatchesAreWorldRun(DoAll(w, first), copies, |copies|, worker, answers);
    DoAllConcat(w, first, more);
    steps := first + more;
    assert copies[..|copies|] == copies;
  }
}
