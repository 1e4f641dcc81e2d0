/** What the migration runner guarantees over every interleaving of deployments, lock waits,
  * database commands and crashes.
  */
module MigrationSafety {
  import opened Wrappers
  import opened MigrationRunner
  import Splitter

  type Pid = nat

  /** A process past GET_LOCK.  The server grants the lock to one connection at a time and frees
      it when that connection ends, whether the program exits or dies. */
  datatype Proc = Proc(script: Script, pc: Pc)
  datatype World = World(db: Db, procs: map<Pid, Proc>)

  datatype Step = Begin(p: Pid, script: Script) | Advance(p: Pid, ok: bool) | Crash(p: Pid)

  ghost predicate ValidWorld(w: World) {
    forall p :: p in w.procs ==> ValidPc(w.procs[p].script, w.procs[p].pc) && !w.procs[p].pc.Ended?
  }

  function Do(w: World, s: Step): (w': World)
    requires ValidWorld(w)
    ensures ValidWorld(w')
  {
    match s
    case Begin(p, script) =>
      if w.procs == map[] then w.(procs := map[p := Proc(script, Inspect)]) else w
    case Advance(p, ok) =>
      if p !in w.procs then w
      else
        var (db, pc) := Command(w.db, w.procs[p].script, w.procs[p].pc, ok);
        World(db, if pc.Ended? then w.procs - {p} else w.procs[p := w.procs[p].(pc := pc)])
    case Crash(p) => w.(procs := w.procs - {p})
  }

  function DoAll(w: World, steps: seq<Step>): (w': World)
    requires ValidWorld(w)
    ensures ValidWorld(w')
  {
    if steps == [] then w else Do(DoAll(w, steps[..|steps| - 1]), steps[|steps| - 1])
  }

  /** A schema no migration has touched. */
  predicate Fresh(w: World) { w.procs == map[] && w.db.rows == map[] && w.db.log == [] }

  ghost predicate DistinctKeys(items: seq<Item>) {
    forall i, j :: 0 <= i < j < |items| ==> items[i].key != items[j].key
  }

  // ---------------------------------------------------------------- any plans at all

  ghost predicate Logged(db: Db) {
    DistinctKeys(db.log) && forall i :: 0 <= i < |db.log| ==> db.log[i].key in db.rows
  }

  // Between its INSERT and its send, a process owns a row whose statement was never sent.
  ghost predicate Owns(db: Db, pr: Proc) {
    ValidPc(pr.script, pr.pc)
    && (pr.pc.Exec? ==> pr.script.items[pr.pc.i].key in db.rows)
    && (pr.pc.Exec? ==> forall i :: 0 <= i < |db.log| ==> db.log[i].key != pr.script.items[pr.pc.i].key)
  }

  /** The lock: at most one process is past GET_LOCK. */
  ghost predicate Exclusive(w: World) { forall p, q :: p in w.procs && q in w.procs ==> p == q }

  ghost predicate OnceInv(w: World) {
    && Logged(w.db)
    && Exclusive(w)
    && forall p :: p in w.procs ==> Owns(w.db, w.procs[p])
  }

  lemma OnceCommand(db: Db, pr: Proc, ok: bool)
    requires Logged(db) && Owns(db, pr)
    ensures var (db', pc) := Command(db, pr.script, pr.pc, ok);
            Logged(db') && Owns(db', pr.(pc := pc)) && db.log <= db'.log
  {
  }

  lemma OnceStep(w: World, s: Step)
    requires ValidWorld(w) && OnceInv(w)
    ensures OnceInv(Do(w, s))
    ensures w.db.log <= Do(w, s).db.log
  {
    hide Command, Logged, Owns;
    match s
    case Begin(p, script) => Waits(w.db, script);
    case Advance(p, ok) => if p in w.procs { OnceCommand(w.db, w.procs[p], ok); }
    case Crash(p) =>
  }

  lemma Waits(db: Db, script: Script)
    ensures Owns(db, Proc(script, Inspect))
  {
  }

  /** Whatever plans are deployed, in whatever order, with crashes anywhere: no statement
      position is ever sent to the server twice, and the record of sent statements only grows. */
  lemma {:induction false} SentAtMostOnce(w: World, steps: seq<Step>)
    requires ValidWorld(w) && Fresh(w)
    ensures OnceInv(DoAll(w, steps)) && DistinctKeys(DoAll(w, steps).db.log)
    decreases |steps|
  {
    if steps != [] {
      SentAtMostOnce(w, steps[..|steps| - 1]);
      OnceStep(DoAll(w, steps[..|steps| - 1]), steps[|steps| - 1]);
    }
  }

  // ---------------------------------------------------------------- a growing plan

  /** The checkpoint table after the given statements were all applied. */
  function Table(items: seq<Item>): map<Key, Row> {
    if items == [] then map[]
    else Table(items[..|items| - 1])[items[|items| - 1].key := RowOf(items[|items| - 1], APPLIED)]
  }

  lemma {:induction false} TableHas(items: seq<Item>, k: Key)
    ensures k in Table(items) <==> exists i :: 0 <= i < |items| && items[i].key == k
    ensures k in Table(items) ==> Table(items)[k].status == APPLIED
  {
    if items != [] {
      var front := items[..|items| - 1];
      TableHas(front, k);
      if k in Table(front) {
        var i :| 0 <= i < |front| && front[i].key == k;
        assert items[i].key == k;
      }
    }
  }

  lemma {:induction false} TableRow(items: seq<Item>, i: nat)
    requires i < |items| && DistinctKeys(items)
    ensures items[i].key in Table(items) && Table(items)[items[i].key] == RowOf(items[i], APPLIED)
  {
    if i < |items| - 1 { TableRow(items[..|items| - 1], i); }
  }

  /** `n` statements of the master plan are applied; `open` adds a RUNNING row for the next one. */
  function Rows(master: seq<Item>, n: nat, open: bool): map<Key, Row>
    requires n <= |master| && (open ==> n < |master|)
  {
    if open then Table(master[..n])[master[n].key := RowOf(master[n], RUNNING)] else Table(master[..n])
  }

  /** Every sent statement is applied and no checkpoint is open. */
  ghost predicate Settled(db: Db, master: seq<Item>) {
    |db.log| <= |master| && db.log == master[..|db.log|] && db.rows == Rows(master, |db.log|, false)
  }

  /** One checkpoint is open: for the next statement, not sent yet, or for the last one sent. */
  ghost predicate OpenNext(db: Db, master: seq<Item>) {
    |db.log| < |master| && db.log == master[..|db.log|] && db.rows == Rows(master, |db.log|, true)
  }

  ghost predicate OpenLast(db: Db, master: seq<Item>) {
    0 < |db.log| <= |master| && db.log == master[..|db.log|] && db.rows == Rows(master, |db.log| - 1, true)
  }

  ghost predicate Placed(db: Db, pr: Proc, master: seq<Item>) {
    && pr.script.items <= master
    && match pr.pc
       case At(i) => Settled(db, master) && i <= |db.log|
       case Insert(i) => Settled(db, master) && i == |db.log|
       case Exec(i) => OpenNext(db, master) && i == |db.log|
       case Finish(i) => OpenLast(db, master) && i == |db.log| - 1
       case _ => Settled(db, master) || OpenNext(db, master) || OpenLast(db, master)
  }

  ghost predicate PrefixInv(w: World, master: seq<Item>) {
    && (Settled(w.db, master) || OpenNext(w.db, master) || OpenLast(w.db, master))
    && Exclusive(w)
    && forall p :: p in w.procs ==> Placed(w.db, w.procs[p], master)
  }

  ghost predicate AtMostOneOpen(rows: map<Key, Row>) {
    forall k, l :: k in rows && l in rows && rows[k].status == RUNNING && rows[l].status == RUNNING ==> k == l
  }

  lemma OpenIsAmbiguous(db: Db, master: seq<Item>)
    requires DistinctKeys(master)
    ensures Settled(db, master) ==> !Ambiguous(db.rows)
    ensures OpenNext(db, master) ==> db.rows[master[|db.log|].key].status == RUNNING && Ambiguous(db.rows)
    ensures OpenLast(db, master) ==> db.rows[master[|db.log| - 1].key].status == RUNNING && Ambiguous(db.rows)
  {
    if Settled(db, master) {
      forall k | k in db.rows ensures db.rows[k].status == APPLIED { TableHas(db.log, k); }
    }
    if OpenNext(db, master) { assert master[|db.log|].key in db.rows; }
    if OpenLast(db, master) { assert master[|db.log| - 1].key in db.rows; }
  }

  lemma CommandPlaced(db: Db, pr: Proc, master: seq<Item>, ok: bool)
    requires DistinctKeys(master) && ValidPc(pr.script, pr.pc) && Placed(db, pr, master)
    ensures var (db', pc) := Command(db, pr.script, pr.pc, ok);
            Placed(db', pr.(pc := pc), master)
    ensures var (db', pc) := Command(db, pr.script, pr.pc, ok);
            pc == Ended(Done) && !pr.pc.Ended? ==>
                Settled(db', master) && pr.script.complete && pr.script.items <= db'.log
  {
    hide Table, Rows;
    OpenIsAmbiguous(db, master);
    match pr.pc
    case At(i) => PlacedAt(db, pr, master, i, ok);
    case Insert(i) => PlacedInsert(db, pr, master, i, ok);
    case Exec(i) => PlacedExec(db, pr, master, i, ok);
    case Finish(i) => PlacedFinish(db, pr, master, i, ok);
    case _ =>
  }

  lemma PlacedAt(db: Db, pr: Proc, master: seq<Item>, i: nat, ok: bool)
    requires DistinctKeys(master) && pr.pc == At(i) && ValidPc(pr.script, pr.pc) && Placed(db, pr, master)
    ensures var (db', pc) := Command(db, pr.script, pr.pc, ok);
            && Placed(db', pr.(pc := pc), master)
            && (pc == Ended(Done) ==> Settled(db', master) && pr.script.complete && pr.script.items <= db'.log)
  {
    hide Table;
    var n := |db.log|;
    if i < |pr.script.items| {
      assert pr.script.items[i] == master[i];
      if i < n { TableRow(db.log, i); } else { TableHas(db.log, master[i].key); }
    }
  }

  lemma PlacedInsert(db: Db, pr: Proc, master: seq<Item>, i: nat, ok: bool)
    requires DistinctKeys(master) && pr.pc == Insert(i) && ValidPc(pr.script, pr.pc) && Placed(db, pr, master)
    ensures var (db', pc) := Command(db, pr.script, pr.pc, ok);
            Placed(db', pr.(pc := pc), master) && pc == Exec(i)
  {
    hide Table;
    assert pr.script.items[i] == master[i];
    TableHas(db.log, master[i].key);
  }

  lemma PlacedExec(db: Db, pr: Proc, master: seq<Item>, i: nat, ok: bool)
    requires DistinctKeys(master) && pr.pc == Exec(i) && ValidPc(pr.script, pr.pc) && Placed(db, pr, master)
    ensures var (db', pc) := Command(db, pr.script, pr.pc, ok);
            Placed(db', pr.(pc := pc), master) && pc != Ended(Done)
  {
    hide Table;
    assert pr.script.items[i] == master[i];
    assert db.log + [master[i]] == master[..i + 1];
  }

  lemma PlacedFinish(db: Db, pr: Proc, master: seq<Item>, i: nat, ok: bool)
    requires DistinctKeys(master) && pr.pc == Finish(i) && ValidPc(pr.script, pr.pc) && Placed(db, pr, master)
    ensures var (db', pc) := Command(db, pr.script, pr.pc, ok);
            Placed(db', pr.(pc := pc), master) && pc == At(i + 1)
  {
    var item := master[i];
    assert pr.script.items[i] == item;
    assert master[..i + 1][..i] == master[..i];
    assert Table(master[..i + 1]) == Table(master[..i])[item.key := RowOf(item, APPLIED)];
    assert db.rows[item.key := RowOf(item, APPLIED)] == Table(master[..i + 1]);
  }

  lemma PrefixStep(w: World, s: Step, master: seq<Item>)
    requires DistinctKeys(master) && ValidWorld(w) && PrefixInv(w, master)
    requires s.Begin? ==> s.script.items <= master
    ensures PrefixInv(Do(w, s), master)
  {
    hide Rows, Command;
    match s
    case Begin(p, script) =>
    case Advance(p, ok) =>
      if p in w.procs { CommandPlaced(w.db, w.procs[p], master, ok); }
    case Crash(p) =>
  }

  /** Deployments of releases whose plans only grew by appending: whatever crashes and waits for
      the lock, the sent statements are a prefix of the plan in plan order, the checkpoint table
      is exactly that prefix, and at most one checkpoint is open - for the last statement sent
      or the one after it. */
  lemma {:induction false} AppliedInPlanOrder(w: World, steps: seq<Step>, master: seq<Item>)
    requires DistinctKeys(master) && ValidWorld(w) && Fresh(w)
    requires forall s :: s in steps && s.Begin? ==> s.script.items <= master
    ensures PrefixInv(DoAll(w, steps), master)
    ensures DoAll(w, steps).db.log <= master
    ensures AtMostOneOpen(DoAll(w, steps).db.rows)
  {
    AppliedInPlanOrderHelper(w, steps, master);
    OneOpen(DoAll(w, steps).db, master);
  }

  lemma {:induction false} AppliedInPlanOrderHelper(w: World, steps: seq<Step>, master: seq<Item>)
    requires DistinctKeys(master) && ValidWorld(w) && Fresh(w)
    requires forall s :: s in steps && s.Begin? ==> s.script.items <= master
    ensures PrefixInv(DoAll(w, steps), master)
  {
    if steps == [] {
      assert Settled(w.db, master);
    } else {
      AppliedInPlanOrderHelper(w, steps[..|steps| - 1], master);
      PrefixStep(DoAll(w, steps[..|steps| - 1]), steps[|steps| - 1], master);
    }
  }

  lemma OneOpen(db: Db, master: seq<Item>)
    requires Settled(db, master) || OpenNext(db, master) || OpenLast(db, master)
    ensures AtMostOneOpen(db.rows)
  {
    forall k | k in db.rows && db.rows[k].status == RUNNING
      ensures OpenNext(db, master) || OpenLast(db, master)
      ensures k == master[if OpenNext(db, master) then |db.log| else |db.log| - 1].key
    {
      TableHas(master[..|db.log|], k);
      if |db.log| > 0 { TableHas(master[..|db.log| - 1], k); }
    }
  }

  /** File names are unique in a plan, as the plan builder checks. */
  ghost predicate DistinctFiles(plan: seq<Entry>) {
    forall i, j :: 0 <= i < j < |plan| ==> plan[i].file != plan[j].file
  }

  lemma {:induction false} FlattenDistinct(plan: seq<Entry>)
    requires DistinctFiles(plan)
    ensures DistinctKeys(Flatten(plan).items)
    ensures forall i :: 0 <= i < |Flatten(plan).items| ==>
              exists e :: 0 <= e < |plan| && plan[e].file == Flatten(plan).items[i].key.file
  {
    hide Splitter.SplitSpec;
    if plan != [] {
      var n := |plan| - 1;
      FlattenDistinct(plan[..n]);
      forall i | 0 <= i < |Flatten(plan).items|
        ensures exists e :: 0 <= e < |plan| && plan[e].file == Flatten(plan).items[i].key.file
      {
        var front := Flatten(plan[..n]).items;
        if i < |front| {
          var e :| 0 <= e < n && plan[..n][e].file == front[i].key.file;
          assert plan[e].file == Flatten(plan).items[i].key.file;
        } else {
          assert plan[n].file == Flatten(plan).items[i].key.file;
        }
      }
    }
  }

  /** The same for deployments of successive releases of one plan, each a prefix of the last:
      the order of the log is the order of the files and of the statements in them. */
  lemma ReleasesApplyInOrder(w: World, steps: seq<Step>, plan: seq<Entry>)
    requires DistinctFiles(plan) && ValidWorld(w) && Fresh(w)
    requires forall s :: s in steps && s.Begin? ==> exists e :: 0 <= e <= |plan| && s.script == Flatten(plan[..e])
    ensures DoAll(w, steps).db.log <= Flatten(plan).items
    ensures PrefixInv(DoAll(w, steps), Flatten(plan).items) && AtMostOneOpen(DoAll(w, steps).db.rows)
  {
    hide Flatten, DoAll, PrefixInv;
    FlattenDistinct(plan);
    forall s | s in steps && s.Begin? ensures s.script.items <= Flatten(plan).items {
      var e :| 0 <= e <= |plan| && s.script == Flatten(plan[..e]);
      FlattenPrefix(plan, e);
    }
    AppliedInPlanOrder(w, steps, Flatten(plan).items);
  }

  /** A process that exits normally leaves every statement of its plan sent and every checkpoint
      APPLIED; if its plan is the longest deployed, the log is exactly its plan. */
  lemma DoneMeansApplied(w: World, steps: seq<Step>, master: seq<Item>, p: Pid, ok: bool)
    requires DistinctKeys(master) && ValidWorld(w) && Fresh(w)
    requires forall s :: s in steps && s.Begin? ==> s.script.items <= master
    requires p in DoAll(w, steps).procs
    requires var pr := DoAll(w, steps).procs[p];
             Command(DoAll(w, steps).db, pr.script, pr.pc, ok).1 == Ended(Done)
    ensures var w' := DoAll(w, steps);
            var script := w'.procs[p].script;
            var db := Do(w', Advance(p, ok)).db;
            && script.complete && script.items <= db.log <= master
            && db.rows == Table(db.log) && !Ambiguous(db.rows)
            && (script.items == master ==> db.log == script.items)
  {
    AppliedInPlanOrderHelper(w, steps, master);
    var w' := DoAll(w, steps);
    CommandPlaced(w'.db, w'.procs[p], master, ok);
    OpenIsAmbiguous(Do(w', Advance(p, ok)).db, master);
  }

  // ---------------------------------------------------------------- ambiguous checkpoints

  ghost predicate Frozen(w: World, rows: map<Key, Row>, log: seq<Item>) {
    && Ambiguous(rows) && w.db.rows == rows && w.db.log == log
    && forall p :: p in w.procs ==> w.procs[p].pc.Inspect? || w.procs[p].pc.Create? || w.procs[p].pc.Check?
  }

  /** Once a crash leaves a checkpoint open, no later deployment of any plan sends anything or
      touches any checkpoint: the schema waits for an operator. */
  lemma {:induction false} AmbiguousFreezes(w: World, steps: seq<Step>)
    requires ValidWorld(w) && w.procs == map[] && Ambiguous(w.db.rows)
    ensures DoAll(w, steps).db.rows == w.db.rows && DoAll(w, steps).db.log == w.db.log
    ensures Frozen(DoAll(w, steps), w.db.rows, w.db.log)
  {
    if steps != [] { AmbiguousFreezes(w, steps[..|steps| - 1]); }
  }

  // ---------------------------------------------------------------- edited migrations

  ghost predicate Conflict(db: Db, s: Script, k: nat) {
    && k < |s.items| && s.items[k].key in db.rows
    && var row := db.rows[s.items[k].key];
       row.fileSum != s.items[k].fileSum || row.statementSum != s.items[k].text || row.status != APPLIED
  }

  ghost predicate Before(pc: Pc, k: nat) {
    match pc
    case At(i) => i <= k
    case Insert(i) => i < k
    case Exec(i) => i < k
    case Finish(i) => i < k
    case Ended(end) => end != Done
    case _ => true
  }

  /** A plan in which an already recorded file or statement changed, or is still RUNNING: the run stops
      before that statement, so it neither sends it nor anything after it, and it never ends normally. */
  lemma {:induction false} EditedPlanStops(db: Db, s: Script, pc: Pc, fuel: nat, oks: nat -> bool, k: nat)
    requires ValidPc(s, pc) && DistinctKeys(s.items) && Conflict(db, s, k) && Before(pc, k)
    ensures var r := Drive(db, s, pc, fuel, oks);
            && Conflict(r.0, s, k) && Before(r.1, k) && r.1 != Ended(Done)
            && db.log <= r.0.log
            && forall i :: |db.log| <= i < |r.0.log| ==> r.0.log[i] in s.items[..k]
    decreases fuel
  {
    if fuel > 0 && !pc.Ended? {
      var (db', pc') := Command(db, s, pc, oks(|db.log|));
      if pc.Exec? { assert s.items[pc.i] in s.items[..k]; }
      EditedPlanStops(db', s, pc', fuel - 1, oks, k);
    }
  }

  // ---------------------------------------------------------------- progress

  /** An undisturbed run finishes: from any settled schema holding a prefix of the plan, with
      every statement accepted, it sends exactly the missing statements and exits normally. */
  lemma {:induction false} UndisturbedRunFinishes(db: Db, s: Script, i: nat, fuel: nat, oks: nat -> bool)
    requires s.complete && DistinctKeys(s.items) && i <= |db.log| && Settled(db, s.items)
    requires (forall n :: oks(n)) && fuel >= 4 * (|s.items| - i) + 1
    ensures var r := Drive(db, s, At(i), fuel, oks);
            r.1 == Ended(Done) && r.0.log == s.items && r.0.rows == Table(s.items)
    decreases |s.items| - i
  {
    hide Drive, Table;
    var n := |db.log|;
    if i == |s.items| {
      DriveEnd(db, s, fuel, oks);
      assert s.items[..n] == s.items;
    } else if i < n {
      TableRow(db.log, i);
      DriveOne(db, s, At(i), fuel, oks);
      UndisturbedRunFinishes(db, s, i + 1, fuel - 1, oks);
    } else {
      var db' := OneStatement(db, s, oks);
      DriveFour(db, s, fuel, oks, db');
      UndisturbedRunFinishes(db', s, i + 1, fuel - 4, oks);
    }
  }

  function Applied(db: Db, item: Item): Db {
    db.(rows := db.rows[item.key := RowOf(item, APPLIED)], log := db.log + [item])
  }

  lemma OneStatement(db: Db, s: Script, oks: nat -> bool) returns (db': Db)
    requires DistinctKeys(s.items) && Settled(db, s.items) && |db.log| < |s.items|
    ensures db' == Applied(db, s.items[|db.log|]) && Settled(db', s.items)
  {
    var n := |db.log|;
    db' := Applied(db, s.items[n]);
    assert s.items[..n + 1][..n] == s.items[..n];
    assert db'.log == s.items[..n + 1];
  }

  lemma DriveFour(db: Db, s: Script, fuel: nat, oks: nat -> bool, db': Db)
    requires DistinctKeys(s.items) && Settled(db, s.items) && |db.log| < |s.items|
    requires (forall n :: oks(n)) && fuel >= 5 && db' == Applied(db, s.items[|db.log|])
    ensures Drive(db, s, At(|db.log|), fuel, oks) == Drive(db', s, At(|db.log| + 1), fuel - 4, oks)
  {
    hide Drive, Table;
    var n := |db.log|;
    var item := s.items[n];
    TableHas(db.log, item.key);
    var db1 := db.(rows := db.rows[item.key := RowOf(item, RUNNING)]);
    var db2 := db1.(log := db1.log + [item]);
    assert Command(db, s, At(n), true) == (db, Insert(n));
    assert Command(db, s, Insert(n), true) == (db1, Exec(n));
    assert Command(db1, s, Exec(n), true) == (db2, Finish(n));
    assert db2.rows[item.key := RowOf(item, APPLIED)] == db'.rows;
    assert Command(db2, s, Finish(n), true) == (db', At(n + 1));
    DriveOne(db, s, At(n), fuel, oks);
    DriveOne(db, s, Insert(n), fuel - 1, oks);
    DriveOne(db1, s, Exec(n), fuel - 2, oks);
    DriveOne(db2, s, Finish(n), fuel - 3, oks);
  }

  // ---------------------------------------------------------------- the program is the world's process

  /** A run of the program that is left alone - what `Migrate` computes - is a run of the world. */
  lemma {:induction false} DriveIsWorldRun(w: World, p: Pid, fuel: nat, oks: nat -> bool) returns (steps: seq<Step>)
    requires ValidWorld(w) && w.procs.Keys == {p}
    ensures var r := Drive(w.db, w.procs[p].script, w.procs[p].pc, fuel, oks);
            DoAll(w, steps) == World(r.0, if r.1.Ended? then map[] else map[p := w.procs[p].(pc := r.1)])
    decreases fuel
  {
    var pr := w.procs[p];
    steps := [];
    if fuel == 0 {
      assert w.procs == map[p := pr];
    } else {
      var s := Advance(p, oks(|w.db.log|));
      var w' := Do(w, s);
      var (db', pc') := Command(w.db, pr.script, pr.pc, oks(|w.db.log|));
      if pc'.Ended? {
        assert w'.procs == map[];
        assert Drive(db', pr.script, pc', fuel - 1, oks) == (db', pc');
        steps := [s];
        assert steps[..0] == [];
      } else {
        assert w'.procs[p] == pr.(pc := pc');
        var rest := DriveIsWorldRun(w', p, fuel - 1, oks);
        steps := [s] + rest;
        DoAllCons(w, s, rest);
      }
    }
  }

  lemma {:induction false} DoAllCons(w: World, s: Step, rest: seq<Step>)
    requires ValidWorld(w)
    ensures DoAll(w, [s] + rest) == DoAll(Do(w, s), rest)
  {
    var all := [s] + rest;
    if rest == [] {
      assert all[..0] == [] && all == [s];
    } else {
      assert all[..|all| - 1] == [s] + rest[..|rest| - 1];
      DoAllCons(w, s, rest[..|rest| - 1]);
    }
  }
}
