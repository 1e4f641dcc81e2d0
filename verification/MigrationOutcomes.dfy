/** How a migration run ends, and what it leaves, in terms of the schema it found, the plan and the
  * server's answers.
  */
module MigrationOutcomes {
  import opened Wrappers
  import opened MigrationRunner
  import opened MigrationSafety
  import Splitter

  /** The statement is recorded as applied, under the digests of its file and its text. */
  predicate Passed(rows: map<Key, Row>, item: Item) {
    && item.key in rows && rows[item.key].status == APPLIED
    && rows[item.key].fileSum == item.fileSum && rows[item.key].statementSum == item.text
  }

  predicate Open(rows: map<Key, Row>, item: Item) {
    && item.key in rows && rows[item.key].status == RUNNING
    && rows[item.key].fileSum == item.fileSum && rows[item.key].statementSum == item.text
  }

  predicate Changed(rows: map<Key, Row>, item: Item) {
    && item.key in rows
    && (rows[item.key].fileSum != item.fileSum || rows[item.key].statementSum != item.text)
  }

  predicate AllPassed(rows: map<Key, Row>, items: seq<Item>, n: nat) {
    n <= |items| && forall i :: 0 <= i < n ==> Passed(rows, items[i])
  }

  predicate FirstChanged(rows: map<Key, Row>, items: seq<Item>, n: nat)
    requires n < |items|
  {
    AllPassed(rows, items, n) && Changed(rows, items[n])
  }

  /** The server accepted everything it was sent from number `from` to number `to` of the log. */
  predicate Accepted(oks: nat -> bool, from: nat, to: nat) { forall n: nat :: from <= n < to ==> oks(n) }

  predicate NoneRunning(rows: map<Key, Row>) { forall k :: k in rows ==> rows[k].status == APPLIED }

  predicate NoneRunningBut(rows: map<Key, Row>, item: Item) {
    forall k :: k in rows && k != item.key ==> rows[k].status == APPLIED
  }

  /** Between statements: those before `n` are applied, nothing is open, every answer was good. */
  predicate Between(from: nat, db: Db, s: Script, n: nat, oks: nat -> bool) {
    AllPassed(db.rows, s.items, n) && NoneRunning(db.rows) && from <= |db.log| && Accepted(oks, from, |db.log|)
  }

  /** In the middle of statement `n`: its row alone is open. */
  predicate Amid(db: Db, s: Script, n: nat) {
    n < |s.items| && AllPassed(db.rows, s.items, n) && Open(db.rows, s.items[n]) && NoneRunningBut(db.rows, s.items[n])
  }

  predicate LastSent(from: nat, db: Db, item: Item) { from < |db.log| && db.log[|db.log| - 1] == item }

  /** What a run that passed the checks has done by the time it stands at `pc`. */
  ghost predicate Stands(from: nat, db: Db, s: Script, pc: Pc, oks: nat -> bool) {
    && db.managed && from <= |db.log|
    && match pc
       case At(i) => Between(from, db, s, i, oks)
       case Insert(i) => Between(from, db, s, i, oks) && i < |s.items| && s.items[i].key !in db.rows
       case Exec(i) => Amid(db, s, i) && Accepted(oks, from, |db.log|)
       case Finish(i) => Amid(db, s, i) && Accepted(oks, from, |db.log|) && LastSent(from, db, s.items[i])
       case Ended(end) => Ends(from, db, s, end, oks)
       case _ => false
  }

  /** How it can end. */
  ghost predicate Ends(from: nat, db: Db, s: Script, end: End, oks: nat -> bool) {
    match end
    case Done => s.complete && Between(from, db, s, |s.items|, oks)
    case SplitFailed => !s.complete && Between(from, db, s, |s.items|, oks)
    case ChecksumChanged =>
      exists n :: 0 <= n < |s.items| && Between(from, db, s, n, oks) && Changed(db.rows, s.items[n])
    case StatementFailed =>
      && from < |db.log| && Accepted(oks, from, |db.log| - 1) && !oks(|db.log| - 1)
      && exists n :: 0 <= n < |s.items| && Amid(db, s, n) && LastSent(from, db, s.items[n])
    case _ => false
  }

  lemma StandsStep(from: nat, db: Db, s: Script, pc: Pc, oks: nat -> bool)
    requires ValidPc(s, pc) && DistinctKeys(s.items) && Stands(from, db, s, pc, oks)
    ensures var (db', pc') := Command(db, s, pc, oks(|db.log|)); Stands(from, db', s, pc', oks)
  {
    hide Between, Amid, Ends;
    match pc
    case At(i) => AtStands(from, db, s, i, oks);
    case Insert(i) => InsertStands(from, db, s, i, oks);
    case Exec(i) => ExecStands(from, db, s, i, oks);
    case Finish(i) => FinishStands(from, db, s, i, oks);
    case _ =>
  }

  lemma AtStands(from: nat, db: Db, s: Script, i: nat, oks: nat -> bool)
    requires ValidPc(s, At(i)) && Stands(from, db, s, At(i), oks)
    ensures var (db', pc') := Command(db, s, At(i), oks(|db.log|)); Stands(from, db', s, pc', oks)
  {
  }

  lemma InsertStands(from: nat, db: Db, s: Script, i: nat, oks: nat -> bool)
    requires ValidPc(s, Insert(i)) && DistinctKeys(s.items) && Stands(from, db, s, Insert(i), oks)
    ensures var (db', pc') := Command(db, s, Insert(i), oks(|db.log|)); Stands(from, db', s, pc', oks)
  {
  }

  lemma ExecStands(from: nat, db: Db, s: Script, i: nat, oks: nat -> bool)
    requires ValidPc(s, Exec(i)) && Stands(from, db, s, Exec(i), oks)
    ensures var (db', pc') := Command(db, s, Exec(i), oks(|db.log|)); Stands(from, db', s, pc', oks)
  {
    var db' := Command(db, s, Exec(i), oks(|db.log|)).0;
    assert Amid(db', s, i) && LastSent(from, db', s.items[i]);
  }

  lemma FinishStands(from: nat, db: Db, s: Script, i: nat, oks: nat -> bool)
    requires ValidPc(s, Finish(i)) && DistinctKeys(s.items) && Stands(from, db, s, Finish(i), oks)
    ensures var (db', pc') := Command(db, s, Finish(i), oks(|db.log|)); Stands(from, db', s, pc', oks)
  {
  }

  lemma {:induction false} StandsAlways(from: nat, db: Db, s: Script, pc: Pc, fuel: nat, oks: nat -> bool)
    requires ValidPc(s, pc) && DistinctKeys(s.items) && Stands(from, db, s, pc, oks)
    ensures var r := Drive(db, s, pc, fuel, oks); Stands(from, r.0, s, r.1, oks)
    decreases fuel
  {
    hide Stands, Command;
    if fuel > 0 && !pc.Ended? {
      var (db', pc') := Command(db, s, pc, oks(|db.log|));
      StandsStep(from, db, s, pc, oks);
      StandsAlways(from, db', s, pc', fuel - 1, oks);
    }
  }

  predicate Welcome(db: Db) { (db.managed || db.foreign == 0) && NoneRunning(db.rows) }

  lemma ThreeChecks(db: Db, s: Script, fuel: nat, oks: nat -> bool)
    requires Welcome(db) && fuel >= 3
    ensures Drive(db, s, Inspect, fuel, oks) == Drive(db.(managed := true), s, At(0), fuel - 3, oks)
  {
    hide Drive;
    DriveOne(db, s, Inspect, fuel, oks);
    DriveOne(db, s, Create, fuel - 1, oks);
    DriveOne(db.(managed := true), s, Check, fuel - 2, oks);
  }

  /** Everything a run that gets past the checks can have done, wherever it is stopped: the statements
      before where it stands are applied under their own digests, at most the one it stands at is open,
      and the server accepted every statement it was sent but the last of a failed run. */
  lemma RunStands(db: Db, s: Script, fuel: nat, oks: nat -> bool)
    requires DistinctKeys(s.items) && Welcome(db) && fuel >= 3
    ensures var r := Drive(db, s, Inspect, fuel, oks); Stands(|db.log|, r.0, s, r.1, oks)
  {
    hide Drive;
    ThreeChecks(db, s, fuel, oks);
    StandsAlways(|db.log|, db.(managed := true), s, At(0), fuel - 3, oks);
  }

  lemma {:induction false} NotAmbiguousLater(db: Db, s: Script, pc: Pc, fuel: nat, oks: nat -> bool)
    requires ValidPc(s, pc) && !pc.Inspect? && !pc.Create? && !pc.Check? && pc != Ended(AmbiguousCheckpoint)
    ensures Drive(db, s, pc, fuel, oks).1 != Ended(AmbiguousCheckpoint)
    decreases fuel
  {
    if fuel > 0 && !pc.Ended? {
      var (db', pc') := Command(db, s, pc, oks(|db.log|));
      NotAmbiguousLater(db', s, pc', fuel - 1, oks);
    }
  }

  lemma Turned(db: Db, s: Script, fuel: nat, oks: nat -> bool)
    requires fuel >= 3 && !Welcome(db)
    ensures var r := Drive(db, s, Inspect, fuel, oks);
            && r.0.rows == db.rows && r.0.log == db.log
            && r.1 == Ended(if !db.managed && db.foreign > 0 then Refused else AmbiguousCheckpoint)
  {
    hide Drive;
    DriveOne(db, s, Inspect, fuel, oks);
    if !db.managed && db.foreign > 0 {
      DriveStopped(db, s, Ended(Refused), fuel - 1, oks);
    } else {
      var managed := db.(managed := true);
      DriveOne(db, s, Create, fuel - 1, oks);
      DriveOne(managed, s, Check, fuel - 2, oks);
      assert Ambiguous(db.rows) by {
        var k :| k in db.rows && db.rows[k].status != APPLIED;
        assert db.rows[k].status == RUNNING;
      }
      DriveStopped(managed, s, Ended(AmbiguousCheckpoint), fuel - 3, oks);
    }
  }

  /** Exactly how a run that comes to an end does so: refused for what it found, or by the first statement
      the server did not accept, or by the first record that differs from the plan - and otherwise with
      every statement of the plan applied. */
  lemma EndIs(db: Db, s: Script, fuel: nat, oks: nat -> bool)
    requires DistinctKeys(s.items) && fuel >= 3 && Drive(db, s, Inspect, fuel, oks).1.Ended?
    ensures var (db', pc) := Drive(db, s, Inspect, fuel, oks);
            && (pc.end == Refused <==> !db.managed && db.foreign > 0)
            && (pc.end == AmbiguousCheckpoint <==> (db.managed || db.foreign == 0) && !NoneRunning(db.rows))
            && (pc.end == StatementFailed <==> |db'.log| > |db.log| && !oks(|db'.log| - 1))
            && (pc.end == ChecksumChanged <==>
                  Welcome(db) && exists n :: 0 <= n < |s.items| && FirstChanged(db'.rows, s.items, n))
            && (pc.end == Done <==> Welcome(db) && s.complete && AllPassed(db'.rows, s.items, |s.items|))
            && (pc.end == SplitFailed <==> Welcome(db) && !s.complete && AllPassed(db'.rows, s.items, |s.items|))
  {
    hide Drive;
    if Welcome(db) {
      RunStands(db, s, fuel, oks);
      var (db', pc) := Drive(db, s, Inspect, fuel, oks);
      EndsApart(|db.log|, db', s, pc.end, oks);
    } else {
      Turned(db, s, fuel, oks);
    }
  }

  lemma EndsApart(from: nat, db: Db, s: Script, end: End, oks: nat -> bool)
    requires Ends(from, db, s, end, oks) && from <= |db.log|
    ensures end == StatementFailed <==> |db.log| > from && !oks(|db.log| - 1)
    ensures end == ChecksumChanged <==> exists n :: 0 <= n < |s.items| && FirstChanged(db.rows, s.items, n)
    ensures end == Done <==> s.complete && AllPassed(db.rows, s.items, |s.items|)
    ensures end == SplitFailed <==> !s.complete && AllPassed(db.rows, s.items, |s.items|)
    ensures end in {Done, SplitFailed, ChecksumChanged, StatementFailed}
  {
    match end
    case StatementFailed =>
      var n :| 0 <= n < |s.items| && Amid(db, s, n) && LastSent(from, db, s.items[n]);
      assert !Passed(db.rows, s.items[n]);
    case ChecksumChanged =>
      var n :| 0 <= n < |s.items| && Between(from, db, s, n, oks) && Changed(db.rows, s.items[n]);
      assert !Passed(db.rows, s.items[n]) && FirstChanged(db.rows, s.items, n);
    case _ =>
  }

  // ---------------------------------------------------------------- a run nobody disturbs

  /** From any schema that is managed or empty and holds a prefix of the plan, with every statement
      accepted, the program sends exactly the missing statements and ends normally. */
  lemma UndisturbedMigrates(db: Db, s: Script, fuel: nat, oks: nat -> bool)
    requires s.complete && DistinctKeys(s.items) && Settled(db, s.items) && (db.managed || db.foreign == 0)
    requires (forall n :: oks(n)) && fuel >= 4 * |s.items| + 4
    ensures var r := Drive(db, s, Inspect, fuel, oks);
            r.1 == Ended(Done) && r.0.managed && r.0.log == s.items && r.0.rows == Table(s.items)
  {
    hide Drive, Table, Rows;
    OpenIsAmbiguous(db, s.items);
    assert NoneRunning(db.rows) by {
      forall k | k in db.rows ensures db.rows[k].status == APPLIED { assert db.rows[k].status != RUNNING; }
    }
    ThreeChecks(db, s, fuel, oks);
    var managed := db.(managed := true);
    UndisturbedRunFinishes(managed, s, 0, fuel - 3, oks);
    RunStands(db, s, fuel, oks);
  }

  // ---------------------------------------------------------------- deployments

  /** A schema with tables but no metadata is left exactly as it is by any deployments. */
  lemma {:induction false} UnmanagedIsLeftAlone(w: World, steps: seq<Step>)
    requires ValidWorld(w) && w.procs == map[] && !w.db.managed && w.db.foreign > 0
    ensures DoAll(w, steps).db == w.db
    ensures forall p :: p in DoAll(w, steps).procs ==> DoAll(w, steps).procs[p].pc.Inspect?
  {
    if steps != [] { UnmanagedIsLeftAlone(w, steps[..|steps| - 1]); }
  }

  /** Once any deployment has recorded a checkpoint the schema is managed, so no later one is refused. */
  lemma {:induction false} CheckpointsAreManaged(w: World, steps: seq<Step>)
    requires ValidWorld(w) && Fresh(w)
    ensures DoAll(w, steps).db.rows != map[] ==> DoAll(w, steps).db.managed
    ensures forall p :: p in DoAll(w, steps).procs ==>
              DoAll(w, steps).procs[p].pc.Inspect? || DoAll(w, steps).procs[p].pc.Create? || DoAll(w, steps).db.managed
  {
    if steps != [] { CheckpointsAreManaged(w, steps[..|steps| - 1]); }
  }

  /** The keys of the statements that some deployment was told had been accepted. */
  function AcceptedKeys(w: World, steps: seq<Step>): set<Key>
    requires ValidWorld(w)
  {
    if steps == [] then {}
    else
      var before, v, s := AcceptedKeys(w, steps[..|steps| - 1]), DoAll(w, steps[..|steps| - 1]), steps[|steps| - 1];
      if s.Advance? && s.ok && s.p in v.procs && v.procs[s.p].pc.Exec?
      then before + {v.procs[s.p].script.items[v.procs[s.p].pc.i].key} else before
  }

  ghost predicate OnlyAccepted(w: World, accepted: set<Key>)
    requires ValidWorld(w)
  {
    && (forall k :: k in w.db.rows && w.db.rows[k].status == APPLIED ==> k in accepted)
    && (forall p :: p in w.procs && w.procs[p].pc.Finish? ==>
          w.procs[p].script.items[w.procs[p].pc.i].key in accepted)
  }

  /** Whatever is deployed and wherever it crashes, a statement is only recorded as APPLIED if the server
      accepted it. */
  lemma {:induction false} AppliedWasAccepted(w: World, steps: seq<Step>)
    requires ValidWorld(w) && Fresh(w)
    ensures OnlyAccepted(DoAll(w, steps), AcceptedKeys(w, steps))
  {
    if steps != [] {
      var n := |steps| - 1;
      AppliedWasAccepted(w, steps[..n]);
      AcceptedStep(DoAll(w, steps[..n]), steps[n], AcceptedKeys(w, steps[..n]));
    }
  }

  lemma AcceptedStep(v: World, s: Step, accepted: set<Key>)
    requires ValidWorld(v) && OnlyAccepted(v, accepted)
    ensures OnlyAccepted(Do(v, s), if s.Advance? && s.ok && s.p in v.procs && v.procs[s.p].pc.Exec?
                                   then accepted + {v.procs[s.p].script.items[v.procs[s.p].pc.i].key} else accepted)
  {
  }

  // The one process at a statement has its row open.
  ghost predicate Guarded(w: World)
    requires ValidWorld(w)
  {
    && Exclusive(w)
    && forall p :: p in w.procs && (w.procs[p].pc.Exec? || w.procs[p].pc.Finish?) ==>
      && w.procs[p].script.items[w.procs[p].pc.i].key in w.db.rows
      && w.db.rows[w.procs[p].script.items[w.procs[p].pc.i].key].status == RUNNING
  }

  lemma {:induction false} GuardedAlways(w: World, steps: seq<Step>)
    requires ValidWorld(w) && Fresh(w)
    ensures Guarded(DoAll(w, steps))
  {
    if steps != [] {
      GuardedAlways(w, steps[..|steps| - 1]);
      GuardedStep(DoAll(w, steps[..|steps| - 1]), steps[|steps| - 1]);
    }
  }

  lemma GuardedStep(v: World, s: Step)
    requires ValidWorld(v) && Guarded(v)
    ensures Guarded(Do(v, s))
  {
  }

  lemma {:induction false} DoAllConcat(w: World, a: seq<Step>, b: seq<Step>)
    requires ValidWorld(w)
    ensures DoAll(w, a + b) == DoAll(DoAll(w, a), b)
  {
    if b == [] {
      assert a + b == a;
    } else {
      assert (a + b)[..|a + b| - 1] == a + b[..|b| - 1];
      DoAllConcat(w, a, b[..|b| - 1]);
    }
  }

  /** A statement that the server does not accept stays RUNNING, and nothing is sent or recorded after it
      by any later deployment. */
  lemma RejectedStaysRunning(w: World, steps: seq<Step>, p: Pid, more: seq<Step>)
    requires ValidWorld(w) && Fresh(w)
    requires p in DoAll(w, steps).procs && DoAll(w, steps).procs[p].pc.Exec?
    ensures var v := DoAll(w, steps);
            var item := v.procs[p].script.items[v.procs[p].pc.i];
            var u := DoAll(w, steps + [Advance(p, false)] + more);
            && item.key in v.db.rows && v.db.rows[item.key].status == RUNNING
            && u.db.rows == v.db.rows && u.db.log == v.db.log + [item]
  {
    hide DoAll;
    var v := DoAll(w, steps);
    GuardedAlways(w, steps);
    var item := v.procs[p].script.items[v.procs[p].pc.i];
    var u := Do(v, Advance(p, false));
    assert u.procs == map[] && u.db == v.db.(log := v.db.log + [item]);
    assert Ambiguous(u.db.rows);
    OneStep(v, Advance(p, false));
    DoAllConcat(w, steps, [Advance(p, false)]);
    DoAllConcat(w, steps + [Advance(p, false)], more);
    AmbiguousFreezes(u, more);
  }

  lemma OneStep(w: World, s: Step)
    requires ValidWorld(w)
    ensures DoAll(w, [s]) == Do(w, s)
  {
    assert [s][..0] == [];
  }

  // ---------------------------------------------------------------- the plan

  /** Statement j of file e is item number Base + j of the plan, at position j + 1 of its file: the files
      in order, and the statements of each file in order. */
  lemma PlanOrder(plan: seq<Entry>, e: nat, j: nat)
    requires e < |plan| && Flatten(plan).complete
    ensures Splitter.SplitSpec(plan[e].contents).Success?
    ensures var sts, base := Splitter.SplitSpec(plan[e].contents).value, |Flatten(plan[..e]).items|;
            && |Flatten(plan[..e + 1]).items| == base + |sts| <= |Flatten(plan).items|
            && (e == 0 ==> base == 0) && (e + 1 == |plan| ==> base + |sts| == |Flatten(plan).items|)
            && (j < |sts| ==>
                  Flatten(plan).items[base + j]
                  == Item(Key(plan[e].file, j + 1), plan[e].contents, sts[j]))
  {
    hide Flatten, Splitter.SplitSpec;
    CompletePrefix(plan, e);
    FlattenStep(plan, e);
    CompletePrefix(plan, e + 1);
    FlattenNothing(plan);
    assert plan[..|plan|] == plan;
    var sts := Splitter.SplitSpec(plan[e].contents).value;
    if j < |sts| {
      assert FileItems(plan[e], sts)[j] == Item(Key(plan[e].file, j + 1), Checksum(plan[e].contents), sts[j]);
    }
  }

  lemma CompletePrefix(plan: seq<Entry>, e: nat)
    requires e <= |plan| && Flatten(plan).complete
    ensures Flatten(plan[..e]).complete && Flatten(plan[..e]).items <= Flatten(plan).items
  {
    hide Flatten;
    FlattenPrefix(plan, e);
  }

  /** A plan is whole exactly when every file splits. */
  lemma {:induction false} CompleteIff(plan: seq<Entry>)
    ensures Flatten(plan).complete <==> forall e :: 0 <= e < |plan| ==> Splitter.SplitSpec(plan[e].contents).Success?
  {
    hide Splitter.SplitSpec;
    if plan != [] {
      var n := |plan| - 1;
      CompleteIff(plan[..n]);
      assert plan == plan[..n] + [plan[n]];
    }
  }
}
