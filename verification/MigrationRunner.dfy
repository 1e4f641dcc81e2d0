/** The production migration runner: applies a plan statement by statement under a global
  * lock, with a RUNNING/APPLIED checkpoint row around each statement.
  *
  * `Command` is one database command of the program.  The world of all deployments interleaves
  * those commands with lock acquisition and with crashes at any point; `Database.Migrate` is
  * the program itself, proved to issue exactly those commands.
  */
module MigrationRunner {
  import opened Wrappers
  import Splitter

  datatype Status = RUNNING | APPLIED
  datatype Key = Key(file: string, position: nat)
  datatype Row = Row(fileSum: string, statementSum: string, status: Status)

  // SHA-256 is taken as collision free, so the text stands for its own digest.
  function Checksum(text: string): string { text }

  datatype Entry = Entry(file: string, contents: string)

  /** One statement of a plan, in plan order. */
  datatype Item = Item(key: Key, fileSum: string, text: string)

  function RowOf(item: Item, status: Status): Row { Row(item.fileSum, Checksum(item.text), status) }

  /** The statements of a plan up to the first file that does not split. */
  datatype Script = Script(items: seq<Item>, complete: bool)

  function FileItems(entry: Entry, statements: seq<string>): (items: seq<Item>)
    ensures |items| == |statements|
  {
    seq(|statements|, i requires 0 <= i < |statements| =>
      Item(Key(entry.file, i + 1), Checksum(entry.contents), statements[i]))
  }

  function Flatten(plan: seq<Entry>): Script {
    if plan == [] then Script([], true)
    else
      var front := Flatten(plan[..|plan| - 1]);
      var entry := plan[|plan| - 1];
      var split := Splitter.SplitSpec(entry.contents);
      if !front.complete || split.Failure? then Script(front.items, false)
      else Script(front.items + FileItems(entry, split.value), true)
  }

  // `foreign` counts the base tables found while the schema is still unmanaged.  `log` is not
  // stored anywhere: it is every statement the server was ever sent, in order.
  datatype Db = Db(managed: bool, foreign: nat, rows: map<Key, Row>, log: seq<Item>)

  predicate Ambiguous(rows: map<Key, Row>) { exists k :: k in rows && rows[k].status == RUNNING }

  datatype End = Done | Refused | AmbiguousCheckpoint | ChecksumChanged | NotApplied
               | DuplicateKey | StatementFailed | FencingFailed | SplitFailed | Crashed

  datatype Pc = Inspect | Create | Check | At(i: nat) | Insert(i: nat) | Exec(i: nat) | Finish(i: nat) | Ended(end: End)

  ghost predicate ValidPc(s: Script, pc: Pc) {
    match pc
    case At(i) => i <= |s.items|
    case Insert(i) => i < |s.items|
    case Exec(i) => i < |s.items|
    case Finish(i) => i < |s.items|
    case _ => true
  }

  /** One database command; `ok` says whether the server accepts the migration statement. */
  function Command(db: Db, s: Script, pc: Pc, ok: bool): (r: (Db, Pc))
    requires ValidPc(s, pc)
    ensures ValidPc(s, r.1)
  {
    match pc
    case Inspect => (db, if !db.managed && db.foreign != 0 then Ended(Refused) else Create)
    case Create => (db.(managed := true), Check)
    case Check => (db, if Ambiguous(db.rows) then Ended(AmbiguousCheckpoint) else At(0))
    case At(i) =>
      if i == |s.items| then (db, Ended(if s.complete then Done else SplitFailed))
      else
        var item := s.items[i];
        if item.key !in db.rows then (db, Insert(i))
        else
          var row := db.rows[item.key];
          if row.fileSum != item.fileSum || row.statementSum != Checksum(item.text) then (db, Ended(ChecksumChanged))
          else if row.status != APPLIED then (db, Ended(NotApplied))
          else (db, At(i + 1))
    case Insert(i) =>
      var item := s.items[i];
      if item.key in db.rows then (db, Ended(DuplicateKey))
      else (db.(rows := db.rows[item.key := RowOf(item, RUNNING)]), Exec(i))
    case Exec(i) =>
      (db.(log := db.log + [s.items[i]]), if ok then Finish(i) else Ended(StatementFailed))
    case Finish(i) =>
      var key := s.items[i].key;
      if key in db.rows && db.rows[key].status == RUNNING
      then (db.(rows := db.rows[key := db.rows[key].(status := APPLIED)]), At(i + 1))
      else (db, Ended(FencingFailed))
    case Ended(end) => (db, pc)
  }

  /** A process that issues at most `fuel` commands and then dies. */
  function Drive(db: Db, s: Script, pc: Pc, fuel: nat, ok: nat -> bool): (Db, Pc)
    requires ValidPc(s, pc)
    decreases fuel
  {
    if fuel == 0 || pc.Ended? then (db, pc)
    else
      var (db', pc') := Command(db, s, pc, ok(|db.log|));
      Drive(db', s, pc', fuel - 1, ok)
  }

  lemma DriveOne(db: Db, s: Script, pc: Pc, fuel: nat, oks: nat -> bool)
    requires ValidPc(s, pc) && fuel > 0 && !pc.Ended?
    ensures Drive(db, s, pc, fuel, oks) ==
            var (db', pc') := Command(db, s, pc, oks(|db.log|)); Drive(db', s, pc', fuel - 1, oks)
  {
  }

  lemma DriveStopped(db: Db, s: Script, pc: Pc, fuel: nat, oks: nat -> bool)
    requires ValidPc(s, pc) && (fuel == 0 || pc.Ended?)
    ensures Drive(db, s, pc, fuel, oks) == (db, pc)
  {
  }

  /** A process past its first command is never refused. */
  lemma {:induction false} NotRefusedLater(db: Db, s: Script, pc: Pc, fuel: nat, oks: nat -> bool)
    requires ValidPc(s, pc) && !pc.Inspect? && pc != Ended(Refused)
    ensures Drive(db, s, pc, fuel, oks).1 != Ended(Refused)
    decreases fuel
  {
    if fuel > 0 && !pc.Ended? {
      var (db', pc') := Command(db, s, pc, oks(|db.log|));
      NotRefusedLater(db', s, pc', fuel - 1, oks);
    }
  }

  /** Exactly which schemas are refused: unmanaged ones that hold tables, and nothing is done to them. */
  lemma RefusedIff(db: Db, s: Script, fuel: nat, oks: nat -> bool)
    ensures fuel > 0 ==>
              (Drive(db, s, Inspect, fuel, oks).1 == Ended(Refused) <==> !db.managed && db.foreign > 0)
    ensures Drive(db, s, Inspect, fuel, oks).1 == Ended(Refused) ==> Drive(db, s, Inspect, fuel, oks).0 == db
    ensures fuel == 0 ==> Drive(db, s, Inspect, fuel, oks).1 != Ended(Refused)
  {
    if fuel > 0 {
      var (db', pc') := Command(db, s, Inspect, oks(|db.log|));
      if pc' != Ended(Refused) { NotRefusedLater(db', s, pc', fuel - 1, oks); }
      DriveOne(db, s, Inspect, fuel, oks);
    }
  }

  /** How a process ended; one that merely stopped issuing commands has crashed. */
  function Outcome(pc: Pc): End { if pc.Ended? then pc.end else Crashed }

  // ---------------------------------------------------------------- the program

  lemma {:induction false} FlattenPrefix(plan: seq<Entry>, e: nat)
    requires e <= |plan|
    ensures Flatten(plan[..e]).items <= Flatten(plan).items
    ensures !Flatten(plan[..e]).complete ==> Flatten(plan) == Flatten(plan[..e])
  {
    if e == |plan| {
      assert plan[..e] == plan;
    } else {
      var p := plan[..|plan| - 1];
      FlattenPrefix(p, e);
      assert p[..e] == plan[..e];
    }
  }

  // What file `e` adds to the plan once the files before it have all split.
  lemma FlattenStep(plan: seq<Entry>, e: nat)
    requires e < |plan| && Flatten(plan[..e]).complete
    ensures var split := Splitter.SplitSpec(plan[e].contents);
            && (split.Failure? ==> Flatten(plan) == Script(Flatten(plan[..e]).items, false))
            && (split.Success? ==>
                && Flatten(plan[..e + 1]) == Script(Flatten(plan[..e]).items + FileItems(plan[e], split.value), true)
                && Flatten(plan[..e + 1]).items <= Flatten(plan).items)
  {
    assert plan[..e + 1][..e] == plan[..e];
    FlattenPrefix(plan, e + 1);
  }

  class Database {
    var managed: bool
    var foreign: nat
    var rows: map<Key, Row>
    var log: seq<Item>

    ghost function State(): Db reads this { Db(managed, foreign, rows, log) }

    method FindRunning() returns (found: bool)
      ensures found == Ambiguous(rows)
    {
      var keys := rows.Keys;
      while keys != {}
        invariant keys <= rows.Keys
        invariant forall k :: k in rows && k !in keys ==> rows[k].status != RUNNING
      {
        var k :| k in keys;
        if rows[k].status == RUNNING { return true; }
        keys := keys - {k};
      }
      return false;
    }

    // One checkpointed statement, number `i` of the plan.
    method Apply(ghost s: Script, ghost i: nat, item: Item, fuel: nat, oks: nat -> bool)
      returns (end: Option<End>, left: nat)
      requires i < |s.items| && s.items[i] == item
      modifies this
      ensures var r := Drive(old(State()), s, At(i), fuel, oks);
              match end
              case None => r == Drive(State(), s, At(i + 1), left, oks)
              case Some(e) => r.0 == State() && Outcome(r.1) == e
    {
      hide Drive;
      left := fuel;
      ghost var r := Drive(State(), s, At(i), fuel, oks);
      if left == 0 {
        DriveStopped(State(), s, At(i), 0, oks);
        return Some(Crashed), left;
      }
      DriveOne(State(), s, At(i), left, oks);
      left := left - 1;
      if item.key in rows {
        var row := rows[item.key];
        if row.fileSum != item.fileSum || row.statementSum != Checksum(item.text) {
          DriveStopped(State(), s, Ended(ChecksumChanged), left, oks);
          return Some(ChecksumChanged), left;
        }
        if row.status != APPLIED {
          DriveStopped(State(), s, Ended(NotApplied), left, oks);
          return Some(NotApplied), left;
        }
        return None, left;
      }
      if left == 0 {
        DriveStopped(State(), s, Insert(i), 0, oks);
        return Some(Crashed), left;
      }
      DriveOne(State(), s, Insert(i), left, oks);
      left := left - 1;
      rows := rows[item.key := RowOf(item, RUNNING)];
      if left == 0 {
        DriveStopped(State(), s, Exec(i), 0, oks);
        return Some(Crashed), left;
      }
      DriveOne(State(), s, Exec(i), left, oks);
      left := left - 1;
      var ok := oks(|log|);
      log := log + [item];
      if !ok {
        DriveStopped(State(), s, Ended(StatementFailed), left, oks);
        return Some(StatementFailed), left;
      }
      if left == 0 {
        DriveStopped(State(), s, Finish(i), 0, oks);
        return Some(Crashed), left;
      }
      DriveOne(State(), s, Finish(i), left, oks);
      left := left - 1;
      if item.key !in rows || rows[item.key].status != RUNNING {
        DriveStopped(State(), s, Ended(FencingFailed), left, oks);
        return Some(FencingFailed), left;
      }
      rows := rows[item.key := rows[item.key].(status := APPLIED)];
      return None, left;
    }

    // The checks before the first statement.
    method Prepare(ghost s: Script, fuel: nat, ghost oks: nat -> bool) returns (end: Option<End>, left: nat)
      modifies this
      ensures var r := Drive(old(State()), s, Inspect, fuel, oks);
              match end
              case None => r == Drive(State(), s, At(0), left, oks)
              case Some(e) => r.0 == State() && Outcome(r.1) == e
    {
      left := fuel;
      ghost var r := Drive(State(), s, Inspect, fuel, oks);
      if left == 0 { return Some(Crashed), left; }
      left := left - 1;
      if !managed && foreign != 0 { return Some(Refused), left; }
      assert r == Drive(State(), s, Create, left, oks);
      if left == 0 { return Some(Crashed), left; }
      left := left - 1;
      managed := true;
      assert r == Drive(State(), s, Check, left, oks);
      if left == 0 { return Some(Crashed), left; }
      left := left - 1;
      var found := FindRunning();
      assert r == Drive(State(), s, if found then Ended(AmbiguousCheckpoint) else At(0), left, oks);
      if found { return Some(AmbiguousCheckpoint), left; }
      return None, left;
    }

    // The statements of one file, which start at number `base` of the plan.
    method ApplyFile(ghost s: Script, ghost base: nat, entry: Entry, statements: seq<string>, fuel: nat,
                     oks: nat -> bool)
      returns (end: Option<End>, left: nat)
      requires base + |statements| <= |s.items|
      requires s.items[base..base + |statements|] == FileItems(entry, statements)
      modifies this
      ensures var r := Drive(old(State()), s, At(base), fuel, oks);
              match end
              case None => r == Drive(State(), s, At(base + |statements|), left, oks)
              case Some(e) => r.0 == State() && Outcome(r.1) == e
    {
      hide Drive;
      left := fuel;
      for index := 0 to |statements|
        invariant Drive(old(State()), s, At(base), fuel, oks) == Drive(State(), s, At(base + index), left, oks)
      {
        var item := Item(Key(entry.file, index + 1), Checksum(entry.contents), statements[index]);
        assert s.items[base + index] == s.items[base..base + |statements|][index] == item;
        end, left := Apply(s, base + index, item, left, oks);
        if end.Some? { return end, left; }
      }
      return None, left;
    }

    /** The program from the moment it holds the lock; it dies after `fuel` commands.  A schema that
        holds tables but no migration metadata is refused and left as it is. */
    method Migrate(plan: seq<Entry>, fuel: nat, oks: nat -> bool) returns (end: End)
      modifies this
      ensures var r := Drive(old(State()), Flatten(plan), Inspect, fuel, oks);
              State() == r.0 && end == Outcome(r.1)
      ensures fuel > 0 && !old(managed) && old(foreign) > 0 ==> end == Refused && State() == old(State())
      ensures old(managed) || old(foreign) == 0 ==> end != Refused
    {
      hide Drive, Flatten, Splitter.SplitSpec;
      RefusedIff(State(), Flatten(plan), fuel, oks);
      ghost var s := Flatten(plan);
      ghost var r := Drive(State(), s, Inspect, fuel, oks);
      var stop, left := Prepare(s, fuel, oks);
      if stop.Some? { return stop.value; }
      ghost var i: nat := 0;
      FlattenNothing(plan);
      for e := 0 to |plan|
        invariant Flatten(plan[..e]).complete && i == |Flatten(plan[..e]).items| <= |s.items|
        invariant r == Drive(State(), s, At(i), left, oks)
      {
        var entry := plan[e];
        var split := Splitter.SplitStatements(entry.contents);
        FlattenStep(plan, e);
        if split.Failure? {
          DriveEnd(State(), s, left, oks);
          return if left == 0 then Crashed else SplitFailed;
        }
        ghost var items := FileItems(entry, split.value);
        assert s.items[i..i + |items|] == Flatten(plan[..e + 1]).items[i..] == items;
        stop, left := ApplyFile(s, i, entry, split.value, left, oks);
        if stop.Some? { return stop.value; }
        i := i + |items|;
      }
      assert plan[..|plan|] == plan;
      DriveEnd(State(), s, left, oks);
      return if left == 0 then Crashed else Done;
    }
  }

  lemma DriveEnd(db: Db, s: Script, fuel: nat, oks: nat -> bool)
    ensures Drive(db, s, At(|s.items|), fuel, oks) ==
            (db, if fuel == 0 then At(|s.items|) else Ended(if s.complete then Done else SplitFailed))
  {
    if fuel > 0 {
      var end := Ended(if s.complete then Done else SplitFailed);
      assert Drive(db, s, end, fuel - 1, oks) == (db, end);
    }
  }

  lemma FlattenNothing(plan: seq<Entry>)
    ensures Flatten(plan[..0]) == Script([], true)
  {
  }
}
