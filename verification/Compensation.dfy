/** The portal invite compensation queue: half-finished provisioning steps are retried by workers
  * that claim a task under a version fence.  Completing a role task enqueues the mapping task that
  * continues the chain; completing a mapping task writes the CRM identity link.
  */
module Compensation {
  import opened Wrappers
  import Splitter

  type Time = int
  type Key = (string, string)              // tenant, task number
  type LinkKey = (string, nat, nat)        // tenant, customer, contact

  const DELAYS: seq<Time> := [60, 300, 900, 3600, 10800, 21600]

  datatype Kind = ROLE | MAPPING | BINDING | BINDING_DISABLE | UNKNOWN
  datatype Status = PENDING | PROCESSING | RETRY_WAIT | SUCCEEDED | DEAD_LETTER
  datatype Identity = Identity(customer: nat, contact: nat, user: string, account: string)
  datatype Task = Task(
    kind: Kind, who: Identity, status: Status, attempts: nat, nextRetryAt: Option<Time>,
    lockedBy: string, lockedUntil: Option<Time>, version: nat)

  datatype LinkStatus = WAITING | ACTIVE | DISABLED
  datatype Link = Link(user: string, portalAccount: string, status: LinkStatus, version: nat)

  datatype Db = Db(tasks: map<Key, Task>, links: map<LinkKey, Link>)

  /** A worker's copy of a task it claimed. */
  datatype Copy = Copy(key: Key, task: Task)

  function NewTask(kind: Kind, who: Identity): Task { Task(kind, who, PENDING, 0, None, "", None, 1) }

  predicate Claimable(t: Task, now: Time) {
    || ((t.status == PENDING || t.status == RETRY_WAIT) && (t.nextRetryAt.None? || t.nextRetryAt.value <= now))
    || (t.status == PROCESSING && t.lockedUntil.Some? && t.lockedUntil.value < now)
  }

  function Locked(t: Task, worker: string, until: Time): Task {
    t.(status := PROCESSING, lockedBy := worker, lockedUntil := Some(until), version := t.version + 1)
  }

  function ClaimSpec(db: Db, key: Key, worker: string, now: Time, lease: Time): (Db, Option<Copy>) {
    if key in db.tasks && Claimable(db.tasks[key], now) then
      var t := Locked(db.tasks[key], worker, now + lease);
      (db.(tasks := db.tasks[key := t]), Some(Copy(key, t)))
    else (db, None)
  }

  /** The row is still the version this copy was taken at. */
  predicate Fenced(db: Db, worker: string, c: Copy) {
    && c.key in db.tasks
    && var t := db.tasks[c.key];
       t.version == c.task.version && t.status == PROCESSING && t.lockedBy == worker
  }

  function Released(t: Task, status: Status, attempts: nat, next: Option<Time>): Task {
    t.(status := status, attempts := attempts, nextRetryAt := next, lockedBy := "", lockedUntil := None,
       version := t.version + 1)
  }

  function CompleteSpec(db: Db, worker: string, c: Copy): (Db, bool) {
    if !Fenced(db, worker, c) then (db, false)
    else (db.(tasks := db.tasks[c.key := Released(db.tasks[c.key], SUCCEEDED, db.tasks[c.key].attempts, None)]), true)
  }

  function ChildNo(no: string): string {
    if no != "" && no[|no| - 1] == 'R' then no[..|no| - 1] + "M" else no + "M"
  }

  function ChildKey(key: Key): Key { (key.0, ChildNo(key.1)) }

  /** The first row with the child's number, or a new one. */
  function WithChild(db: Db, c: Copy): Db {
    if ChildKey(c.key) in db.tasks then db
    else db.(tasks := db.tasks[ChildKey(c.key) := NewTask(MAPPING, c.task.who)])
  }

  function CompleteRoleSpec(db: Db, worker: string, c: Copy): (Db, bool) {
    var (after, ok) := CompleteSpec(WithChild(db, c), worker, c);
    if ok then (after, true) else (db, false)
  }

  function LinkOf(c: Copy): LinkKey { (c.key.0, c.task.who.customer, c.task.who.contact) }

  predicate UserTaken(db: Db, tenant: string, user: string) {
    exists k :: k in db.links && k.0 == tenant && db.links[k].user == user
  }

  /** The link with the mapping's account, or None where the transaction must not go through. */
  function LinkAfter(db: Db, c: Copy, portalAccount: string): Option<Link> {
    var k := LinkOf(c);
    if portalAccount == "" then None
    else if k in db.links then
      var l := db.links[k];
      if l.user != c.task.who.user || (l.portalAccount != "" && l.portalAccount != portalAccount)
          || l.status == DISABLED then None
      else Some(l.(portalAccount := portalAccount, status := WAITING, version := l.version + 1))
    else if UserTaken(db, c.key.0, c.task.who.user) then None
    else Some(Link(c.task.who.user, portalAccount, WAITING, 1))
  }

  function CompleteMappingSpec(db: Db, worker: string, c: Copy, portalAccount: string): (Db, bool) {
    var link := LinkAfter(db, c, portalAccount);
    if link.None? || !Fenced(db, worker, c) then (db, false)
    else CompleteSpec(db.(links := db.links[LinkOf(c) := link.value]), worker, c)
  }

  function FailurePlan(now: Time, attempts: nat): (Status, Option<Time>) {
    if 0 < attempts <= |DELAYS| then (RETRY_WAIT, Some(now + DELAYS[attempts - 1])) else (DEAD_LETTER, None)
  }

  function FailedSpec(db: Db, worker: string, c: Copy, now: Time): (Db, bool) {
    if !Fenced(db, worker, c) then (db, false)
    else
      var (status, next) := FailurePlan(now, c.task.attempts + 1);
      (db.(tasks := db.tasks[c.key := Released(db.tasks[c.key], status, c.task.attempts + 1, next)]), true)
  }

  predicate Invalid(c: Copy) {
    || Splitter.Trim(c.key.0) == "" || Splitter.Trim(c.key.1) == "" || c.task.who.customer == 0
       || c.task.who.contact == 0
    || Splitter.Trim(c.task.who.user) == "" || Splitter.Trim(c.task.who.account) == ""
  }

  predicate BindingFenced(db: Db, c: Copy) {
    && c.task.kind == BINDING && LinkOf(c) in db.links
    && db.links[LinkOf(c)].user == c.task.who.user && db.links[LinkOf(c)].status == DISABLED
  }

  /** What the world outside the database does while a task is dispatched: the licence, the remote
      call (its account where it succeeds), the repair adapter, the reading of the fence. */
  datatype Answer = Answer(licensed: bool, remote: Option<string>, configured: bool, fenceRead: bool, at: Time)

  /** `called`: the remote system was asked; `accepted`: the task row was settled. */
  datatype Report = Report(called: bool, accepted: bool)

  function DispatchSpec(db: Db, worker: string, c: Copy, a: Answer): (Db, Report) {
    var (failed, ok) := FailedSpec(db, worker, c, a.at);
    if !a.licensed then (db, Report(false, false))
    else if Invalid(c) then (failed, Report(false, ok))
    else
      match c.task.kind
      case ROLE =>
        if a.remote.None? then (failed, Report(true, ok))
        else (CompleteRoleSpec(db, worker, c).0, Report(true, CompleteRoleSpec(db, worker, c).1))
      case MAPPING =>
        if a.remote.None? || Splitter.Trim(a.remote.value) == "" then (failed, Report(true, ok))
        else (CompleteMappingSpec(db, worker, c, a.remote.value).0,
              Report(true, CompleteMappingSpec(db, worker, c, a.remote.value).1))
      case UNKNOWN => (failed, Report(false, ok))
      case _ =>
        if !a.configured || (c.task.kind == BINDING && !a.fenceRead) || BindingFenced(db, c)
        then (failed, Report(false, ok))
        else if a.remote.None? then (failed, Report(true, ok))
        else (CompleteSpec(db, worker, c).0, Report(true, CompleteSpec(db, worker, c).1))
  }

  class TaskStore {
    var tasks: map<Key, Task>
    var links: map<LinkKey, Link>

    function State(): Db reads this { Db(tasks, links) }

    /** `picked` are the rows that SKIP LOCKED hands to this transaction. */
    method Claim(picked: seq<Key>, worker: string, now: Time, lease: Time) returns (claimed: seq<Copy>)
      modifies this`tasks
      ensures (State(), claimed) == ClaimAll(old(State()), picked, worker, now, lease)
    {
      claimed := [];
      for i := 0 to |picked|
        invariant (State(), claimed) == ClaimAll(old(State()), picked[..i], worker, now, lease)
      {
        assert picked[..i + 1][..i] == picked[..i];
        assert claimed + [] == claimed;
        if picked[i] in tasks && Claimable(tasks[picked[i]], now) {
          var t := tasks[picked[i]];
          t := t.(status := PROCESSING, lockedBy := worker, lockedUntil := Some(now + lease), version := t.version + 1);
          tasks := tasks[picked[i] := t];
          claimed := claimed + [Copy(picked[i], t)];
        }
      }
      assert picked[..|picked|] == picked;
    }

    method Complete(worker: string, c: Copy) returns (ok: bool)
      modifies this`tasks
      ensures (State(), ok) == CompleteSpec(old(State()), worker, c)
    {
      if c.key !in tasks { return false; }
      var t := tasks[c.key];
      if t.version != c.task.version || t.status != PROCESSING || t.lockedBy != worker { return false; }
      tasks := tasks[c.key :=
                     t.(status := SUCCEEDED, nextRetryAt := None, lockedBy := "", lockedUntil := None,
                        version := t.version + 1)];
      return true;
    }

    method CompleteRole(worker: string, c: Copy) returns (ok: bool)
      modifies this`tasks
      ensures (State(), ok) == CompleteRoleSpec(old(State()), worker, c)
    {
      var savepoint := tasks;
      var next := c.key.1 + "M";
      if c.key.1 != "" && c.key.1[|c.key.1| - 1] == 'R' { next := c.key.1[..|c.key.1| - 1] + "M"; }
      if (c.key.0, next) !in tasks {
        tasks := tasks[(c.key.0, next) := Task(MAPPING, c.task.who, PENDING, 0, None, "", None, 1)];
      }
      ok := Complete(worker, c);
      if !ok { tasks := savepoint; }
    }

    method CompleteMapping(worker: string, c: Copy, portalAccount: string) returns (ok: bool)
      modifies this
      ensures (State(), ok) == CompleteMappingSpec(old(State()), worker, c, portalAccount)
    {
      if portalAccount == "" { return false; }
      var savepoint := links;
      var k := (c.key.0, c.task.who.customer, c.task.who.contact);
      if k in links {
        var link := links[k];
        if link.user != c.task.who.user
            || (link.portalAccount != "" && link.portalAccount != portalAccount) { return false; }
        if link.status == DISABLED { return false; }
        links := links[k := link.(portalAccount := portalAccount, status := WAITING, version := link.version + 1)];
      } else {
        if UserTaken(State(), c.key.0, c.task.who.user) { return false; }
        links := links[k := Link(c.task.who.user, portalAccount, WAITING, 1)];
      }
      ok := Complete(worker, c);
      if !ok { links := savepoint; }
    }

    method Failed(worker: string, c: Copy, now: Time) returns (ok: bool)
      modifies this`tasks
      ensures (State(), ok) == FailedSpec(old(State()), worker, c, now)
    {
      var attempt := c.task.attempts + 1;
      var (status, next) := FailurePlan(now, attempt);
      if c.key !in tasks { return false; }
      var t := tasks[c.key];
      if t.version != c.task.version || t.status != PROCESSING || t.lockedBy != worker { return false; }
      tasks := tasks[c.key :=
                     t.(status := status, attempts := attempt, nextRetryAt := next, lockedBy := "", lockedUntil := None,
                                 version := t.version + 1)];
      return true;
    }

    method Dispatch(worker: string, c: Copy, a: Answer) returns (r: Report)
      modifies this
      ensures (State(), r) == DispatchSpec(old(State()), worker, c, a)
    {
      hide FailedSpec, CompleteSpec, CompleteRoleSpec, CompleteMappingSpec, Splitter.Trim;
      if !a.licensed { return Report(false, false); }
      var ok;
      if Invalid(c) {
        ok := Failed(worker, c, a.at);
        return Report(false, ok);
      }
      match c.task.kind
      case ROLE =>
        if a.remote.None? { ok := Failed(worker, c, a.at); } else { ok := CompleteRole(worker, c); }
        return Report(true, ok);
      case MAPPING =>
        if a.remote.None? || Splitter.Trim(a.remote.value) == "" { ok := Failed(worker, c, a.at); }
        else { ok := CompleteMapping(worker, c, a.remote.value); }
        return Report(true, ok);
      case UNKNOWN =>
        ok := Failed(worker, c, a.at);
        return Report(false, ok);
      case _ =>
        if !a.configured || (c.task.kind == BINDING && !a.fenceRead) || BindingFenced(State(), c) {
          ok := Failed(worker, c, a.at);
          return Report(false, ok);
        }
        if a.remote.None? { ok := Failed(worker, c, a.at); } else { ok := Complete(worker, c); }
        return Report(true, ok);
    }

    /** One poll: claim a batch, then dispatch every task of it, whatever happens to the others. */
    method RunOnce(picked: seq<Key>, worker: string, now: Time, lease: Time, answers: map<Key, Answer>)
      returns (count: nat)
      requires forall k :: k in picked ==> k in answers
      modifies this
      ensures var (claimed, copies) := ClaimAll(old(State()), picked, worker, now, lease);
              State() == DispatchAll(claimed, copies, worker, answers) && count == |copies|
    {
      hide DispatchSpec, ClaimSpec;
      var copies := Claim(picked, worker, now, lease);
      ghost var claimed := State();
      for i := 0 to |copies|
        invariant State() == DispatchAll(claimed, copies[..i], worker, answers)
      {
        assert copies[..i + 1][..i] == copies[..i];
        if copies[i].key in answers { var _ := Dispatch(worker, copies[i], answers[copies[i].key]); }
      }
      assert copies[..|copies|] == copies;
      return |copies|;
    }
  }

  function ClaimAll(db: Db, picked: seq<Key>, worker: string, now: Time, lease: Time): (Db, seq<Copy>) {
    if picked == [] then (db, [])
    else
      var (before, copies) := ClaimAll(db, picked[..|picked| - 1], worker, now, lease);
      var (after, c) := ClaimSpec(before, picked[|picked| - 1], worker, now, lease);
      (after, copies + if c.Some? then [c.value] else [])
  }

  function DispatchAll(db: Db, copies: seq<Copy>, worker: string, answers: map<Key, Answer>): Db {
    if copies == [] then db
    else
      var c := copies[|copies| - 1];
      var before := DispatchAll(db, copies[..|copies| - 1], worker, answers);
      if c.key in answers then DispatchSpec(before, worker, c, answers[c.key]).0 else before
  }

  // ---------------------------------------------------------------- everybody together

  /** `held`: the copy each worker has of each task it claimed; `ops`: the identity behind each
      operation number, fixed once the operation provisioned it. */
  datatype World = World(db: Db, held: map<(string, Key), Task>, ops: map<Key, Identity>)

  datatype Step =
    | Enqueue(tenant: string, op: string, kind: Kind, who: Identity)
    | Take(key: Key, worker: string, now: Time, lease: Time)
    | Dispatch(key: Key, worker: string, answer: Answer)
    | SetLink(link: LinkKey, status: LinkStatus)
    | UpsertLink(link: LinkKey, user: string, account: string, found: LinkKey)
    | Stop(worker: string)

  function Suffix(kind: Kind): char {
    match kind case ROLE => 'R' case MAPPING => 'M' case UNKNOWN => '?' case _ => 'B'
  }

  function Do(w: World, s: Step): World {
    match s
    case Enqueue(tenant, op, kind, who) =>      // the invite service: one key per operation and step
      if kind == UNKNOWN || ((tenant, op) in w.ops && w.ops[(tenant, op)] != who) then w
      else
        var key := (tenant, op + [Suffix(kind)]);
        w.(ops := w.ops[(tenant, op) := who],
           db := if key in w.db.tasks then w.db else w.db.(tasks := w.db.tasks[key := NewTask(kind, who)]))
    case Take(key, worker, now, lease) =>
      var (db, c) := ClaimSpec(w.db, key, worker, now, lease);
      w.(db := db, held := if c.Some? then w.held[(worker, key) := c.value.task] else w.held)
    case Dispatch(key, worker, answer) =>
      if (worker, key) !in w.held then w
      else w.(db := DispatchSpec(w.db, worker, Copy(key, w.held[(worker, key)]), answer).0,
              held := w.held - {(worker, key)})
    case SetLink(link, status) =>                // activation and disabling by the invite service
      if link !in w.db.links then w
      else
        var l := w.db.links[link];
        w.(db := w.db.(links := w.db.links[link := l.(status := status, version := l.version + 1)]))
    case UpsertLink(link, user, account, found) => w.(db := UpsertSpec(w.db, link, user, account, found))
    case Stop(worker) => w.(held := map a | a in w.held && a.0 != worker :: w.held[a])
  }

  /** The invite service's own link, at the end of an operation that went through: a new one, or the row
      `found` for the user or the contact, back to WAITING if it is this link and not DISABLED. */
  function UpsertSpec(db: Db, link: LinkKey, user: string, account: string, found: LinkKey): Db {
    if Splitter.Trim(account) == "" then db
    else if link !in db.links && !UserTaken(db, link.0, user) then
      db.(links := db.links[link := Link(user, account, WAITING, 1)])
    else if found != link || link !in db.links || db.links[link].portalAccount != account
        || db.links[link].status == DISABLED
    then db
    else db.(links := db.links[link := db.links[link].(status := WAITING, version := db.links[link].version + 1)])
  }

  function DoAll(w: World, steps: seq<Step>): World {
    if steps == [] then w else Do(DoAll(w, steps[..|steps| - 1]), steps[|steps| - 1])
  }

  predicate Initial(w: World) { w.db.tasks == map[] && w.db.links == map[] && w.held == map[] && w.ops == map[] }
}
