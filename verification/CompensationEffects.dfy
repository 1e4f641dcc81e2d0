/** What dispatching a compensation task needs and does, in terms of the task's row, the link and the
  * world's answers; and that no task succeeds without the remote system's word.
  */
module CompensationEffects {
  import opened Wrappers
  import opened Compensation
  import opened CompensationLaws
  import Splitter

  // ---------------------------------------------------------------- claiming

  /** The row is in work by this worker, and its lease runs at least until `until`. */
  predicate InWork(db: Db, key: Key, worker: string, until: Time) {
    && key in db.tasks && db.tasks[key].status == PROCESSING && db.tasks[key].lockedBy == worker
    && db.tasks[key].lockedUntil.Some? && until <= db.tasks[key].lockedUntil.value
  }

  /** Exactly which tasks are handed out: due ones and those whose lease has run out; the taker then holds
      the task at its next version for the length of its lease. */
  lemma ClaimedIff(db: Db, key: Key, worker: string, now: Time, lease: Time)
    ensures var (after, c) := ClaimSpec(db, key, worker, now, lease);
            && (c.Some? <==>
                  && key in db.tasks
                  && var t := db.tasks[key];
                     || ((t.status == PENDING || t.status == RETRY_WAIT)
                         && (t.nextRetryAt == None || t.nextRetryAt.value <= now))
                     || (t.status == PROCESSING && t.lockedUntil.Some? && t.lockedUntil.value < now))
            && (c.None? ==> after == db)
            && (c.Some? ==>
                  && InWork(after, key, worker, now + lease) && c.value == Copy(key, after.tasks[key])
                  && after.tasks[key].version == db.tasks[key].version + 1
                  && after.tasks[key].attempts == db.tasks[key].attempts)
  {
  }

  /** Nobody claims a task whose lease has not run out: asking changes nothing at all. */
  lemma LeaseExcludes(w: World, key: Key, worker: string, other: string, now: Time, lease: Time)
    requires InWork(w.db, key, worker, now)
    ensures Do(w, Take(key, other, now, lease)) == w
  {
  }

  // ---------------------------------------------------------------- dispatching

  /** The row is still as this worker took it. */
  predicate Holds(db: Db, worker: string, c: Copy) {
    && c.key in db.tasks && db.tasks[c.key].status == PROCESSING && db.tasks[c.key].lockedBy == worker
    && db.tasks[c.key].version == c.task.version
  }

  predicate WellFormed(c: Copy) {
    && Splitter.Trim(c.key.0) != "" && Splitter.Trim(c.key.1) != ""
    && c.task.who.customer > 0 && c.task.who.contact > 0
    && Splitter.Trim(c.task.who.user) != "" && Splitter.Trim(c.task.who.account) != ""
  }

  /** The person's link, if it is the task's own, is not DISABLED. */
  predicate NotDisabled(db: Db, c: Copy) {
    var l := (c.key.0, c.task.who.customer, c.task.who.contact);
    l in db.links && db.links[l].user == c.task.who.user ==> db.links[l].status != DISABLED
  }

  /** The remote system is asked. */
  predicate MayCall(db: Db, c: Copy, a: Answer) {
    && a.licensed && WellFormed(c)
    && match c.task.kind
       case ROLE => true
       case MAPPING => true
       case BINDING => a.configured && a.fenceRead && NotDisabled(db, c)
       case BINDING_DISABLE => a.configured
       case UNKNOWN => false
  }

  /** It was asked and said yes; for a mapping with an account. */
  predicate SaidYes(db: Db, c: Copy, a: Answer) {
    MayCall(db, c, a) && a.remote.Some? && (c.task.kind == MAPPING ==> Splitter.Trim(a.remote.value) != "")
  }

  /** How long a task waits after its n-th failure; there is no wait after the seventh. */
  function WaitAfter(n: nat): Option<Time> {
    if n == 1 then Some(60) else if n == 2 then Some(300) else if n == 3 then Some(900)
    else if n == 4 then Some(3600) else if n == 5 then Some(10800) else if n == 6 then Some(21600) else None
  }

  /** The row after a failure: one more attempt, released, waiting or dead. */
  predicate FailedOnce(t: Task, t': Task, now: Time) {
    && t'.attempts == t.attempts + 1 && t'.version == t.version + 1 && t'.lockedBy == "" && t'.lockedUntil == None
    && t'.kind == t.kind && t'.who == t.who
    && (WaitAfter(t'.attempts).Some? ==>
          t'.status == RETRY_WAIT && t'.nextRetryAt == Some(now + WaitAfter(t'.attempts).value))
    && (WaitAfter(t'.attempts).None? ==> t'.status == DEAD_LETTER && t'.nextRetryAt == None)
  }

  predicate OnlyRow(db: Db, db': Db, key: Key) {
    && db'.links == db.links && db'.tasks.Keys == db.tasks.Keys
    && forall k :: k in db.tasks && k != key ==> db'.tasks[k] == db.tasks[k]
  }

  lemma Delays(n: nat, now: Time)
    ensures var (status, next) := FailurePlan(now, n + 1);
            if WaitAfter(n + 1).Some? then status == RETRY_WAIT && next == Some(now + WaitAfter(n + 1).value)
            else status == DEAD_LETTER && next == None
  {
  }

  /** Where the remote system was not asked or did not say yes: nothing becomes SUCCEEDED, no task is
      created, no link changes; a task that was licensed and is still the worker's own counts one failure,
      and any other stays as it is. */
  lemma NoIsAFailure(db: Db, worker: string, c: Copy, a: Answer)
    requires !SaidYes(db, c, a) && (Holds(db, worker, c) ==> c.task.attempts == db.tasks[c.key].attempts)
    ensures var (after, r) := DispatchSpec(db, worker, c, a);
            && (r.called <==> MayCall(db, c, a)) && (r.accepted <==> a.licensed && Holds(db, worker, c))
            && (!r.accepted ==> after == db)
            && (r.accepted ==>
                  && OnlyRow(db, after, c.key) && c.key in after.tasks
                  && FailedOnce(db.tasks[c.key], after.tasks[c.key], a.at))
  {
    hide Splitter.Trim, ChildNo, CompleteRoleSpec, CompleteMappingSpec, CompleteSpec;
    Delays(c.task.attempts, a.at);
  }

  /** Where it said yes: the task is SUCCEEDED exactly if it is still the worker's own and, for a mapping,
      the link could be written; otherwise nothing changes. */
  lemma YesSucceeds(db: Db, worker: string, c: Copy, a: Answer)
    requires SaidYes(db, c, a)
    ensures var (after, r) := DispatchSpec(db, worker, c, a);
            && r.called
            && (r.accepted <==>
                  Holds(db, worker, c) && (c.task.kind == MAPPING ==> LinkAfter(db, c, a.remote.value).Some?))
            && (!r.accepted ==> after == db)
            && (r.accepted ==>
                  && c.key in after.tasks && after.tasks[c.key].status == SUCCEEDED
                  && after.tasks[c.key].attempts == db.tasks[c.key].attempts
                  && after.tasks[c.key].version == db.tasks[c.key].version + 1
                  && (c.task.kind != MAPPING ==> after.links == db.links)
                  && after.tasks.Keys == db.tasks.Keys + (if c.task.kind == ROLE then {ChildKey(c.key)} else {})
                  && (forall k :: k in db.tasks && k != c.key ==> after.tasks[k] == db.tasks[k])
                  && (c.task.kind == ROLE && ChildKey(c.key) !in db.tasks ==>
                        after.tasks[ChildKey(c.key)] == Task(MAPPING, c.task.who, PENDING, 0, None, "", None, 1)))
  {
    hide Splitter.Trim, LinkAfter;
    ChildIsAnother(c.key.1);
  }

  // ---------------------------------------------------------------- over whole runs

  /** The tasks for which some dispatch in the run was told yes. */
  function Granted(w: World, steps: seq<Step>): set<Key> {
    if steps == [] then {}
    else
      var before, v, s := Granted(w, steps[..|steps| - 1]), DoAll(w, steps[..|steps| - 1]), steps[|steps| - 1];
      if s.Dispatch? && (s.worker, s.key) in v.held
         && SaidYes(v.db, Copy(s.key, v.held[(s.worker, s.key)]), s.answer)
      then before + {s.key} else before
  }

  predicate OnlyGranted(db: Db, granted: set<Key>) {
    forall k :: k in db.tasks && db.tasks[k].status == SUCCEEDED ==> k in granted
  }

  /** In every reachable state every SUCCEEDED task had the remote system's yes. */
  lemma {:induction false} SucceededWasGranted(w: World, steps: seq<Step>)
    requires Initial(w)
    ensures OnlyGranted(DoAll(w, steps).db, Granted(w, steps))
  {
    hide Do, SaidYes, OnlyGranted;
    if steps == [] {
      NothingSucceeded(w);
    } else {
      var n := |steps| - 1;
      var v, s := DoAll(w, steps[..n]), steps[n];
      SucceededWasGranted(w, steps[..n]);
      InitialInv(w);
      RunKeeps(w, steps[..n]);
      if s.Dispatch? {
        DispatchGrants(v, s, Granted(w, steps[..n]));
      } else {
        OthersGrant(v, s, Granted(w, steps[..n]));
      }
    }
  }

  lemma NothingSucceeded(w: World)
    requires Initial(w)
    ensures OnlyGranted(w.db, {})
  {
  }

  lemma InitialInv(w: World)
    requires Initial(w)
    ensures Inv(w)
  {
  }

  lemma OthersGrant(v: World, s: Step, granted: set<Key>)
    requires !s.Dispatch? && OnlyGranted(v.db, granted)
    ensures OnlyGranted(Do(v, s).db, granted)
  {
    hide UserTaken, Splitter.Trim;
  }

  lemma DispatchGrants(v: World, s: Step, granted: set<Key>)
    requires s.Dispatch? && Inv(v) && OnlyGranted(v.db, granted)
    ensures var yes := (s.worker, s.key) in v.held
                       && SaidYes(v.db, Copy(s.key, v.held[(s.worker, s.key)]), s.answer);
            OnlyGranted(Do(v, s).db, if yes then granted + {s.key} else granted)
  {
    hide SaidYes, DispatchSpec, Inv, Holds, MayCall, OnlyGranted;
    if (s.worker, s.key) in v.held {
      var c := Copy(s.key, v.held[(s.worker, s.key)]);
      if SaidYes(v.db, c, s.answer) {
        YesTouches(v.db, s.worker, c, s.answer, granted);
      } else {
        HeldCounts(v, s.worker, c);
        NoIsAFailure(v.db, s.worker, c, s.answer);
        NoGrants(v.db, DispatchSpec(v.db, s.worker, c, s.answer).0, c, s.answer, granted);
      }
    }
  }

  lemma NoGrants(db: Db, after: Db, c: Copy, a: Answer, granted: set<Key>)
    requires OnlyGranted(db, granted)
    requires after == db
             || (OnlyRow(db, after, c.key) && c.key in after.tasks
                 && FailedOnce(db.tasks[c.key], after.tasks[c.key], a.at))
    ensures OnlyGranted(after, granted)
  {
  }

  lemma HeldCounts(v: World, worker: string, c: Copy)
    requires Inv(v) && (worker, c.key) in v.held && v.held[(worker, c.key)] == c.task
    ensures Holds(v.db, worker, c) ==> c.task.attempts == v.db.tasks[c.key].attempts
  {
    hide DbOk;
    assert Genuine(v.db, (worker, c.key).1, v.held[(worker, c.key)]);
  }

  lemma YesTouches(db: Db, worker: string, c: Copy, a: Answer, granted: set<Key>)
    requires OnlyGranted(db, granted)
    ensures OnlyGranted(DispatchSpec(db, worker, c, a).0, granted + {c.key})
  {
    hide Splitter.Trim, LinkAfter, Invalid, BindingFenced;
  }
}
