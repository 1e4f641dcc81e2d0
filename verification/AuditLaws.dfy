/** What the client is sent and what the audit record says, in terms of what the handler did. */
module AuditLaws {
  import opened Wrappers
  import opened AuditBuffer

  // ---------------------------------------------------------------- headers

  /** The i-th thing the handler did is the last time it set this header. */
  predicate LastSet(ops: seq<Op>, i: nat, key: string) {
    && i < |ops| && ops[i].SetHeader? && ops[i].key == key
    && forall j :: i < j < |ops| ==> !(ops[j].SetHeader? && ops[j].key == key)
  }

  predicate NeverSet(ops: seq<Op>, key: string) {
    forall i :: 0 <= i < |ops| ==> !(ops[i].SetHeader? && ops[i].key == key)
  }

  /** The headers of a response: what the handler set last, without those it set to nothing, and otherwise
      what the connection had. */
  ghost predicate HeadersOf(ops: seq<Op>, outer: Headers, headers: Headers) {
    && (forall i: nat, key :: LastSet(ops, i, key) ==>
          if ops[i].values == [] then key !in headers else key in headers && headers[key] == ops[i].values)
    && (forall key :: NeverSet(ops, key) ==>
          && (key in headers <==> key in outer) && (key in outer ==> headers[key] == outer[key]))
  }

  // The held headers are the values last set.
  ghost predicate Held(ops: seq<Op>, headers: Headers) {
    && (forall i: nat, key :: LastSet(ops, i, key) ==> key in headers && headers[key] == ops[i].values)
    && (forall key :: NeverSet(ops, key) ==> key !in headers)
  }

  lemma {:induction false} HoldHasHeaders(ops: seq<Op>, memLimit: nat, hardLimit: nat)
    ensures Held(ops, Run(ops, memLimit, hardLimit).headers)
  {
    hide Held, WriteSpec;
    if ops == [] {
      NothingHeld();
    } else {
      var front := ops[..|ops| - 1];
      HoldHasHeaders(front, memLimit, hardLimit);
      assert ops == front + [ops[|ops| - 1]];
      HeldMore(front, Run(front, memLimit, hardLimit), ops[|ops| - 1], memLimit, hardLimit);
    }
  }

  lemma NothingHeld()
    ensures Held([], map[])
  {
  }

  lemma HeldMore(front: seq<Op>, h: Hold, op: Op, memLimit: nat, hardLimit: nat)
    requires Held(front, h.headers)
    ensures Held(front + [op], Apply(h, op, memLimit, hardLimit).headers)
  {
    var ops := front + [op];
    var headers := Apply(h, op, memLimit, hardLimit).headers;
    forall key | NeverSet(ops, key) ensures key !in headers { NeverSetFront(front, op, key); }
    forall i: nat, key | LastSet(ops, i, key) ensures key in headers && headers[key] == ops[i].values {
      if i < |front| { LastSetFront(front, op, i, key); }
    }
  }

  lemma NeverSetFront(front: seq<Op>, op: Op, key: string)
    requires NeverSet(front + [op], key)
    ensures NeverSet(front, key) && !(op.SetHeader? && op.key == key)
  {
    assert (front + [op])[|front|] == op;
    forall i | 0 <= i < |front| ensures !(front[i].SetHeader? && front[i].key == key) {
      assert (front + [op])[i] == front[i];
    }
  }

  lemma LastSetFront(front: seq<Op>, op: Op, i: nat, key: string)
    requires i < |front| && LastSet(front + [op], i, key)
    ensures LastSet(front, i, key) && !(op.SetHeader? && op.key == key)
  {
    assert (front + [op])[|front|] == op;
    forall j | i < j < |front| ensures !(front[j].SetHeader? && front[j].key == key) {
      assert (front + [op])[j] == front[j];
    }
  }

  lemma {:induction false} SetOrNot(ops: seq<Op>, key: string)
    ensures NeverSet(ops, key) || exists i :: 0 <= i < |ops| && LastSet(ops, i, key)
  {
    if ops != [] {
      var n := |ops| - 1;
      if ops[n].SetHeader? && ops[n].key == key {
        assert LastSet(ops, n, key);
      } else {
        SetOrNot(ops[..n], key);
        if i :| 0 <= i < n && LastSet(ops[..n], i, key) { assert LastSet(ops, i, key); }
      }
    }
  }

  /** Every header of a released response, whatever the handler did and in whatever order: each key the
      handler set carries the values it set last and is absent where those are none; every other key is
      the connection's. */
  lemma ReleasedHeaders(outer: Headers, q: Request, s: Store, memLimit: nat, hardLimit: nat)
    ensures var client := AuditSpec(false, true, outer, q, s, memLimit, hardLimit).0;
            client.Released? ==> HeadersOf(q.ops, outer, client.response.headers)
  {
    hide Run, WriteSpec;
    HoldHasHeaders(q.ops, memLimit, hardLimit);
  }

  // ---------------------------------------------------------------- the record

  predicate Forbidden(status: int) { status == 401 || status == 403 }

  /** What a completion record says of a response with this status, withheld for its size or not: how it went,
      how risky it was, and why. */
  predicate Tells(r: Completion, q: Request, status: int, withheld: bool) {
    && r.status == status
    && (r.result == DENIED <==> !withheld && Forbidden(status))
    && (r.result == FAILURE <==> withheld || (status >= 400 && !Forbidden(status)))
    && (r.result == SUCCESS <==> !withheld && status < 400)
    && (r.risk == HIGH <==> withheld || !q.readOnly)
    && (r.risk == LOW <==> !withheld && q.readOnly && status < 400)
    && r.reason == if withheld then "AUDIT_RESPONSE_TOO_LARGE" else q.errorCode
  }

  lemma RecordTells(q: Request, status: int, withheld: bool)
    ensures Tells(CompletionOf(q, status, withheld), q, status, withheld)
  {
  }

  predicate ShortWrite(op: Op) { op.Write? && op.io.taken.Some? }

  /** The response must be withheld: it is larger than the hard limit, or the file could not be created where
      it first outgrew memory. */
  predicate Withheld(ops: seq<Op>, memLimit: nat, hardLimit: nat) {
    || |Written(ops)| > hardLimit
    || exists i :: 0 <= i < |ops| && !SpillWorks(ops, i, memLimit)
  }

  /** Where the file takes each write whole, a hold that is not given up holds everything. */
  lemma {:induction false} HeldOrGivenUp(ops: seq<Op>, memLimit: nat, hardLimit: nat)
    requires forall op :: op in ops ==> !ShortWrite(op)
    ensures var h := Run(ops, memLimit, hardLimit);
            !h.oversized ==> h.content == Written(ops) && (h.status, h.written) == PlainStatus(ops)
  {
    if ops != [] {
      var n := |ops| - 1;
      assert forall op :: op in ops[..n] ==> op in ops;
      HeldOrGivenUp(ops[..n], memLimit, hardLimit);
      var op := ops[n];
      assert !ShortWrite(op);
      if op.Write? { assert op.p[..|op.p|] == op.p; }
    }
  }

  /** And it is given up exactly when it must be withheld. */
  lemma GivenUpIff(ops: seq<Op>, memLimit: nat, hardLimit: nat)
    requires forall op :: op in ops ==> !ShortWrite(op)
    ensures Run(ops, memLimit, hardLimit).oversized <==> Withheld(ops, memLimit, hardLimit)
  {
    hide Run, Written, PlainStatus, SpillWorks;
    HeldOrGivenUp(ops, memLimit, hardLimit);
    WholeIffAllTaken(ops, memLimit, hardLimit);
    forall i | 0 <= i < |ops| ensures TakenWhole(ops, i, memLimit) { assert !ShortWrite(ops[i]); }
  }

  /** What is recorded and what the client is told, for every request that is not a probe and does not panic,
      where the file takes each write whole: one record exactly if the store takes the start and the
      completion, of the status the handler set; in mandatory mode the response is released exactly if it
      is recorded and need not be withheld. */
  lemma RecordedAs(required: bool, outer: Headers, q: Request, s: Store, memLimit: nat, hardLimit: nat)
    requires !q.panics && forall op :: op in q.ops ==> !ShortWrite(op)
    ensures var (client, record) := AuditSpec(false, required, outer, q, s, memLimit, hardLimit);
            var withheld := required && Withheld(q.ops, memLimit, hardLimit);
            && (record.Some? <==> s.startOk && s.completeOk)
            && (record.Some? && !withheld ==> Tells(record.value, q, PlainStatus(q.ops).0, false))
            && (record.Some? && withheld ==> Tells(record.value, q, record.value.status, true))
            && (client == Unavailable("COMMON_AUDIT_UNAVAILABLE") <==>
                  !s.startOk || (required && !s.completeOk))
            && (client == Unavailable("COMMON_AUDIT_RESPONSE_TOO_LARGE") <==>
                  s.startOk && s.completeOk && withheld)
            && (client.Released? <==> required && s.startOk && s.completeOk && !withheld)
            && (client.Direct? <==> !required && s.startOk)
  {
    hide Run, PlainStatus, Written, Withheld;
    HeldOrGivenUp(q.ops, memLimit, hardLimit);
    GivenUpIff(q.ops, memLimit, hardLimit);
    var h := Run(q.ops, memLimit, hardLimit);
    RecordTells(q, h.status, h.oversized);
    RecordTells(q, PlainStatus(q.ops).0, false);
  }

  /** And of a request that panics, or of a probe. */
  lemma NotRecorded(probe: bool, required: bool, outer: Headers, q: Request, s: Store, memLimit: nat, hardLimit: nat)
    requires probe || q.panics
    ensures var (client, record) := AuditSpec(probe, required, outer, q, s, memLimit, hardLimit);
            && record == None
            && (client == Unavailable("COMMON_AUDIT_UNAVAILABLE") <==> !probe && !s.startOk)
            && (client == Dropped <==> q.panics && (probe || s.startOk))
            && (client == Direct <==> !q.panics)
  {
  }

  // ---------------------------------------------------------------- one write

  /** What a write tells the handler: how many of its bytes are held now, and that all went well exactly if
      these are all of them and the response has not been given up. */
  lemma WriteTells(h: Hold, p: seq<byte>, io: Io, memLimit: nat, hardLimit: nat)
    ensures var (after, n, ok) := WriteSpec(h, p, io, memLimit, hardLimit);
            && n <= |p| && after.content == h.content + p[..n]
            && (ok <==> n == |p| && !after.oversized)
            && (after.oversized ==> n == 0) && (h.oversized ==> after == h)
            && after.headers == h.headers && after.status == h.status
  {
  }
}
