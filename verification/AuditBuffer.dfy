/** Mandatory request auditing: the handler's response is held back, in memory and then in a
  * temporary file, until the completion record is written; only then does the client see it.
  */
module AuditBuffer {
  import opened Wrappers

  newtype byte = x: int | 0 <= x < 256
  type Headers = map<string, seq<string>>

  /** What the file system does to one write: the spill file cannot be created or filled, or it takes
      only some of the bytes. */
  datatype Io = Io(spillFails: bool, taken: Option<nat>)
  const CLEAN := Io(false, None)

  datatype Op =
    | SetHeader(key: string, values: seq<string>)
    | WriteHeader(code: int)
    | Write(p: seq<byte>, io: Io)
    | Flush

  /** What is held back, wherever it is held. */
  datatype Hold = Hold(headers: Headers, content: seq<byte>, spilled: bool, status: int, written: bool, oversized: bool)

  const EMPTY := Hold(map[], [], false, 200, false, false)

  function Taken(p: seq<byte>, io: Io): nat { if io.taken.Some? && io.taken.value < |p| then io.taken.value else |p| }

  function WriteSpec(h: Hold, p: seq<byte>, io: Io, memLimit: nat, hardLimit: nat): (Hold, nat, bool) {
    if h.oversized then (h, 0, false)
    else if |h.content| + |p| > hardLimit then (h.(oversized := true), 0, false)
    else
      var spills := !h.spilled && |h.content| + |p| > memLimit;
      if spills && io.spillFails then (h.(written := true, oversized := true), 0, false)
      else
        var n := if h.spilled || spills then Taken(p, io) else |p|;
        (h.(written := true, spilled := h.spilled || spills, content := h.content + p[..n]), n, n == |p|)
  }

  function Apply(h: Hold, op: Op, memLimit: nat, hardLimit: nat): Hold {
    match op
    case SetHeader(key, values) => h.(headers := h.headers[key := values])
    case WriteHeader(code) => if code > 0 && !h.written then h.(status := code) else h
    case Write(p, io) => WriteSpec(h, p, io, memLimit, hardLimit).0
    case Flush => h.(written := true)
  }

  function Run(ops: seq<Op>, memLimit: nat, hardLimit: nat): Hold {
    if ops == [] then EMPTY else Apply(Run(ops[..|ops| - 1], memLimit, hardLimit), ops[|ops| - 1], memLimit, hardLimit)
  }

  datatype Response = Response(status: int, headers: Headers, body: seq<byte>)

  // Every held header replaces the connection's; one without values removes it.
  function Replaced(outer: Headers, held: Headers): Headers {
    map k | k in outer.Keys + held.Keys && (k in held ==> held[k] != []) :: if k in held then held[k] else outer[k]
  }

  class Buffer {
    const memLimit: nat
    const hardLimit: nat
    var headers: Headers
    var body: seq<byte>
    var spill: Option<seq<byte>>      // the temporary file's contents
    var status: int
    var size: int
    var total: int
    var oversized: bool

    ghost predicate Valid() reads this {
      && total == (if spill.Some? then |spill.value| else |body|) <= hardLimit
      && |body| <= memLimit && (spill.Some? ==> body == [])
      && size == (if size == -1 then -1 else total) && (size == -1 ==> total == 0)
    }

    ghost function Held(): Hold reads this {
      Hold(headers, if spill.Some? then spill.value else body, spill.Some?, status, size != -1, oversized)
    }

    constructor (memLimit: nat, hardLimit: nat)
      ensures Valid() && Held() == EMPTY && this.memLimit == memLimit && this.hardLimit == hardLimit
    {
      this.memLimit, this.hardLimit := memLimit, hardLimit;
      headers, body, spill, status, size, total, oversized := map[], [], None, 200, -1, 0, false;
    }

    method WriteHeader(code: int)
      requires Valid()
      modifies this
      ensures Valid() && Held() == Apply(old(Held()), Op.WriteHeader(code), memLimit, hardLimit)
    {
      if code > 0 && status != code && size == -1 { status := code; }
    }

    method WriteHeaderNow()
      requires Valid()
      modifies this`size
      ensures Valid() && Held() == old(Held()).(written := true)
    {
      if size == -1 { size := 0; }
    }

    method SpillToDisk(io: Io) returns (ok: bool)
      requires Valid() && spill.None?
      modifies this
      ensures Valid() && ok == !io.spillFails
      ensures Held() == if ok then old(Held()).(spilled := true) else old(Held())
    {
      if io.spillFails { return false; }
      spill := Some(body);
      body := [];
      return true;
    }

    method Write(p: seq<byte>, io: Io) returns (n: nat, ok: bool)
      requires Valid()
      modifies this
      ensures Valid() && (Held(), n, ok) == WriteSpec(old(Held()), p, io, memLimit, hardLimit)
    {
      if oversized { return 0, false; }
      if total + |p| > hardLimit {
        oversized := true;
        return 0, false;
      }
      WriteHeaderNow();
      if spill.None? && |body| + |p| > memLimit {
        var spilled := SpillToDisk(io);
        if !spilled {
          oversized := true;
          return 0, false;
        }
      }
      if spill.Some? {
        n := Taken(p, io);
        spill := Some(spill.value + p[..n]);
      } else {
        n := |p|;
        body := body + p;
      }
      total := total + n;
      size := size + n;
      ok := n == |p|;
      assert p[..|p|] == p;
    }

    /** `readBack`: how much of the temporary file can be read again; None is all of it. */
    method FlushTo(outer: Headers, readBack: Option<nat>) returns (r: Response)
      requires Valid()
      modifies this
      ensures var h := old(Held());
              r == Response(h.status, Replaced(outer, h.headers),
                            if h.spilled && readBack.Some? && readBack.value < |h.content|
                            then h.content[..readBack.value] else h.content)
      ensures spill.None?
    {
      WriteHeaderNow();
      var out := map k | k in outer.Keys + headers.Keys && (k in headers ==> headers[k] != []) ::
            if k in headers then headers[k] else outer[k];
      if spill.Some? {
        var file := spill.value;
        spill := None;          // closed and removed
        return Response(status, out,
                        if readBack.Some? && readBack.value < |file| then file[..readBack.value] else file);
      }
      return Response(status, out, body);
    }
  }

  // ---------------------------------------------------------------- the middleware

  datatype Grade = SUCCESS | DENIED | FAILURE
  datatype Risk = LOW | MEDIUM | HIGH
  datatype Completion = Completion(status: int, result: Grade, reason: string, risk: Risk)

  // Direct: the handler wrote to the connection itself.  Dropped: a panic is on its way out.
  datatype Client = Released(response: Response) | Direct | Unavailable(code: string) | Dropped

  /** A request: the method reads only, the handler's writes, whether it panics, the code it reports. */
  datatype Request = Request(readOnly: bool, ops: seq<Op>, panics: bool, errorCode: string)

  /** What the audit store and the temporary file do. */
  datatype Store = Store(startOk: bool, completeOk: bool, readBack: Option<nat>)

  function GradeOf(status: int): Grade {
    if status == 401 || status == 403 then DENIED else if status >= 400 then FAILURE else SUCCESS
  }

  function CompletionOf(q: Request, status: int, oversized: bool): Completion {
    if oversized then Completion(status, FAILURE, "AUDIT_RESPONSE_TOO_LARGE", HIGH)
    else Completion(status, GradeOf(status), q.errorCode,
                    if !q.readOnly then HIGH else if GradeOf(status) != SUCCESS then MEDIUM else LOW)
  }

  predicate Commits(op: Op) { op.Write? || op.Flush? }

  /** The status an unlimited writer ends with: the last code set before the first write. */
  function PlainStatus(ops: seq<Op>): (int, bool) {
    if ops == [] then (200, false)
    else
      var (status, written) := PlainStatus(ops[..|ops| - 1]);
      var op := ops[|ops| - 1];
      (if op.WriteHeader? && op.code > 0 && !written then op.code else status, written || Commits(op))
  }

  method Serve(b: Buffer, ops: seq<Op>)
    requires b.Valid() && b.Held() == EMPTY
    modifies b
    ensures b.Valid() && b.Held() == Run(ops, b.memLimit, b.hardLimit)
  {
    for i := 0 to |ops|
      invariant b.Valid() && b.Held() == Run(ops[..i], b.memLimit, b.hardLimit)
    {
      assert ops[..i + 1][..i] == ops[..i];
      match ops[i]
      case SetHeader(key, values) => b.headers := b.headers[key := values];
      case WriteHeader(code) => b.WriteHeader(code);
      case Write(p, io) => var n, ok := b.Write(p, io);
      case Flush => b.WriteHeaderNow();
    }
    assert ops[..|ops|] == ops;
  }

  method RequestAudit(probe: bool, required: bool, outer: Headers, q: Request, s: Store, memLimit: nat, hardLimit: nat)
    returns (client: Client, record: Option<Completion>)
    ensures (client, record) == AuditSpec(probe, required, outer, q, s, memLimit, hardLimit)
  {
    if probe { return if q.panics then Dropped else Direct, None; }
    if !s.startOk { return Unavailable("COMMON_AUDIT_UNAVAILABLE"), None; }
    var buffered: Option<Buffer> := None;
    if required {
      var b := new Buffer(memLimit, hardLimit);
      Serve(b, q.ops);
      buffered := Some(b);
    }
    if q.panics { return Dropped, None; }
    var status, oversized := PlainStatus(q.ops).0, false;
    if buffered.Some? { status, oversized := buffered.value.status, buffered.value.oversized; }
    var result := SUCCESS;
    if status == 401 || status == 403 { result := DENIED; } else if status >= 400 { result := FAILURE; }
    var risk := LOW;
    if !q.readOnly { risk := HIGH; } else if result != SUCCESS { risk := MEDIUM; }
    var reason := q.errorCode;
    if oversized { result, reason, risk := FAILURE, "AUDIT_RESPONSE_TOO_LARGE", HIGH; }
    if s.completeOk {
      record := Some(Completion(status, result, reason, risk));
    } else {
      record := None;
      if buffered.Some? { return Unavailable("COMMON_AUDIT_UNAVAILABLE"), None; }
    }
    if oversized { return Unavailable("COMMON_AUDIT_RESPONSE_TOO_LARGE"), record; }
    if buffered.Some? {
      var r := buffered.value.FlushTo(outer, s.readBack);
      return Released(r), record;
    }
    return Direct, record;
  }

  function Delivered(h: Hold, outer: Headers, readBack: Option<nat>): Response {
    Response(h.status, Replaced(outer, h.headers),
             if h.spilled && readBack.Some? && readBack.value < |h.content| then h.content[..readBack.value]
             else h.content)
  }

  function AuditSpec(probe: bool, required: bool, outer: Headers, q: Request, s: Store, memLimit: nat, hardLimit: nat)
    : (Client, Option<Completion>)
  {
    if probe then (if q.panics then Dropped else Direct, None)
    else if !s.startOk then (Unavailable("COMMON_AUDIT_UNAVAILABLE"), None)
    else if q.panics then (Dropped, None)
    else if !required then (Direct, if s.completeOk then Some(CompletionOf(q, PlainStatus(q.ops).0, false)) else None)
    else
      var h := Run(q.ops, memLimit, hardLimit);
      if !s.completeOk then (Unavailable("COMMON_AUDIT_UNAVAILABLE"), None)
      else
        (if h.oversized then Unavailable("COMMON_AUDIT_RESPONSE_TOO_LARGE")
         else Released(Delivered(h, outer, s.readBack)),
         Some(CompletionOf(q, h.status, h.oversized)))
  }

  // ---------------------------------------------------------------- what is delivered

  predicate Fault(op: Op) { op.Write? && (op.io.spillFails || op.io.taken.Some?) }

  /** Everything the handler wrote. */
  function Written(ops: seq<Op>): seq<byte> {
    if ops == [] then [] else Written(ops[..|ops| - 1]) + if ops[|ops| - 1].Write? then ops[|ops| - 1].p else []
  }

  /** With a healthy file system the held bytes are exactly what the handler wrote and the status is
      the one it set, unless it wrote more than the hard limit in all: the memory limit
      makes no difference to anything. */
  lemma {:induction false} HoldIsWritten(ops: seq<Op>, memLimit: nat, hardLimit: nat)
    requires forall op :: op in ops ==> !Fault(op)
    ensures var h := Run(ops, memLimit, hardLimit);
            && (h.oversized <==> |Written(ops)| > hardLimit)
            && (!h.oversized ==> h.content == Written(ops) && (h.status, h.written) == PlainStatus(ops))
            && (h.spilled ==> |h.content| > memLimit)
  {
    if ops != [] {
      var n := |ops| - 1;
      assert forall op :: op in ops[..n] ==> op in ops;
      HoldIsWritten(ops[..n], memLimit, hardLimit);
      var op := ops[n];
      assert !Fault(op);
      if op.Write? { assert op.p[..|op.p|] == op.p; }
    }
  }

  lemma {:induction false} MemoryLimitIsInvisible(ops: seq<Op>, m1: nat, m2: nat, hardLimit: nat)
    requires forall op :: op in ops ==> !Fault(op)
    ensures Run(ops, m1, hardLimit).(spilled := false) == Run(ops, m2, hardLimit).(spilled := false)
  {
    if ops != [] {
      var n := |ops| - 1;
      assert forall op :: op in ops[..n] ==> op in ops;
      MemoryLimitIsInvisible(ops[..n], m1, m2, hardLimit);
      assert !Fault(ops[n]);
      OpIgnoresMemoryLimit(Run(ops[..n], m1, hardLimit), Run(ops[..n], m2, hardLimit), ops[n], m1, m2, hardLimit);
    }
  }

  lemma OpIgnoresMemoryLimit(g: Hold, h: Hold, op: Op, m1: nat, m2: nat, hardLimit: nat)
    requires g.(spilled := false) == h.(spilled := false) && !Fault(op)
    ensures Apply(g, op, m1, hardLimit).(spilled := false) == Apply(h, op, m2, hardLimit).(spilled := false)
  {
  }

  predicate Sets(op: Op) { op.WriteHeader? && op.code > 0 }

  /** The status is frozen by the first write: it is the last code set before it, or 200. */
  lemma {:induction false} StatusIsFrozen(ops: seq<Op>, k: nat)
    requires k <= |ops| && forall i :: 0 <= i < k ==> !Commits(ops[i])
    requires k < |ops| ==> Commits(ops[k])
    ensures PlainStatus(ops) == (PlainStatus(ops[..k]).0, k < |ops|)
    ensures forall i :: 0 <= i < k && Sets(ops[i]) && (forall j :: i < j < k ==> !Sets(ops[j])) ==>
              PlainStatus(ops).0 == ops[i].code
    ensures (forall i :: 0 <= i < k ==> !Sets(ops[i])) ==> PlainStatus(ops).0 == 200
    decreases |ops|
  {
    if ops != [] {
      var n := |ops| - 1;
      if k == |ops| {
        StatusIsFrozen(ops[..n], n);
        assert ops[..k] == ops;
      } else {
        StatusIsFrozen(ops[..n], k);
        assert ops[..n][..k] == ops[..k];
      }
    }
  }

  /** The file takes write i whole, if it gets it: a write that leaves more bytes than the memory limit
      behind it goes to the file. */
  predicate TakenWhole(ops: seq<Op>, i: nat, memLimit: nat)
    requires i < |ops|
  {
    ops[i].Write? && |Written(ops[..i + 1])| > memLimit ==> Taken(ops[i].p, ops[i].io) == |ops[i].p|
  }

  /** The file can be created where the memory limit is first exceeded. */
  predicate SpillWorks(ops: seq<Op>, i: nat, memLimit: nat)
    requires i < |ops|
  {
    ops[i].Write? && |Written(ops[..i])| <= memLimit < |Written(ops[..i + 1])| ==> !ops[i].io.spillFails
  }

  lemma WrittenGrows(ops: seq<Op>)
    requires ops != []
    ensures var n := |ops| - 1;
            && Written(ops) == Written(ops[..n]) + (if ops[n].Write? then ops[n].p else [])
            && |Written(ops[..n])| <= |Written(ops)|
  {
  }

  lemma {:induction false} SpilledIsLarge(ops: seq<Op>, memLimit: nat, hardLimit: nat)
    ensures var h := Run(ops, memLimit, hardLimit);
            && |h.content| <= |Written(ops)| && (!h.spilled ==> |h.content| <= memLimit)
            && (h.spilled ==> |Written(ops)| > memLimit)
  {
    if ops != [] { SpilledIsLarge(ops[..|ops| - 1], memLimit, hardLimit); }
  }

  /** What is held is everything the handler wrote, and is not withheld. */
  predicate Whole(h: Hold, ops: seq<Op>) { !h.oversized && h.content == Written(ops) }

  /** Whatever the file system does: everything the handler wrote is held exactly when it fits the hard
      limit, the file can be created where the memory limit is first exceeded, and takes every write
      from there on whole. */
  lemma {:induction false} WholeIffAllTaken(ops: seq<Op>, memLimit: nat, hardLimit: nat)
    ensures Whole(Run(ops, memLimit, hardLimit), ops) <==>
      && |Written(ops)| <= hardLimit
      && forall i :: 0 <= i < |ops| ==> TakenWhole(ops, i, memLimit) && SpillWorks(ops, i, memLimit)
  {
    hide Apply;
    if ops != [] {
      var n := |ops| - 1;
      var h := Run(ops[..n], memLimit, hardLimit);
      WholeIffAllTaken(ops[..n], memLimit, hardLimit);
      PrefixTaken(ops, memLimit);
      WrittenGrows(ops);
      assert ops[..n + 1] == ops;
      LastOp(ops, h, memLimit, hardLimit);
    }
  }

  lemma PrefixTaken(ops: seq<Op>, memLimit: nat)
    requires ops != []
    ensures var n := |ops| - 1;
            (forall i :: 0 <= i < n ==> TakenWhole(ops[..n], i, memLimit) && SpillWorks(ops[..n], i, memLimit))
            <==> forall i :: 0 <= i < n ==> TakenWhole(ops, i, memLimit) && SpillWorks(ops, i, memLimit)
  {
    hide Written;
    var n := |ops| - 1;
    forall i | 0 <= i < n
      ensures TakenWhole(ops[..n], i, memLimit) == TakenWhole(ops, i, memLimit)
      ensures SpillWorks(ops[..n], i, memLimit) == SpillWorks(ops, i, memLimit)
    {
      assert ops[..n][..i] == ops[..i] && ops[..n][..i + 1] == ops[..i + 1];
    }
  }

  lemma LastOp(ops: seq<Op>, h: Hold, memLimit: nat, hardLimit: nat)
    requires ops != [] && h == Run(ops[..|ops| - 1], memLimit, hardLimit)
    ensures var n := |ops| - 1;
            Whole(Run(ops, memLimit, hardLimit), ops) <==>
              && Whole(h, ops[..n]) && |Written(ops)| <= hardLimit
              && TakenWhole(ops, n, memLimit) && SpillWorks(ops, n, memLimit)
  {
    hide Run;
    var n := |ops| - 1;
    var before := ops[..n];
    assert ops[..n + 1] == ops;
    WrittenGrows(ops);
    assert Run(ops, memLimit, hardLimit)
           == Apply(h, ops[n], memLimit, hardLimit) by {
      RunStep(ops, memLimit, hardLimit);
    }
    SpilledIsLarge(before, memLimit, hardLimit);
    HoldFits(before, memLimit, hardLimit);
    if ops[n].Write? { LastWrite(h, ops[n], Written(before), memLimit, hardLimit); }
  }

  lemma RunStep(ops: seq<Op>, memLimit: nat, hardLimit: nat)
    requires ops != []
    ensures Run(ops, memLimit, hardLimit)
            == Apply(Run(ops[..|ops| - 1], memLimit, hardLimit), ops[|ops| - 1], memLimit, hardLimit)
  {
  }

  lemma {:induction false} HoldFits(ops: seq<Op>, memLimit: nat, hardLimit: nat)
    ensures |Run(ops, memLimit, hardLimit).content| <= hardLimit
  {
    if ops != [] { HoldFits(ops[..|ops| - 1], memLimit, hardLimit); }
  }

  lemma LastWrite(h: Hold, op: Op, before: seq<byte>, memLimit: nat, hardLimit: nat)
    requires op.Write? && |h.content| <= |before| && |h.content| <= hardLimit
    requires (!h.spilled ==> |h.content| <= memLimit) && (h.spilled ==> |before| > memLimit)
    ensures var after := Apply(h, op, memLimit, hardLimit);
            !after.oversized && after.content == before + op.p <==>
              && !h.oversized && h.content == before && |before + op.p| <= hardLimit
              && (|before + op.p| > memLimit ==> Taken(op.p, op.io) == |op.p|)
              && (|before| <= memLimit < |before + op.p| ==> !op.io.spillFails)
  {
    assert op.p[..|op.p|] == op.p;
    var after := Apply(h, op, memLimit, hardLimit);
    if !after.oversized && after.content == before + op.p {
      assert |after.content| == |before| + |op.p| && |after.content| <= |h.content| + |op.p|;
      assert h.content == after.content[..|before|] == before;
    }
  }

  // ---------------------------------------------------------------- what the client may see

  /** In mandatory mode the client sees the handler's response only if its completion record was
      written, for the same status and never as anything but what that status means; and a record of
      success means the client was sent the response.  In every other case it gets a 503. */
  lemma ReleasedOnlyIfRecorded(outer: Headers, q: Request, s: Store, memLimit: nat, hardLimit: nat)
    requires !q.panics
    ensures var (client, record) := AuditSpec(false, true, outer, q, s, memLimit, hardLimit);
            var h := Run(q.ops, memLimit, hardLimit);
            && (client.Released? <==> s.startOk && s.completeOk && !h.oversized)
            && (client.Released? ==> record == Some(CompletionOf(q, client.response.status, false))
                                     && record.value.result == GradeOf(client.response.status))
            && (record.Some? && record.value.result == SUCCESS ==> client.Released?)
            && (!client.Released? ==> client.Unavailable?)
            && (h.oversized && s.startOk && s.completeOk ==>
                  record.Some? && record.value.result == FAILURE && record.value.reason == "AUDIT_RESPONSE_TOO_LARGE")
  {
  }

  /** With a healthy file system, a released response is exactly what the handler produced - for any
      memory limit - and it is withheld for its size exactly when it exceeds the hard limit. */
  lemma ReleasedIsWhole(outer: Headers, q: Request, s: Store, memLimit: nat, hardLimit: nat)
    requires !q.panics && s.startOk && s.completeOk && s.readBack.None?
    requires forall op :: op in q.ops ==> !Fault(op)
    ensures var client := AuditSpec(false, true, outer, q, s, memLimit, hardLimit).0;
            && (client.Released? <==> |Written(q.ops)| <= hardLimit)
            && (client.Released? ==>
                  client.response.body == Written(q.ops) && client.response.status == PlainStatus(q.ops).0)
  {
    hide Run;
    HoldIsWritten(q.ops, memLimit, hardLimit);
  }

  /** Exactly when the client gets everything the handler wrote, whatever the store and the file system
      do; in particular a release that is not whole needs a short write or an unreadable file. */
  lemma WholeResponseIff(outer: Headers, q: Request, s: Store, memLimit: nat, hardLimit: nat)
    requires !q.panics
    ensures var client := AuditSpec(false, true, outer, q, s, memLimit, hardLimit).0;
            client.Released? && client.response.body == Written(q.ops) <==>
              && s.startOk && s.completeOk && |Written(q.ops)| <= hardLimit
              && (forall i :: 0 <= i < |q.ops| ==> TakenWhole(q.ops, i, memLimit) && SpillWorks(q.ops, i, memLimit))
              && (|Written(q.ops)| > memLimit && s.readBack.Some? ==> s.readBack.value >= |Written(q.ops)|)
  {
    hide Run, Written, TakenWhole, SpillWorks;
    WholeIffAllTaken(q.ops, memLimit, hardLimit);
    SpilledIsLarge(q.ops, memLimit, hardLimit);
  }

  /** A panic, or a probe, leaves no record; without mandatory mode nothing is ever held back. */
  lemma OtherwiseUntouched(probe: bool, required: bool, outer: Headers, q: Request, s: Store, memLimit: nat,
                           hardLimit: nat)
    ensures var (client, record) := AuditSpec(probe, required, outer, q, s, memLimit, hardLimit);
            && (probe || q.panics ==> record.None?)
            && (!probe && required && q.panics ==> !client.Released? && !client.Direct?)
            && (!required && !q.panics ==> (client.Direct? <==> probe || s.startOk))
  {
  }

  /** A temporary file that takes fewer bytes than it was given is not counted as an overflow. */
  lemma ShortWriteCounterexample()
    ensures var ops := [Write([1, 2, 3], Io(false, Some(1)))];
            var q := Request(true, ops, false, "");
            var (client, record) := AuditSpec(false, true, map[], q, Store(true, true, None), 2, 10);
            client == Released(Response(200, map[], [1])) && record.Some? && record.value.result == SUCCESS
                && Written(ops) == [1, 2, 3]
  {
    var ops := [Write([1, 2, 3], Io(false, Some(1)))];
    assert ops[..0] == [];
    assert Run(ops, 2, 10) == Apply(EMPTY, ops[0], 2, 10);
    assert Written(ops) == Written([]) + [1, 2, 3];
    assert Replaced(map[], map[]) == map[];
    assert [] + ops[0].p[..1] == [1];
  }
}
