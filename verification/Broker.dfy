/** Record before forward: the traces concurrent tool calls leave when audit appends and tools
    fail as they like. Model of internal/server/connectors/broker.go (Invoke) and of what
    audit.go puts into the two rows. */
module Broker {
  import opened Prelude
  import opened Authorization
  import Manifest
  import Policy

  datatype Kind = ToolCall | PolicyViolation | ConnectorDenied | ToolResult(failed: bool)

  /** An audit row; call stands for the call it belongs to, not for the printed call id, which
      need not be unique. */
  datatype Row = Row(call: nat, kind: Kind, allowed: bool)

  /** CallEvent */
  function CallRow(call: nat, d: Decision): Row {
    if d.Allowed() then Row(call, ToolCall, true)
    else if d.PolicyViolation() then Row(call, PolicyViolation, false)
    else Row(call, ConnectorDenied, false)
  }

  /** ResultEvent: the outcome repeats the authorization, a failed tool is no denial. */
  function ResultRow(call: nat, d: Decision, failed: bool): Row {
    CallRow(call, d).(kind := ToolResult(failed))
  }

  datatype Outcome = Response | AuditUnavailable | Denied | ToolFailed

  /** What happens in a trace. An append may report a failure although its row was written. */
  datatype Event =
    | RecordCall(call: nat, written: bool, ok: bool)
    | Forward(call: nat, failed: bool)
    | RecordResult(call: nat, written: bool, ok: bool)
    | Return(call: nat, outcome: Outcome)

  datatype Phase = Idle | Recorded | Forwarded(failed: bool) | ResultKept(failed: bool) | Unrecorded | Done(outcome: Outcome)

  /** The control flow of one Invoke: what may happen next, and where it leads. */
  function Advance(p: Phase, e: Event, d: Decision): Option<Phase> {
    match e
    case RecordCall(_, written, ok) =>
      if p.Idle? && (ok ==> written) then Some(if ok then Recorded else Unrecorded) else None
    case Forward(_, failed) =>
      if p.Recorded? && d.Allowed() then Some(Forwarded(failed)) else None
    case RecordResult(_, written, ok) =>
      if p.Forwarded? && (ok ==> written) then Some(if ok then ResultKept(p.failed) else Unrecorded) else None
    case Return(_, outcome) =>
      if || (p.Unrecorded? && outcome.AuditUnavailable?)
         || (p.Recorded? && !d.Allowed() && outcome.Denied?)
         || (p.ResultKept? && outcome == if p.failed then ToolFailed else Response)
      then Some(Done(outcome)) else None
  }

  type Trace = seq<Event>

  /** The decision each call gets. */
  type Decisions = nat -> Decision

  /** Where a call stands after a trace; None once it has left the control flow. */
  function PhaseOf(t: Trace, c: nat, ds: Decisions): Option<Phase> {
    if t == [] then Some(Idle)
    else
      var p, e := PhaseOf(t[..|t| - 1], c, ds), t[|t| - 1];
      if p.None? || e.call != c then p else Advance(p.value, e, ds(c))
  }

  /** Every call, of however many interleaved, follows its own control flow. */
  ghost predicate Legal(t: Trace, ds: Decisions) {
    forall c: nat :: PhaseOf(t, c, ds).Some?
  }

  /** The row an event writes, if it writes one. */
  function Rows(p: Option<Phase>, e: Event, d: Decision): seq<Row> {
    match e
    case RecordCall(c, written, _) => if written then [CallRow(c, d)] else []
    case RecordResult(c, written, _) =>
      if written then [ResultRow(c, d, p.Some? && p.value.Forwarded? && p.value.failed)] else []
    case _ => []
  }

  /** The audit log a trace leaves. */
  function Log(t: Trace, ds: Decisions): seq<Row> {
    if t == [] then []
    else
      var front, e := t[..|t| - 1], t[|t| - 1];
      Log(front, ds) + Rows(PhaseOf(front, e.call, ds), e, ds(e.call))
  }

  // ---- Invoke -------------------------------------------------------------

  lemma PhaseNext(t: Trace, e: Event, c: nat, ds: Decisions)
    ensures PhaseOf(t + [e], c, ds) ==
            (var p := PhaseOf(t, c, ds); if p.None? || e.call != c then p else Advance(p.value, e, ds(c)))
  {
    assert (t + [e])[..|t|] == t;
  }

  lemma LegalNext(t: Trace, e: Event, ds: Decisions)
    requires Legal(t, ds) && Advance(PhaseOf(t, e.call, ds).value, e, ds(e.call)).Some?
    ensures Legal(t + [e], ds)
    ensures PhaseOf(t + [e], e.call, ds) == Advance(PhaseOf(t, e.call, ds).value, e, ds(e.call))
  {
    hide PhaseOf, Advance;
    forall c: nat
      ensures PhaseOf(t + [e], c, ds).Some?
    {
      PhaseNext(t, e, c, ds);
    }
    PhaseNext(t, e, e.call, ds);
  }

  /** The log after one more event: a written row is appended, nothing else touches it. */
  lemma LogNext(t: Trace, e: Event, ds: Decisions)
    ensures Log(t + [e], ds) == Log(t, ds) + Rows(PhaseOf(t, e.call, ds), e, ds(e.call))
  {
    assert (t + [e])[..|t|] == t;
  }

  class Broker {
    const engine: Engine
    const fold: Policy.Fold
    /** Which request each call carries. */
    const requests: nat -> Request
    /** The audit log. */
    var log: seq<Row>
    /** What has happened so far, in all calls. */
    var trace: Trace
    /** Whether an append of this call has been reported as failed. */
    ghost var faults: bool

    constructor (engine: Engine, fold: Policy.Fold, requests: nat -> Request)
      ensures this.engine == engine && this.fold == fold && this.requests == requests && trace == [] && log == []
      ensures !faults
    {
      this.engine, this.fold, this.requests, trace, log, faults := engine, fold, requests, [], [], false;
    }

    function Ds(): Decisions {
      (c: nat) => Decide(engine, requests(c), fold)
    }

    ghost predicate Valid()
      reads this
    {
      Legal(trace, Ds()) && log == Log(trace, Ds())
    }

    function Phase(call: nat): Option<Phase>
      reads this
    {
      PhaseOf(trace, call, Ds())
    }

    /** Any number of steps of other calls. */
    method Others(call: nat)
      requires Valid()
      modifies this`log, this`trace
      ensures Valid() && Phase(call) == old(Phase(call)) && old(trace) <= trace && old(log) <= log
    {
      hide PhaseOf, Advance, Log, Rows, Decide;
      var n: nat := *;
      while n > 0
        invariant Valid() && Phase(call) == old(Phase(call)) && old(trace) <= trace && old(log) <= log
      {
        var e: Event := *;
        if e.call != call && Phase(e.call).Some? && Advance(Phase(e.call).value, e, Ds()(e.call)).Some? {
          LegalNext(trace, e, Ds());
          PhaseNext(trace, e, call, Ds());
          LogNext(trace, e, Ds());
          log := log + Rows(Phase(e.call), e, Ds()(e.call));
          trace := trace + [e];
        }
        n := n - 1;
      }
    }

    /** AppendAudit: it may fail, with or without the row in the log. */
    method AppendAudit(row: Row) returns (written: bool, ok: bool)
      modifies this`log, this`faults
      ensures ok ==> written && faults == old(faults)
      ensures !ok ==> faults
      ensures log == if written then old(log) + [row] else old(log)
    {
      written, ok := *, *;
      ok := ok && written;
      if !ok {
        faults := true;
      }
      if written {
        log := log + [row];
      }
    }

    /** An event of this call takes its place in the trace; then others go on. */
    method Happened(e: Event)
      requires Legal(trace, Ds()) && Phase(e.call).Some? && Advance(Phase(e.call).value, e, Ds()(e.call)).Some?
      requires log == Log(trace, Ds()) + Rows(Phase(e.call), e, Ds()(e.call))
      modifies this`log, this`trace
      ensures Valid() && old(trace) + [e] <= trace && old(log) <= log
      ensures Phase(e.call) == Advance(old(Phase(e.call)).value, e, Ds()(e.call))
    {
      hide PhaseOf, Advance, Log, Rows, Decide;
      LegalNext(trace, e, Ds());
      LogNext(trace, e, Ds());
      trace := trace + [e];
      Others(e.call);
    }

    /** Invoke, while other calls run at every point. */
    method Invoke(req: Request, call: nat) returns (outcome: Outcome)
      requires Valid() && Phase(call) == Some(Idle) && requests(call) == req
      modifies this
      ensures Valid() && old(trace) <= trace && old(log) <= log
      ensures Phase(call) == Some(Done(outcome))
      ensures outcome == AuditUnavailable ==> faults
      ensures outcome != AuditUnavailable ==> (outcome == Denied <==> !Decide(engine, req, fold).Allowed())
    {
      hide PhaseOf, Log, Decide;
      Others(call);
      var d := Authorization.Authorize(engine, req, fold);
      var written, ok := AppendAudit(CallRow(call, d));
      Happened(RecordCall(call, written, ok));
      if !ok {
        Happened(Return(call, AuditUnavailable));
        return AuditUnavailable;
      }
      if !d.Allowed() {
        Happened(Return(call, Denied));
        return Denied;
      }
      outcome := CallTool(call, d);
    }

    /** The rest of Invoke once the call is on the record: the tool, its result row, the answer. */
    method CallTool(call: nat, d: Decision) returns (outcome: Outcome)
      requires Valid() && Phase(call) == Some(Recorded) && d == Ds()(call) && d.Allowed()
      modifies this
      ensures Valid() && old(trace) <= trace && old(log) <= log
      ensures Phase(call) == Some(Done(outcome))
      ensures if outcome == AuditUnavailable then faults else faults == old(faults)
      ensures outcome != Denied
    {
      hide PhaseOf, Log, Decide, Legal;
      var failed: bool := *;
      Happened(Forward(call, failed));
      var written, ok := AppendAudit(ResultRow(call, d, failed));
      Happened(RecordResult(call, written, ok));
      if !ok {
        Happened(Return(call, AuditUnavailable));
        return AuditUnavailable;
      }
      outcome := if failed then ToolFailed else Response;
      Happened(Return(call, outcome));
    }
  }

  // ---- Safety of every trace ----------------------------------------------

  /** What a phase says about the past. */
  ghost predicate Explains(p: Phase, t: Trace, c: nat, d: Decision) {
    && (p.Recorded? || p.Forwarded? || p.ResultKept? || (p.Done? && !p.outcome.AuditUnavailable?) ==>
          RecordCall(c, true, true) in t)
    && (p.Forwarded? || p.ResultKept? ==> d.Allowed() && Forward(c, p.failed) in t)
    && (p.ResultKept? ==> RecordResult(c, true, true) in t)
    && (p.Done? && p.outcome.Response? ==> Forward(c, false) in t && RecordResult(c, true, true) in t)
    && (p.Done? && p.outcome.ToolFailed? ==> Forward(c, true) in t && RecordResult(c, true, true) in t)
    && (p.Done? && p.outcome.Denied? ==> !d.Allowed())
    && (p.Idle? || p.Recorded? ==> forall f :: Forward(c, f) !in t)
  }

  lemma {:induction false} PhaseExplains(t: Trace, c: nat, ds: Decisions)
    requires PhaseOf(t, c, ds).Some?
    ensures Explains(PhaseOf(t, c, ds).value, t, c, ds(c))
  {
    if t != [] {
      PhaseExplains(t[..|t| - 1], c, ds);
      assert t == t[..|t| - 1] + [t[|t| - 1]];
    }
  }

  lemma {:induction false} PrefixLegal(t: Trace, i: nat, ds: Decisions)
    requires Legal(t, ds) && i <= |t|
    ensures Legal(t[..i], ds)
    decreases |t| - i
  {
    if i == |t| {
      assert t[..i] == t;
    } else {
      PrefixLegal(t, i + 1, ds);
      assert t[..i + 1] == t[..i] + [t[i]];
      forall c: nat
        ensures PhaseOf(t[..i], c, ds).Some?
      {
        PhaseNext(t[..i], t[i], c, ds);
      }
    }
  }

  lemma StepLegal(t: Trace, i: nat, ds: Decisions)
    requires Legal(t, ds) && i < |t|
    ensures var c := t[i].call;
            && PhaseOf(t[..i], c, ds).Some? && Advance(PhaseOf(t[..i], c, ds).value, t[i], ds(c)).Some?
  {
    PrefixLegal(t, i, ds);
    PrefixLegal(t, i + 1, ds);
    assert t[..i + 1] == t[..i] + [t[i]];
    PhaseNext(t[..i], t[i], t[i].call, ds);
  }

  /** In every interleaving each forwarded call was allowed, follows its own recorded call row,
      and is forwarded once; so a denied request is never forwarded. */
  lemma ForwardFollowsRow(t: Trace, i: nat, ds: Decisions)
    requires Legal(t, ds) && i < |t| && t[i].Forward?
    ensures ds(t[i].call).Allowed()
    ensures exists j | 0 <= j < i :: t[j] == RecordCall(t[i].call, true, true)
    ensures forall j | 0 <= j < |t| && j != i :: !(t[j].Forward? && t[j].call == t[i].call)
  {
    hide PhaseOf;
    var c := t[i].call;
    StepLegal(t, i, ds);
    PhaseExplains(t[..i], c, ds);
    var j :| 0 <= j < i && t[..i][j] == RecordCall(c, true, true);
    assert t[j] == t[..i][j];
    forall j | 0 <= j < |t| && j != i
      ensures !(t[j].Forward? && t[j].call == c)
    {
      if j < i {
        NoEarlierForward(t, i, j, ds);
      } else if t[j].Forward? {
        NoEarlierForward(t, j, i, ds);
      }
    }
  }

  lemma NoEarlierForward(t: Trace, i: nat, j: nat, ds: Decisions)
    requires Legal(t, ds) && j < i < |t| && t[i].Forward?
    ensures !(t[j].Forward? && t[j].call == t[i].call)
  {
    hide PhaseOf;
    var c := t[i].call;
    StepLegal(t, i, ds);
    PhaseExplains(t[..i], c, ds);
    assert t[..i][j] == t[j];
    assert t[j] != Forward(c, true) && t[j] != Forward(c, false);
  }

  /** Each successful return follows its own result row, the tool's success and the call row;
      a reported denial follows the row that records it. */
  lemma ReturnFollowsRows(t: Trace, i: nat, ds: Decisions)
    requires Legal(t, ds) && i < |t| && t[i].Return? && !t[i].outcome.AuditUnavailable?
    ensures exists j | 0 <= j < i :: t[j] == RecordCall(t[i].call, true, true)
    ensures t[i].outcome.Denied? <==> !ds(t[i].call).Allowed()
    ensures !t[i].outcome.Denied? ==>
      exists j | 0 <= j < i :: t[j] == Forward(t[i].call, t[i].outcome.ToolFailed?)
    ensures !t[i].outcome.Denied? ==> exists j | 0 <= j < i :: t[j] == RecordResult(t[i].call, true, true)
  {
    hide PhaseOf;
    var c := t[i].call;
    StepLegal(t, i, ds);
    PhaseExplains(t[..i], c, ds);
    var p := PhaseOf(t[..i], c, ds).value;
    var j :| 0 <= j < i && t[..i][j] == RecordCall(c, true, true);
    assert t[j] == t[..i][j];
    if p.ResultKept? {
      var k :| 0 <= k < i && t[..i][k] == Forward(c, p.failed);
      assert t[k] == t[..i][k];
      var l :| 0 <= l < i && t[..i][l] == RecordResult(c, true, true);
      assert t[l] == t[..i][l];
    }
  }

  /** Once its result is recorded, a call's result row is in the log, with what became of it. */
  lemma {:induction false} ResultIsLogged(t: Trace, c: nat, ds: Decisions)
    requires PhaseOf(t, c, ds).Some?
    ensures var p := PhaseOf(t, c, ds).value;
      && (p.ResultKept? ==> ds(c).Allowed() && Row(c, ToolResult(p.failed), true) in Log(t, ds))
      && (p.Forwarded? ==> ds(c).Allowed())
      && (p.Done? && p.outcome.Response? ==> Row(c, ToolResult(false), true) in Log(t, ds))
      && (p.Done? && p.outcome.ToolFailed? ==> Row(c, ToolResult(true), true) in Log(t, ds))
  {
    if t != [] {
      ResultIsLogged(t[..|t| - 1], c, ds);
    }
  }

  /** A returned response has a result row in the log that says the tool did not fail, a reported
      tool failure one that says it did; a reported denial has its row, as a breach of the declarations
      or as authority that was missing. */
  lemma ReturnIsOnRecord(t: Trace, i: nat, ds: Decisions)
    requires Legal(t, ds) && i < |t| && t[i].Return?
    ensures t[i].outcome.Response? ==> Row(t[i].call, ToolResult(false), true) in Log(t[..i], ds)
    ensures t[i].outcome.ToolFailed? ==> Row(t[i].call, ToolResult(true), true) in Log(t[..i], ds)
    ensures t[i].outcome.Denied? ==>
      var why := ds(t[i].call).reason;
      var kind := if why.CapabilityMissing? || why.Unauthenticated? || why.InvalidActor? then ConnectorDenied
                  else PolicyViolation;
      Row(t[i].call, kind, false) in Log(t[..i], ds)
  {
    hide PhaseOf, Log;
    var c := t[i].call;
    StepLegal(t, i, ds);
    ResultIsLogged(t[..i], c, ds);
    if t[i].outcome.Denied? {
      ReturnFollowsRows(t, i, ds);
      var j :| 0 <= j < i && t[j] == RecordCall(c, true, true);
      assert t[..i][j] == t[j];
      WrittenIsLogged(t[..i], j, ds);
    }
  }

  lemma {:induction false} WrittenIsLogged(t: Trace, i: nat, ds: Decisions)
    requires i < |t| && t[i].RecordCall? && t[i].written
    ensures CallRow(t[i].call, ds(t[i].call)) in Log(t, ds)
  {
    if i < |t| - 1 {
      WrittenIsLogged(t[..|t| - 1], i, ds);
    }
  }

  /** The log at the moment of a forward already holds that call's allowed row; and with a
      registered manifest the call is one its own declarations admit. */
  lemma ForwardIsOnRecord(t: Trace, i: nat, m: Manifest.Manifest, reqs: nat -> Request, fold: Policy.Fold)
    requires Manifest.ManifestOk(m)
    requires Legal(t, (c: nat) => Decide(Index(m.connectors), reqs(c), fold)) && i < |t| && t[i].Forward?
    ensures Row(t[i].call, ToolCall, true) in Log(t[..i], (c: nat) => Decide(Index(m.connectors), reqs(c), fold))
    ensures exists class_ :: Admissible(m, reqs(t[i].call), class_, fold)
  {
    hide Manifest.ManifestOk, Decide, Admissible, PhaseOf;
    var ds: Decisions := (c: nat) => Decide(Index(m.connectors), reqs(c), fold);
    ForwardFollowsRow(t, i, ds);
    var c := t[i].call;
    var j :| 0 <= j < i && t[j] == RecordCall(c, true, true);
    assert t[..i][j] == t[j];
    WrittenIsLogged(t[..i], j, ds);
    AdmittedHasClass(Index(m.connectors), reqs(c), fold);
    AdmitsIff(m, reqs(c), ds(c).class_.value, fold);
  }
}
