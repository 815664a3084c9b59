/** The control-plane store: atomic transactions over machines, grants, secrets and an
    append-only audit log. Model of Enrol, IssueGrant, RevokeGrant, putSecret and AppendAudit
    in internal/store/sqlite.go, with the audit rows the callers in
    internal/server/handlers.go and cmd/homeplane-server/admin.go attach to them. */
module ControlStore {
  import opened Prelude

  datatype Machine = Machine(id: string, name: string, os: string, node: string, nodeName: string, hash: string, version: nat)

  datatype GrantState = Active | Revoked(reason: string)

  datatype Grant = Grant(id: string, machine: string, harness: string, caps: seq<string>, state: GrantState, tokenHash: string)

  datatype Secret = Secret(ciphertext: string, generation: nat)

  datatype Kind = Enrolment | Rotation | Issued | Superseded | Withdrawn | Other(name: string)

  datatype Actor = MachineActor | OperatorActor | SystemActor

  datatype AuditEvent = AuditEvent(
    kind: Kind, actor: Actor, allowed: bool, machine: string, harness: string, grant: string, version: nat, reason: string)

  /** The database: tables keyed by primary key, and the audit rows in append order. */
  datatype Db = Db(
    machines: map<string, Machine>, grants: map<string, Grant>, secrets: map<string, Secret>, audit: seq<AuditEvent>)

  const EMPTY := Db(map[], map[], map[], [])

  // ---- Replaying the log --------------------------------------------------

  /** What the lifecycle rows say: credential versions, active grants and revoked grants. */
  datatype History = History(versions: map<string, nat>, active: map<string, (string, string)>, revoked: set<string>)

  function Applied(h: History, e: AuditEvent): History {
    if !e.allowed then h
    else
      match e.kind
      case Enrolment => h.(versions := h.versions[e.machine := e.version])
      case Rotation => h.(versions := h.versions[e.machine := e.version])
      case Issued => h.(active := h.active[e.grant := (e.machine, e.harness)])
      case Superseded => h.(active := h.active - {e.grant}, revoked := h.revoked + {e.grant})
      case Withdrawn => h.(active := h.active - {e.grant}, revoked := h.revoked + {e.grant})
      case Other(_) => h
  }

  function Replay(log: seq<AuditEvent>): History {
    if log == [] then History(map[], map[], {})
    else Applied(Replay(log[..|log| - 1]), log[|log| - 1])
  }

  type Machines = map<string, Machine>
  type Grants = map<string, Grant>

  function Versions(ms: Machines): map<string, nat> {
    map m | m in ms :: ms[m].version
  }

  function ActiveIn(gs: Grants): map<string, (string, string)> {
    map g | g in gs && gs[g].state.Active? :: (gs[g].machine, gs[g].harness)
  }

  function RevokedIn(gs: Grants): set<string> {
    set g | g in gs && gs[g].state.Revoked?
  }

  /** What the tables say. */
  function View(db: Db): History {
    History(Versions(db.machines), ActiveIn(db.grants), RevokedIn(db.grants))
  }

  predicate Lifecycle(e: AuditEvent) {
    e.allowed && !e.kind.Other?
  }

  // ---- Transactions -------------------------------------------------------

  datatype Tx =
    | Enrol(node: string, nodeName: string, name: string, os: string, hash: string, newId: string)
    | Issue(machine: string, harness: string, caps: seq<string>, tokenHash: string, newId: string)
    | Revoke(grant: string, byOperator: bool)
    | PutSecret(ref: string, ciphertext: string, expected: Option<nat>)
    | Standalone(event: AuditEvent)

  function MachinesAt(db: Db, node: string): set<string> {
    set m | m in db.machines && db.machines[m].node == node
  }

  function ActiveFor(db: Db, machine: string, harness: string): set<string> {
    set g | g in db.grants && db.grants[g].state.Active? && db.grants[g].machine == machine && db.grants[g].harness == harness
  }

  predicate TokenUsed(db: Db, hash: string) {
    exists g | g in db.grants :: db.grants[g].tokenHash == hash
  }

  function Generation(db: Db, ref: string): nat {
    if ref in db.secrets then db.secrets[ref].generation else 0
  }

  /** When the tables' own rules let the transaction commit. */
  predicate Allowed(db: Db, tx: Tx) {
    match tx
    case Enrol(node, _, _, _, _, newId) => MachinesAt(db, node) != {} || newId !in db.machines
    case Issue(machine, _, _, hash, newId) => machine in db.machines && newId !in db.grants && !TokenUsed(db, hash)
    case Revoke(g, _) => g in db.grants && db.grants[g].state.Active?
    case PutSecret(ref, _, expected) => expected.Some? ==> expected.value == Generation(db, ref)
    case Standalone(e) => !Lifecycle(e)
  }

  function EnrolRow(m: Machine, rotated: bool): AuditEvent {
    AuditEvent(if rotated then Rotation else Enrolment, MachineActor, true, m.id, "", "", m.version, "")
  }

  function SupersededRow(g: Grant): AuditEvent {
    AuditEvent(Superseded, SystemActor, true, g.machine, g.harness, g.id, 0, "superseded")
  }

  function IssuedRow(g: Grant): AuditEvent {
    AuditEvent(Issued, MachineActor, true, g.machine, g.harness, g.id, 0, "")
  }

  /** The operator's row leaves the acting machine empty: the machine did not act. */
  function RevokedRow(g: Grant, byOperator: bool): AuditEvent {
    if byOperator then AuditEvent(Withdrawn, OperatorActor, true, "", g.harness, g.id, 0, "revoked_by_operator")
    else AuditEvent(Withdrawn, MachineActor, true, g.machine, g.harness, g.id, 0, "revoked_by_machine")
  }

  function Retire(db: Db, g: string, reason: string): Db
    requires g in db.grants
  {
    db.(grants := db.grants[g := db.grants[g].(state := Revoked(reason))])
  }

  function Superseding(db: Db, prior: string, g: Grant): Db
    requires prior in db.grants
  {
    var db1 := Retire(db, prior, "superseded");
    db1.(grants := db1.grants[g.id := g], audit := db.audit + [SupersededRow(db.grants[prior])] + [IssuedRow(g)])
  }

  const SECRET_ROW := AuditEvent(Other("secret_imported"), OperatorActor, true, "", "", "", 0, "")

  /** The state a committed transaction leaves. */
  ghost function Effect(db: Db, tx: Tx): Db
    requires Allowed(db, tx)
  {
    match tx
    case Enrol(node, nodeName, name, os, hash, newId) =>
      if MachinesAt(db, node) == {} then
        var m := Machine(newId, name, os, node, nodeName, hash, 1);
        db.(machines := db.machines[newId := m], audit := db.audit + [EnrolRow(m, false)])
      else
        var id :| id in MachinesAt(db, node);
        var m := db.machines[id].(name := name, os := os, nodeName := nodeName, hash := hash, version := db.machines[id].version + 1);
        db.(machines := db.machines[id := m], audit := db.audit + [EnrolRow(m, true)])
    case Issue(machine, harness, caps, hash, newId) =>
      var g := Grant(newId, machine, harness, caps, Active, hash);
      if ActiveFor(db, machine, harness) == {} then
        db.(grants := db.grants[newId := g], audit := db.audit + [IssuedRow(g)])
      else
        var prior :| prior in ActiveFor(db, machine, harness);
        Superseding(db, prior, g)
    case Revoke(g, byOperator) =>
      Retire(db, g, RevokedRow(db.grants[g], byOperator).reason)
        .(audit := db.audit + [RevokedRow(db.grants[g], byOperator)])
    case PutSecret(ref, ciphertext, _) =>
      db.(secrets := db.secrets[ref := Secret(ciphertext, Generation(db, ref) + 1)],
          audit := db.audit + [SECRET_ROW])
    case Standalone(e) => db.(audit := db.audit + [e])
  }

  // ---- The invariant ------------------------------------------------------

  ghost predicate MachinesOk(ms: Machines) {
    && (forall m | m in ms :: ms[m].id == m)
    && (forall m, n | m in ms && n in ms && ms[m].node == ms[n].node :: m == n)
  }

  /** Ids match, tokens are unique, and at most one grant per machine and harness is active. */
  ghost predicate GrantsOk(gs: Grants) {
    && (forall g | g in gs :: gs[g].id == g)
    && (forall g, h | g in gs && h in gs && gs[g].tokenHash == gs[h].tokenHash :: g == h)
    && (forall g, h | g in gs && h in gs && SamePair(gs[g], gs[h]) :: g == h)
  }

  predicate SamePair(a: Grant, b: Grant) {
    a.state.Active? && b.state.Active? && a.machine == b.machine && a.harness == b.harness
  }

  ghost predicate OwnersExist(ms: Machines, gs: Grants) {
    forall g | g in gs :: gs[g].machine in ms
  }

  /** The tables are consistent and the log replays to them. */
  ghost predicate Inv(db: Db) {
    MachinesOk(db.machines) && GrantsOk(db.grants) && OwnersExist(db.machines, db.grants) && Replay(db.audit) == View(db)
  }

  lemma ReplayOne(log: seq<AuditEvent>, e: AuditEvent)
    ensures Replay(log + [e]) == Applied(Replay(log), e)
  {
    assert (log + [e])[..|log|] == log;
  }

  lemma PutMachine(ms: Machines, m: Machine)
    requires MachinesOk(ms) && forall n | n in ms && ms[n].node == m.node :: n == m.id
    requires m.id in ms ==> ms[m.id].node == m.node
    ensures MachinesOk(ms[m.id := m]) && Versions(ms[m.id := m]) == Versions(ms)[m.id := m.version]
  {
  }

  lemma RetireViews(gs: Grants, g: string, reason: string)
    requires g in gs && gs[g].state.Active?
    ensures var gs' := gs[g := gs[g].(state := Revoked(reason))];
      ActiveIn(gs') == ActiveIn(gs) - {g} && RevokedIn(gs') == RevokedIn(gs) + {g}
  {
  }

  lemma RetireOne(gs: Grants, g: string, reason: string)
    requires GrantsOk(gs) && g in gs && gs[g].state.Active?
    ensures var gs' := gs[g := gs[g].(state := Revoked(reason))];
      GrantsOk(gs') && ActiveIn(gs') == ActiveIn(gs) - {g} && RevokedIn(gs') == RevokedIn(gs) + {g}
  {
    hide ActiveIn, RevokedIn;
    RetireViews(gs, g, reason);
    var gs' := gs[g := gs[g].(state := Revoked(reason))];
    forall h, k | h in gs' && k in gs' && gs'[h].tokenHash == gs'[k].tokenHash
      ensures h == k
    {
      assert gs[h].tokenHash == gs[k].tokenHash;
    }
    forall h, k | h in gs' && k in gs' && SamePair(gs'[h], gs'[k])
      ensures h == k
    {
      assert SamePair(gs[h], gs[k]);
    }
  }

  lemma AddOne(gs: Grants, g: Grant)
    requires GrantsOk(gs) && g.id !in gs && g.state == Active
    requires forall h | h in gs :: gs[h].tokenHash != g.tokenHash && !SamePair(g, gs[h])
    ensures var gs' := gs[g.id := g];
      GrantsOk(gs') && ActiveIn(gs') == ActiveIn(gs)[g.id := (g.machine, g.harness)] && RevokedIn(gs') == RevokedIn(gs)
  {
  }

  lemma EnrolKeeps(db: Db, tx: Tx)
    requires Inv(db) && tx.Enrol? && Allowed(db, tx)
    ensures Inv(Effect(db, tx))
  {
    var db' := Effect(db, tx);
    var m, rotated := Enrolled(db, tx);
    hide Effect, Allowed, Versions, ActiveIn, RevokedIn, GrantsOk, Replay;
    ReplayOne(db.audit, EnrolRow(m, rotated));
    PutMachine(db.machines, m);
  }

  /** The machine an enrolment writes: the node's own record, or a new one for a new node. */
  lemma Enrolled(db: Db, tx: Tx) returns (m: Machine, rotated: bool)
    requires MachinesOk(db.machines) && tx.Enrol? && Allowed(db, tx)
    ensures m.node == tx.node && (forall n | n in db.machines && db.machines[n].node == m.node :: n == m.id)
    ensures m.id in db.machines ==> db.machines[m.id].node == m.node
    ensures Effect(db, tx) == db.(machines := db.machines[m.id := m], audit := db.audit + [EnrolRow(m, rotated)])
  {
    hide EnrolRow;
    var db' := Effect(db, tx);
    rotated := MachinesAt(db, tx.node) != {};
    if rotated {
      var id :| id in MachinesAt(db, tx.node) && id in db'.machines && db' == db.(
        machines := db.machines[id := db'.machines[id]], audit := db.audit + [EnrolRow(db'.machines[id], true)]);
      m := db'.machines[id];
    } else {
      m := db'.machines[tx.newId];
      assert forall n | n in db.machines :: n !in MachinesAt(db, tx.node);
    }
  }

  lemma RetireKeeps(db: Db, g: string, reason: string, e: AuditEvent)
    requires Inv(db) && g in db.grants && db.grants[g].state.Active?
    requires e.allowed && (e.kind.Superseded? || e.kind.Withdrawn?) && e.grant == g
    ensures Inv(Retire(db, g, reason).(audit := db.audit + [e]))
  {
    hide Versions, ActiveIn, RevokedIn, GrantsOk, MachinesOk, Replay, OwnersExist;
    ReplayOne(db.audit, e);
    RetireOne(db.grants, g, reason);
    var gs' := Retire(db, g, reason).grants;
    assert gs' == db.grants[g := db.grants[g].(state := Revoked(reason))];
    assert OwnersExist(db.machines, gs') by { OwnersStay(db.machines, db.grants, gs'); }
  }

  lemma OwnersStay(ms: Machines, gs: Grants, gs': Grants)
    requires OwnersExist(ms, gs) && gs'.Keys == gs.Keys && forall g | g in gs :: gs'[g].machine == gs[g].machine
    ensures OwnersExist(ms, gs')
  {
  }

  lemma AddKeeps(db: Db, g: Grant)
    requires Inv(db) && g.id !in db.grants && g.state == Active && g.machine in db.machines
    requires !TokenUsed(db, g.tokenHash) && ActiveFor(db, g.machine, g.harness) == {}
    ensures Inv(db.(grants := db.grants[g.id := g], audit := db.audit + [IssuedRow(g)]))
  {
    hide Versions, ActiveIn, RevokedIn, GrantsOk, MachinesOk;
    ReplayOne(db.audit, IssuedRow(g));
    forall h | h in db.grants
      ensures db.grants[h].tokenHash != g.tokenHash && !SamePair(g, db.grants[h])
    {
      assert h !in ActiveFor(db, g.machine, g.harness);
    }
    AddOne(db.grants, g);
  }

  /** After superseding, the one-active index has nothing left to object to. */
  lemma NoneLeft(db: Db, prior: string, machine: string, harness: string)
    requires GrantsOk(db.grants) && prior in ActiveFor(db, machine, harness)
    ensures ActiveFor(Retire(db, prior, "superseded"), machine, harness) == {}
    ensures ActiveFor(db, machine, harness) == {prior}
  {
    forall g | g in ActiveFor(db, machine, harness)
      ensures g == prior
    {
      assert SamePair(db.grants[g], db.grants[prior]);
    }
  }

  lemma SameTokens(db: Db, g: string, reason: string, hash: string)
    requires g in db.grants
    ensures TokenUsed(Retire(db, g, reason), hash) <==> TokenUsed(db, hash)
  {
    var db' := Retire(db, g, reason);
    assert forall h | h in db.grants :: db'.grants[h].tokenHash == db.grants[h].tokenHash;
  }

  lemma IssueKeeps(db: Db, tx: Tx)
    requires Inv(db) && tx.Issue? && Allowed(db, tx)
    ensures Inv(Effect(db, tx))
  {
    var g := Grant(tx.newId, tx.machine, tx.harness, tx.caps, Active, tx.tokenHash);
    if ActiveFor(db, tx.machine, tx.harness) == {} {
      AddKeeps(db, g);
    } else {
      var prior := Prior(db, tx, g);
      hide TokenUsed, ActiveFor, Inv, Effect;
      var row := SupersededRow(db.grants[prior]);
      var db1 := Retire(db, prior, "superseded").(audit := db.audit + [row]);
      RetireKeeps(db, prior, "superseded", row);
      NoneLeft(db, prior, tx.machine, tx.harness);
      SameTokens(db, prior, "superseded", tx.tokenHash);
      AuditAside(Retire(db, prior, "superseded"), db.audit + [row], tx.machine, tx.harness, tx.tokenHash);
      AddKeeps(db1, g);
    }
  }

  /** The grant an issuance supersedes. */
  lemma Prior(db: Db, tx: Tx, g: Grant) returns (prior: string)
    requires Inv(db) && tx.Issue? && Allowed(db, tx) && ActiveFor(db, tx.machine, tx.harness) != {}
    requires g == Grant(tx.newId, tx.machine, tx.harness, tx.caps, Active, tx.tokenHash)
    ensures prior in ActiveFor(db, tx.machine, tx.harness) && prior in db.grants && GrantsOk(db.grants)
    ensures db.grants[prior].state.Active? && db.grants[prior].id == prior && tx.newId !in db.grants
    ensures g.machine in db.machines && Effect(db, tx) == Superseding(db, prior, g)
  {
    prior :| prior in ActiveFor(db, tx.machine, tx.harness) && Effect(db, tx) == Superseding(db, prior, g);
  }

  lemma AuditAside(db: Db, log: seq<AuditEvent>, machine: string, harness: string, hash: string)
    ensures ActiveFor(db.(audit := log), machine, harness) == ActiveFor(db, machine, harness)
    ensures TokenUsed(db.(audit := log), hash) == TokenUsed(db, hash)
  {
  }

  /** Every transaction keeps the tables consistent and the log a faithful record of them. */
  lemma EffectKeeps(db: Db, tx: Tx)
    requires Inv(db) && Allowed(db, tx)
    ensures Inv(Effect(db, tx))
  {
    hide Replay, Versions, ActiveIn, RevokedIn, MachinesOk, OwnersExist;
    match tx
    case Enrol(_, _, _, _, _, _) => EnrolKeeps(db, tx);
    case Issue(_, _, _, _, _) => IssueKeeps(db, tx);
    case Revoke(g, byOperator) =>
      RetireKeeps(db, g, RevokedRow(db.grants[g], byOperator).reason, RevokedRow(db.grants[g], byOperator));
    case PutSecret(_, _, _) => ReplayOne(db.audit, SECRET_ROW);
    case Standalone(e) => ReplayOne(db.audit, e);
  }

  // ---- Runs ---------------------------------------------------------------

  /** A transaction commits or leaves everything as it was. */
  ghost predicate Step(db: Db, db': Db) {
    db' == db || exists tx :: Allowed(db, tx) && db' == Effect(db, tx)
  }

  /** Any mix of committed and aborted transactions, from the empty store. */
  ghost predicate Run(states: seq<Db>) {
    && states != [] && states[0] == EMPTY
    && forall i | 0 <= i < |states| - 1 :: Step(states[i], states[i + 1])
  }

  lemma {:induction false} ReachableInv(states: seq<Db>, i: nat)
    requires Run(states) && i < |states|
    ensures Inv(states[i])
  {
    if i == 0 {
      assert View(EMPTY) == Replay([]);
    } else {
      ReachableInv(states, i - 1);
      assert Step(states[i - 1], states[i]);
      if states[i] != states[i - 1] {
        var tx :| Allowed(states[i - 1], tx) && states[i] == Effect(states[i - 1], tx);
        EffectKeeps(states[i - 1], tx);
      }
    }
  }

  /** In every reachable state, replaying the allowed lifecycle rows rebuilds the active
      grants, the revoked grants and the credential versions; and at most one grant per
      machine and harness is active. */
  lemma LogRebuildsTables(states: seq<Db>, i: nat)
    requires Run(states) && i < |states|
    ensures Replay(states[i].audit) == View(states[i])
    ensures forall m, h :: |ActiveFor(states[i], m, h)| <= 1
  {
    ReachableInv(states, i);
    forall m, h
      ensures |ActiveFor(states[i], m, h)| <= 1
    {
      var active := ActiveFor(states[i], m, h);
      if active != {} {
        var g :| g in active;
        assert active == {g};
      }
    }
  }

  /** Grants stay, change nothing but their state, and once revoked do not change at all. */
  ghost predicate GrantsForward(gs: Grants, gs': Grants) {
    forall g | g in gs ::
      && g in gs' && gs'[g].(state := gs[g].state) == gs[g]
      && (gs[g].state.Revoked? ==> gs'[g] == gs[g])
  }

  ghost predicate MachinesForward(ms: Machines, ms': Machines) {
    forall m | m in ms :: m in ms' && ms'[m].node == ms[m].node && ms'[m].version >= ms[m].version
  }

  /** What a step never undoes: revocations, node bindings, versions, generations, the log. */
  ghost predicate Forward(db: Db, db': Db) {
    && GrantsForward(db.grants, db'.grants)
    && MachinesForward(db.machines, db'.machines)
    && (forall r :: Generation(db', r) >= Generation(db, r))
    && db.audit <= db'.audit
  }

  lemma IssueForward(db: Db, tx: Tx)
    requires Inv(db) && tx.Issue? && Allowed(db, tx)
    ensures Forward(db, Effect(db, tx))
  {
    hide Inv, TokenUsed;
    var g := Grant(tx.newId, tx.machine, tx.harness, tx.caps, Active, tx.tokenHash);
    if ActiveFor(db, tx.machine, tx.harness) != {} {
      var prior := Prior(db, tx, g);
      hide Effect, ActiveFor, Allowed, GrantsOk;
      SupersedingForward(db, prior, g);
    }
  }

  lemma SupersedingForward(db: Db, prior: string, g: Grant)
    requires prior in db.grants && db.grants[prior].state.Active? && g.id !in db.grants
    ensures Forward(db, Superseding(db, prior, g))
  {
    var rows := [SupersededRow(db.grants[prior])] + [IssuedRow(g)];
    assert Superseding(db, prior, g).audit == db.audit + rows;
  }

  lemma EffectForward(db: Db, tx: Tx)
    requires Inv(db) && Allowed(db, tx)
    ensures Forward(db, Effect(db, tx))
  {
    match tx
    case Enrol(_, _, _, _, _, _) => EnrolForward(db, tx);
    case Issue(_, _, _, _, _) => IssueForward(db, tx);
    case Revoke(_, _) => RevokeForward(db, tx);
    case PutSecret(_, _, _) => { hide Inv; }
    case Standalone(_) => { hide Inv; }
  }

  lemma EnrolForward(db: Db, tx: Tx)
    requires tx.Enrol? && Allowed(db, tx)
    ensures Forward(db, Effect(db, tx))
  {
    hide TokenUsed, ActiveFor, EnrolRow;
    var db' := Effect(db, tx);
    assert GrantsForward(db.grants, db'.grants);
    hide GrantsForward;
    assert MachinesForward(db.machines, db'.machines);
  }

  lemma RevokeForward(db: Db, tx: Tx)
    requires tx.Revoke? && Allowed(db, tx)
    ensures Forward(db, Effect(db, tx))
  {
    hide TokenUsed, ActiveFor, MachinesAt, RevokedRow;
  }

  /** Over any stretch of any run a revoked grant never becomes active again, a credential
      version never goes back, and no audit row changes or disappears. */
  lemma {:induction false} RunForward(states: seq<Db>, i: nat, j: nat)
    requires Run(states) && i <= j < |states|
    ensures Forward(states[i], states[j])
    decreases j
  {
    if i < j {
      RunForward(states, i, j - 1);
      ReachableInv(states, j - 1);
      assert Step(states[j - 1], states[j]);
      if states[j] != states[j - 1] {
        var tx :| Allowed(states[j - 1], tx) && states[j] == Effect(states[j - 1], tx);
        EffectForward(states[j - 1], tx);
      }
      ForwardTransitive(states[i], states[j - 1], states[j]);
    }
  }

  lemma ForwardTransitive(a: Db, b: Db, c: Db)
    requires Forward(a, b) && Forward(b, c)
    ensures Forward(a, c)
  {
    forall r | r in a.secrets
      ensures Generation(c, r) >= Generation(a, r)
    {
      if r !in b.secrets {
        assert Generation(b, r) == 0 >= Generation(a, r);
      }
    }
  }

  /** Two flows that observed the same generation cannot both replace the secret: once one
      has committed, the other's compare fails in every later state. */
  lemma CasWinsOnce(states: seq<Db>, i: nat, j: nat, ref: string, mine: string, theirs: string, seen: nat)
    requires Run(states) && i + 1 <= j < |states|
    requires Allowed(states[i], PutSecret(ref, mine, Some(seen)))
    requires states[i + 1] == Effect(states[i], PutSecret(ref, mine, Some(seen)))
    ensures !Allowed(states[j], PutSecret(ref, theirs, Some(seen)))
  {
    RunForward(states, i + 1, j);
    assert Generation(states[i + 1], ref) == seen + 1;
  }

  // ---- The transactions as the server runs them ---------------------------

  /** The first half of an issuance: the active grant of the pair, if any, is revoked. */
  method Supersede(tx: Db, machine: string, harness: string) returns (next: Db, superseded: Option<Grant>)
    requires GrantsOk(tx.grants)
    ensures SupersededIn(tx, machine, harness, next, superseded)
  {
    next, superseded := tx, None;
    var active := ActiveFor(tx, machine, harness);
    if active != {} {
      var id :| id in active;
      NoneLeft(tx, id, machine, harness);
      next := Retire(tx, id, "superseded");
      superseded := Some(next.grants[id]);
    }
  }

  ghost predicate SupersededIn(tx: Db, machine: string, harness: string, next: Db, superseded: Option<Grant>) {
    match superseded
    case None => ActiveFor(tx, machine, harness) == {} && next == tx
    case Some(before) =>
      && ActiveFor(tx, machine, harness) == {before.id} && ActiveFor(next, machine, harness) == {}
      && before.id in tx.grants && next == Retire(tx, before.id, "superseded") && before == next.grants[before.id]
  }

  /** The second half: the new grant is checked against every index and inserted with its rows. */
  method InsertGrant(tx: Db, g: Grant, superseded: Option<Grant>) returns (r: Option<Db>)
    ensures r == if g.id in tx.grants || TokenUsed(tx, g.tokenHash) || g.machine !in tx.machines
                    || ActiveFor(tx, g.machine, g.harness) != {} then None
                 else Some(tx.(grants := tx.grants[g.id := g],
                               audit := tx.audit + IssueRows(superseded, g)))
  {
    if g.id in tx.grants || TokenUsed(tx, g.tokenHash) || g.machine !in tx.machines
       || ActiveFor(tx, g.machine, g.harness) != {}
    {
      return None;
    }
    var rows: seq<AuditEvent> := [];
    if superseded.Some? {
      rows := rows + [SupersededRow(superseded.value)];
    }
    rows := rows + [IssuedRow(g)];
    assert rows == IssueRows(superseded, g);
    r := Some(tx.(grants := tx.grants[g.id := g], audit := tx.audit + rows));
  }

  function IssueRows(superseded: Option<Grant>, g: Grant): seq<AuditEvent> {
    (if superseded.Some? then [SupersededRow(superseded.value)] else []) + [IssuedRow(g)]
  }

  /** The two halves together are the issuance, or it is refused. */
  lemma IssuedEffect(db: Db, tx: Tx, next: Db, superseded: Option<Grant>, inserted: Option<Db>)
    requires Inv(db) && tx.Issue? && SupersededIn(db, tx.machine, tx.harness, next, superseded)
    requires var g := Grant(tx.newId, tx.machine, tx.harness, tx.caps, Active, tx.tokenHash);
      inserted == if g.id in next.grants || TokenUsed(next, g.tokenHash) || g.machine !in next.machines
                     || ActiveFor(next, g.machine, g.harness) != {} then None
                  else Some(next.(grants := next.grants[g.id := g], audit := next.audit + IssueRows(superseded, g)))
    ensures inserted.Some? <==> Allowed(db, tx)
    ensures inserted.Some? ==> inserted.value == Effect(db, tx)
    ensures inserted.Some? ==> ActiveFor(inserted.value, tx.machine, tx.harness) == {tx.newId}
    ensures inserted.Some? && superseded.Some? ==>
      superseded.value.id in inserted.value.grants && inserted.value.grants[superseded.value.id] == superseded.value
    ensures inserted.Some? ==>
      tx.newId in inserted.value.grants &&
      inserted.value.grants[tx.newId] == Grant(tx.newId, tx.machine, tx.harness, tx.caps, Active, tx.tokenHash)
    ensures superseded.Some? ==> superseded.value.state == Revoked("superseded")
  {
    var g := Grant(tx.newId, tx.machine, tx.harness, tx.caps, Active, tx.tokenHash);
    if superseded.Some? {
      SameTokens(db, superseded.value.id, "superseded", tx.tokenHash);
    }
    if inserted.Some? {
      OnlyNew(next, g, inserted.value);
      if superseded.Some? {
        var prior := Prior(db, tx, g);
        hide Effect, Inv, TokenUsed;
        assert prior == superseded.value.id;
        assert next.audit + IssueRows(superseded, g)
            == db.audit + [SupersededRow(db.grants[prior])] + [IssuedRow(g)];
      } else {
        assert IssueRows(superseded, g) == [IssuedRow(g)];
      }
    }
  }

  /** The same, spelt out: what is superseded, and the rows. */
  lemma IssueSpelt(db: Db, next: Db, g: Grant, superseded: Option<Grant>)
    requires GrantsOk(db.grants) && SupersededIn(db, g.machine, g.harness, next, superseded)
    ensures next.machines == db.machines && next.secrets == db.secrets
    ensures var issued := AuditEvent(Issued, MachineActor, true, g.machine, g.harness, g.id, 0, "");
      match superseded
      case None => next.grants == db.grants && next.audit + IssueRows(superseded, g) == db.audit + [issued]
      case Some(prior) =>
        && prior.id in db.grants && prior == db.grants[prior.id].(state := Revoked("superseded"))
        && next.grants == db.grants[prior.id := prior]
        && next.audit + IssueRows(superseded, g)
           == db.audit + [AuditEvent(Superseded, SystemActor, true, g.machine, g.harness, prior.id, 0, "superseded")] + [issued]
  {
    if superseded.Some? {
      assert superseded.value.id in ActiveFor(db, g.machine, g.harness);
      assert IssueRows(superseded, g) == [SupersededRow(superseded.value)] + [IssuedRow(g)];
    } else {
      assert IssueRows(superseded, g) == [IssuedRow(g)];
    }
  }

  lemma OnlyNew(db: Db, g: Grant, after: Db)
    requires g.state.Active? && g.id !in db.grants && ActiveFor(db, g.machine, g.harness) == {}
    requires after.grants == db.grants[g.id := g]
    ensures ActiveFor(after, g.machine, g.harness) == {g.id}
  {
    forall h | h in ActiveFor(after, g.machine, g.harness)
      ensures h == g.id
    {
      assert h !in ActiveFor(db, g.machine, g.harness);
    }
    assert g.id in ActiveFor(after, g.machine, g.harness);
  }

  class Store {
    var db: Db

    constructor ()
      ensures db == EMPTY
    {
      db := EMPTY;
    }

    /** Enrolment: an upsert keyed on the node. Any statement, or the commit, may fail. */
    method Enrol(node: string, nodeName: string, name: string, os: string, hash: string, newId: string)
      returns (r: Option<(Machine, bool)>, ghost faulted: bool)
      requires Inv(db)
      modifies this
      ensures Inv(db)
      ensures r.None? ==> db == old(db)
      ensures var tx := Tx.Enrol(node, nodeName, name, os, hash, newId);
        && (r.Some? ==> Allowed(old(db), tx) && db == Effect(old(db), tx))
        && (Allowed(old(db), tx) && !faulted ==> r.Some?)
      ensures r.Some? ==> (r.value.1 <==> MachinesAt(old(db), node) != {})
      ensures r.None? && !faulted ==>
        newId in old(db).machines && forall m | m in old(db).machines :: old(db).machines[m].node != node
      ensures r.Some? ==>
        var (m, rotated) := r.value;
        && m == Machine(m.id, name, os, node, nodeName, hash, m.version)
        && (if rotated then m.id in old(db).machines && old(db).machines[m.id].node == node
                            && m.version == old(db).machines[m.id].version + 1
            else m.id == newId && newId !in old(db).machines && m.version == 1)
        && db == Db(old(db).machines[m.id := m], old(db).grants, old(db).secrets, old(db).audit + [
                      AuditEvent(if rotated then Rotation else Enrolment, MachineActor, true, m.id, "", "", m.version, "")])
    {
      var tx, fails := db, *;
      if fails {
        return None, true;
      }
      var here := MachinesAt(tx, node);
      var m: Machine;
      if here == {} {
        m := Machine(newId, name, os, node, nodeName, hash, 1);
        if newId in tx.machines {
          assert forall n | n in tx.machines :: n !in here;
          return None, false;
        }
      } else {
        var id :| id in here;
        assert here == {id};
        m := tx.machines[id];
        m := m.(name := name, os := os, nodeName := nodeName, hash := hash, version := m.version + 1);
      }
      tx := tx.(machines := tx.machines[m.id := m]);
      tx := tx.(audit := tx.audit + [EnrolRow(m, here != {})]);
      var commitFails: bool := *;
      if commitFails {
        return None, true;
      }
      EffectKeeps(db, Tx.Enrol(node, nodeName, name, os, hash, newId));
      db := tx;
      return Some((m, here != {})), false;
    }

    /** Issuance: supersede the active grant of the pair, insert the new one, record both. The
        insert is checked against every index of the table; the one-active index never fires. */
    method IssueGrant(machine: string, harness: string, caps: seq<string>, tokenHash: string, newId: string)
      returns (r: Option<(Grant, Option<Grant>)>, ghost faulted: bool)
      requires Inv(db)
      modifies this
      ensures Inv(db)
      ensures r.None? ==> db == old(db)
      ensures var tx := Tx.Issue(machine, harness, caps, tokenHash, newId);
        && (r.Some? ==> Allowed(old(db), tx) && db == Effect(old(db), tx))
        && (Allowed(old(db), tx) && !faulted ==> r.Some?)
      ensures r.Some? ==> ActiveFor(db, machine, harness) == {newId} && db.grants[newId] == r.value.0
      ensures r.Some? ==> (r.value.1.None? <==> ActiveFor(old(db), machine, harness) == {})
      ensures r.Some? && r.value.1.Some? ==> ActiveFor(old(db), machine, harness) == {r.value.1.value.id}
      ensures r.None? && !faulted ==>
        machine !in old(db).machines || newId in old(db).grants
        || exists g | g in old(db).grants :: old(db).grants[g].tokenHash == tokenHash
      ensures r.Some? ==> r.value.0 == Grant(newId, machine, harness, caps, Active, tokenHash)
      ensures r.Some? ==>
        var issued := AuditEvent(Issued, MachineActor, true, machine, harness, newId, 0, "");
        match r.value.1
        case None =>
          db == Db(old(db).machines, old(db).grants[newId := r.value.0], old(db).secrets, old(db).audit + [issued])
        case Some(prior) =>
          && prior.id in old(db).grants && prior == old(db).grants[prior.id].(state := Revoked("superseded"))
          && db == Db(old(db).machines, old(db).grants[prior.id := prior][newId := r.value.0], old(db).secrets,
                      old(db).audit + [AuditEvent(Superseded, SystemActor, true, machine, harness, prior.id, 0, "superseded")]
                      + [issued])
    {
      var fails: bool := *;
      if fails {
        return None, true;
      }
      var tx, superseded := Supersede(db, machine, harness);
      var g := Grant(newId, machine, harness, caps, Active, tokenHash);
      var inserted := InsertGrant(tx, g, superseded);
      ghost var event := Tx.Issue(machine, harness, caps, tokenHash, newId);
      IssuedEffect(db, event, tx, superseded, inserted);
      IssueSpelt(db, tx, g, superseded);
      hide Inv, Effect, Allowed, TokenUsed, ActiveFor, Retire, IssueRows, SupersededIn;
      if inserted.None? {
        return None, false;
      }
      var commitFails: bool := *;
      if commitFails {
        return None, true;
      }
      EffectKeeps(db, event);
      db := inserted.value;
      return Some((g, superseded)), false;
    }

    /** Revocation: only an active grant changes, and only an actual change is recorded. */
    method RevokeGrant(id: string, byOperator: bool) returns (r: Option<(Grant, bool)>, ghost faulted: bool)
      requires Inv(db)
      modifies this
      ensures var tx := Tx.Revoke(id, byOperator);
        && Inv(db)
        && (r.None? || !r.value.1 ==> db == old(db))
        && (r.Some? ==> id in db.grants && db.grants[id] == r.value.0 && r.value.0.state.Revoked?)
        && (r.Some? && r.value.1 ==> Allowed(old(db), tx) && db == Effect(old(db), tx))
        && (!faulted ==> (r.Some? <==> id in old(db).grants) && (r.Some? && r.value.1 <==> Allowed(old(db), tx)))
      ensures r.Some? && r.value.1 ==>
        var reason := if byOperator then "revoked_by_operator" else "revoked_by_machine";
        var row := AuditEvent(Withdrawn, if byOperator then OperatorActor else MachineActor, true,
                              if byOperator then "" else r.value.0.machine, r.value.0.harness, id, 0, reason);
        && id in old(db).grants && old(db).grants[id].state.Active?
        && r.value.0 == old(db).grants[id].(state := Revoked(reason))
        && db == Db(old(db).machines, old(db).grants[id := r.value.0], old(db).secrets, old(db).audit + [row])
    {
      var tx, fails := db, *;
      if fails {
        return None, true;
      }
      if id !in tx.grants {
        return None, false;
      }
      var g := tx.grants[id];
      if !g.state.Active? {
        var emptyCommitFails: bool := *;
        if emptyCommitFails {
          return None, true;
        }
        return Some((g, false)), false;
      }
      var row := RevokedRow(g, byOperator);
      tx := Retire(tx, id, row.reason);
      tx := tx.(audit := tx.audit + [row]);
      var commitFails: bool := *;
      if commitFails {
        return None, true;
      }
      EffectKeeps(db, Tx.Revoke(id, byOperator));
      db := tx;
      return Some((db.grants[id], true)), false;
    }

    /** Secret replacement; with an expected generation the compare happens against the row
        this transaction reads. */
    method PutSecret(ref: string, ciphertext: string, expected: Option<nat>)
      returns (r: Option<nat>, ghost faulted: bool)
      requires Inv(db)
      modifies this
      ensures var tx := Tx.PutSecret(ref, ciphertext, expected);
        && Inv(db)
        && (r.None? ==> db == old(db))
        && (r.Some? ==> Allowed(old(db), tx) && db == Effect(old(db), tx))
        && (Allowed(old(db), tx) && !faulted ==> r.Some?)
      ensures r.None? && !faulted ==>
        expected.Some? && expected.value != (if ref in old(db).secrets then old(db).secrets[ref].generation else 0)
      ensures r.Some? ==>
        && r.value == (if ref in old(db).secrets then old(db).secrets[ref].generation else 0) + 1
        && (expected.Some? ==> r.value == expected.value + 1)
        && db == Db(old(db).machines, old(db).grants, old(db).secrets[ref := Secret(ciphertext, r.value)], old(db).audit + [
                      AuditEvent(Other("secret_imported"), OperatorActor, true, "", "", "", 0, "")])
    {
      var tx, fails := db, *;
      if fails {
        return None, true;
      }
      if expected.Some? {
        var current := if ref in tx.secrets then tx.secrets[ref].generation else 0;
        if current != expected.value {
          return None, false;
        }
      }
      var generation := 1;
      if ref in tx.secrets {
        generation := tx.secrets[ref].generation + 1;
      }
      tx := tx.(secrets := tx.secrets[ref := Secret(ciphertext, generation)]);
      tx := tx.(audit := tx.audit + [SECRET_ROW]);
      var commitFails: bool := *;
      if commitFails {
        return None, true;
      }
      EffectKeeps(db, Tx.PutSecret(ref, ciphertext, expected));
      db := tx;
      return Some(generation), false;
    }

    /** A row with no accompanying mutation: a denial, or an event outside the lifecycle. */
    method AppendAudit(e: AuditEvent) returns (ok: bool, ghost faulted: bool)
      requires Inv(db) && !Lifecycle(e)
      modifies this
      ensures Inv(db) && (ok || faulted)
      ensures db == if ok then old(db).(audit := old(db).audit + [e]) else old(db)
    {
      var fails: bool := *;
      if fails {
        return false, true;
      }
      EffectKeeps(db, Standalone(e));
      db := db.(audit := db.audit + [e]);
      return true, false;
    }
  }
}
