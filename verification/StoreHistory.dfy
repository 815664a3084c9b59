/** What the tables hold after any run, told by the transactions that committed: who enrolled last,
    which grants were issued and what ended them, what was last written under a secret's name.
    About internal/store/sqlite.go. */
module StoreHistory {
  import opened Prelude
  import opened ControlStore

  /** A run with its transactions: the one that committed at each step, or none. */
  ghost predicate RunBy(states: seq<Db>, txs: seq<Option<Tx>>) {
    && |states| == |txs| + 1 && states[0] == EMPTY
    && forall i | 0 <= i < |txs| :: StepBy(states[i], states[i + 1], txs[i])
  }

  ghost predicate StepBy(db: Db, db': Db, tx: Option<Tx>) {
    match tx
    case None => db' == db
    case Some(t) => Allowed(db, t) && db' == Effect(db, t)
  }

  /** Every run is one. */
  lemma {:induction false} Labels(states: seq<Db>) returns (txs: seq<Option<Tx>>)
    requires Run(states)
    ensures RunBy(states, txs)
  {
    hide Effect, Allowed;
    var n := |states| - 1;
    if n == 0 {
      return [];
    }
    assert Run(states[..n]) by {
      assert forall i | 0 <= i < n - 1 :: Step(states[i], states[i + 1]);
    }
    txs := Labels(states[..n]);
    assert Step(states[n - 1], states[n]);
    if states[n] == states[n - 1] {
      txs := txs + [None];
    } else {
      var tx :| Allowed(states[n - 1], tx) && states[n] == Effect(states[n - 1], tx);
      txs := txs + [Some(tx)];
    }
    forall i | 0 <= i < n
      ensures StepBy(states[i], states[i + 1], txs[i])
    {
      if i < n - 1 {
        assert StepBy(states[..n][i], states[..n][i + 1], txs[i]);
      }
    }
  }

  lemma {:induction false} RunByInv(states: seq<Db>, txs: seq<Option<Tx>>, i: nat)
    requires RunBy(states, txs) && i < |states|
    ensures Inv(states[i])
  {
    if i == 0 {
      assert View(EMPTY) == Replay([]);
    } else {
      RunByInv(states, txs, i - 1);
      assert StepBy(states[i - 1], states[i], txs[i - 1]);
      hide Inv, Effect, Allowed;
      if txs[i - 1].Some? {
        EffectKeeps(states[i - 1], txs[i - 1].value);
      }
    }
  }

  // ---- Secrets ------------------------------------------------------------

  predicate PutsAt(tx: Option<Tx>, ref: string) {
    tx.Some? && tx.value.PutSecret? && tx.value.ref == ref
  }

  /** How many of the first n steps replaced the secret, and the last text they wrote. */
  function Puts(txs: seq<Option<Tx>>, ref: string, n: nat): nat
    requires n <= |txs|
  {
    if n == 0 then 0 else Puts(txs, ref, n - 1) + if PutsAt(txs[n - 1], ref) then 1 else 0
  }

  function LastPut(txs: seq<Option<Tx>>, ref: string, n: nat): Option<string>
    requires n <= |txs|
  {
    if n == 0 then None
    else if PutsAt(txs[n - 1], ref) then Some(txs[n - 1].value.ciphertext)
    else LastPut(txs, ref, n - 1)
  }

  /** After any run the secret under a name is the text of the last committed replacement, and its
      generation is how many there were. */
  lemma {:induction false} SecretIsLast(states: seq<Db>, txs: seq<Option<Tx>>, i: nat, ref: string)
    requires RunBy(states, txs) && i < |states|
    ensures ref in states[i].secrets <==> LastPut(txs, ref, i).Some?
    ensures ref in states[i].secrets ==> states[i].secrets[ref] == Secret(LastPut(txs, ref, i).value, Puts(txs, ref, i))
    ensures ref !in states[i].secrets ==> Puts(txs, ref, i) == 0
  {
    if i > 0 {
      SecretIsLast(states, txs, i - 1, ref);
      assert StepBy(states[i - 1], states[i], txs[i - 1]);
      if txs[i - 1].Some? {
        SecretsMove(states[i - 1], txs[i - 1].value);
      }
      hide Effect, Allowed;
    }
  }

  lemma SecretsMove(db: Db, tx: Tx)
    requires Allowed(db, tx)
    ensures Effect(db, tx).secrets ==
            if tx.PutSecret? then db.secrets[tx.ref := Secret(tx.ciphertext, Generation(db, tx.ref) + 1)] else db.secrets
  {
    hide MachinesAt, ActiveFor, TokenUsed;
  }

  // ---- Machines -----------------------------------------------------------

  predicate EnrolsAt(tx: Option<Tx>, node: string) {
    tx.Some? && tx.value.Enrol? && tx.value.node == node
  }

  function Enrols(txs: seq<Option<Tx>>, node: string, n: nat): nat
    requires n <= |txs|
  {
    if n == 0 then 0 else Enrols(txs, node, n - 1) + if EnrolsAt(txs[n - 1], node) then 1 else 0
  }

  /** The last enrolment of a node, and the id its first one brought. */
  function LastEnrol(txs: seq<Option<Tx>>, node: string, n: nat): (r: Option<Tx>)
    requires n <= |txs|
    ensures r.Some? ==> r.value.Enrol?
  {
    if n == 0 then None
    else if EnrolsAt(txs[n - 1], node) then txs[n - 1]
    else LastEnrol(txs, node, n - 1)
  }

  function FirstId(txs: seq<Option<Tx>>, node: string, n: nat): string
    requires n <= |txs|
  {
    if n == 0 then ""
    else if EnrolsAt(txs[n - 1], node) && LastEnrol(txs, node, n - 1).None? then txs[n - 1].value.newId
    else FirstId(txs, node, n - 1)
  }

  /** The machine of an enrolment as of the count-th one. */
  function Written(tx: Tx, id: string, count: nat): Machine
    requires tx.Enrol?
  {
    Machine(id, tx.name, tx.os, tx.node, tx.nodeName, tx.hash, count)
  }

  /** After any run a node has one machine if it ever enrolled: under the id of its first
      enrolment, with what its last one said, at a version that counts them. */
  lemma {:induction false} MachineIsLast(states: seq<Db>, txs: seq<Option<Tx>>, i: nat, node: string)
    requires RunBy(states, txs) && i < |states|
    ensures LastEnrol(txs, node, i).None? ==> MachinesAt(states[i], node) == {} && Enrols(txs, node, i) == 0
    ensures LastEnrol(txs, node, i).Some? ==>
      && MachinesAt(states[i], node) == {FirstId(txs, node, i)}
      && states[i].machines[FirstId(txs, node, i)]
         == Written(LastEnrol(txs, node, i).value, FirstId(txs, node, i), Enrols(txs, node, i))
  {
    if i > 0 {
      MachineIsLast(states, txs, i - 1, node);
      RunByInv(states, txs, i - 1);
      assert StepBy(states[i - 1], states[i], txs[i - 1]);
      if txs[i - 1].Some? {
        MachinesMove(states[i - 1], txs[i - 1].value, node);
      }
      hide Effect, Allowed, Inv, MachinesAt;
    }
  }

  lemma MachinesMove(db: Db, tx: Tx, node: string)
    requires Inv(db) && Allowed(db, tx)
    ensures var db' := Effect(db, tx);
      if !EnrolsAt(Some(tx), node) then
        MachinesAt(db', node) == MachinesAt(db, node) && forall m | m in MachinesAt(db, node) :: db'.machines[m] == db.machines[m]
      else if MachinesAt(db, node) == {} then
        MachinesAt(db', node) == {tx.newId} && db'.machines[tx.newId] == Written(tx, tx.newId, 1)
      else
        && MachinesAt(db', node) == MachinesAt(db, node)
        && forall m | m in MachinesAt(db, node) :: db'.machines[m] == Written(tx, m, db.machines[m].version + 1)
  {
    hide ActiveFor, TokenUsed, GrantsOk, Replay, OwnersExist, EnrolRow;
    if tx.Enrol? {
      OneMachine(db, tx.node);
      var m := Moved(db, tx);
    }
  }

  lemma OneMachine(db: Db, node: string)
    requires Inv(db)
    ensures forall m, n | m in MachinesAt(db, node) && n in MachinesAt(db, node) :: m == n
  {
  }

  lemma Moved(db: Db, tx: Tx) returns (m: Machine)
    requires Inv(db) && tx.Enrol? && Allowed(db, tx)
    ensures Effect(db, tx).machines == db.machines[m.id := m]
    ensures MachinesAt(db, tx.node) == {} ==> m == Written(tx, tx.newId, 1) && tx.newId !in db.machines
    ensures MachinesAt(db, tx.node) != {} ==>
      m.id in MachinesAt(db, tx.node) && m == Written(tx, m.id, db.machines[m.id].version + 1)
  {
    hide EnrolRow, Replay, GrantsOk, OwnersExist;
    var db' := Effect(db, tx);
    if MachinesAt(db, tx.node) == {} {
      m := Written(tx, tx.newId, 1);
    } else {
      var id :| id in MachinesAt(db, tx.node) && id in db'.machines && db'.machines == db.machines[id := db'.machines[id]]
                && db'.machines[id] == Written(tx, id, db.machines[id].version + 1);
      m := db'.machines[id];
    }
  }

  // ---- Grants -------------------------------------------------------------

  /** The transaction ends an active grant: it revokes it, or issues another for its pair. */
  predicate Ends(tx: Tx, id: string, machine: string, harness: string) {
    || (tx.Revoke? && tx.grant == id)
    || (tx.Issue? && tx.machine == machine && tx.harness == harness)
  }

  /** What an ended grant's state says. */
  function EndedBy(tx: Tx): GrantState {
    if tx.Issue? then Revoked("superseded")
    else if tx.Revoke? && tx.byOperator then Revoked("revoked_by_operator")
    else Revoked("revoked_by_machine")
  }

  /** The state of the grant issued at k after n steps. */
  function StateAfter(txs: seq<Option<Tx>>, k: nat, n: nat): GrantState
    requires k < n <= |txs| && txs[k].Some? && txs[k].value.Issue?
    decreases n
  {
    if n == k + 1 then Active
    else
      var before, t := StateAfter(txs, k, n - 1), txs[k].value;
      if before.Active? && txs[n - 1].Some? && Ends(txs[n - 1].value, t.newId, t.machine, t.harness)
      then EndedBy(txs[n - 1].value) else before
  }

  /** After any run each issued grant is there with what its issuance said, active until the first
      transaction that ends it, and then for good as that one left it. */
  lemma {:induction false} GrantIsIssued(states: seq<Db>, txs: seq<Option<Tx>>, k: nat, i: nat)
    requires RunBy(states, txs) && k < i < |states| && txs[k].Some? && txs[k].value.Issue?
    ensures var t := txs[k].value;
      && t.newId in states[i].grants
      && states[i].grants[t.newId] == Grant(t.newId, t.machine, t.harness, t.caps, StateAfter(txs, k, i), t.tokenHash)
    decreases i
  {
    hide Effect, Allowed, Inv, Ends, EndedBy;
    RunByInv(states, txs, i - 1);
    assert StepBy(states[i - 1], states[i], txs[i - 1]);
    if i == k + 1 {
      Inserted(states[k], txs[k].value);
    } else {
      GrantIsIssued(states, txs, k, i - 1);
      if txs[i - 1].Some? {
        GrantMoves(states[i - 1], txs[i - 1].value, txs[k].value.newId);
      }
    }
  }

  lemma Inserted(db: Db, tx: Tx)
    requires Inv(db) && Allowed(db, tx) && tx.Issue?
    ensures tx.newId in Effect(db, tx).grants
    ensures Effect(db, tx).grants[tx.newId] == Grant(tx.newId, tx.machine, tx.harness, tx.caps, Active, tx.tokenHash)
  {
    hide TokenUsed, MachinesAt;
    if ActiveFor(db, tx.machine, tx.harness) != {} {
      var prior := Prior(db, tx, Grant(tx.newId, tx.machine, tx.harness, tx.caps, Active, tx.tokenHash));
      hide Effect, Inv;
    }
  }

  /** What one transaction does to a grant that is there. */
  lemma GrantMoves(db: Db, tx: Tx, id: string)
    requires Inv(db) && Allowed(db, tx) && id in db.grants
    ensures id in Effect(db, tx).grants
    ensures var g := db.grants[id];
      Effect(db, tx).grants[id] ==
      if g.state.Active? && Ends(tx, id, g.machine, g.harness) then g.(state := EndedBy(tx)) else g
  {
    hide MachinesAt, TokenUsed;
    if tx.Issue? && ActiveFor(db, tx.machine, tx.harness) != {} {
      var g := db.grants[id];
      var prior := Prior(db, tx, Grant(tx.newId, tx.machine, tx.harness, tx.caps, Active, tx.tokenHash));
      NoneLeft(db, prior, tx.machine, tx.harness);
      assert id in ActiveFor(db, tx.machine, tx.harness) <==> g.state.Active? && Ends(tx, id, g.machine, g.harness);
      hide Effect, Inv, ActiveFor;
    } else if tx.Issue? && db.grants[id].state.Active? {
      assert id !in ActiveFor(db, tx.machine, tx.harness);
    }
  }

  /** And no grant is there that was not issued. */
  lemma {:induction false} OnlyIssued(states: seq<Db>, txs: seq<Option<Tx>>, i: nat, id: string) returns (k: nat)
    requires RunBy(states, txs) && i < |states| && id in states[i].grants
    ensures k < i && txs[k].Some? && txs[k].value.Issue? && txs[k].value.newId == id
  {
    assert i > 0;
    RunByInv(states, txs, i - 1);
    assert StepBy(states[i - 1], states[i], txs[i - 1]);
    if id in states[i - 1].grants {
      k := OnlyIssued(states, txs, i - 1, id);
    } else {
      NewGrant(states[i - 1], txs[i - 1].value, id);
      k := i - 1;
    }
  }

  lemma NewGrant(db: Db, tx: Tx, id: string)
    requires Inv(db) && Allowed(db, tx) && id !in db.grants && id in Effect(db, tx).grants
    ensures tx.Issue? && tx.newId == id
  {
    hide MachinesAt, TokenUsed;
    if tx.Issue? && ActiveFor(db, tx.machine, tx.harness) != {} {
      var prior := Prior(db, tx, Grant(tx.newId, tx.machine, tx.harness, tx.caps, Active, tx.tokenHash));
      hide Effect, Inv;
    }
  }
}
