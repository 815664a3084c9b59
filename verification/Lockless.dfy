/** Enrolment answers persisted by processes that no lock keeps apart: each loads, then writes the
    credential, then the state. Model of PersistEnrolment in internal/agent/enrol.go where Lock
    does nothing (internal/agent/lock_other.go) or the filesystem ignores it. */
module Lockless {
  import opened Prelude

  type Pid = nat

  /** Where a process is with its answer, whose credential version it carries. */
  datatype Phase = Idle | Loaded(version: nat) | CredSaved(version: nat)

  /** One machine: the versions in the state file and in the credential file, zero when there is
      none, and how many credentials the server has minted. */
  datatype World = World(stored: nat, cred: nat, minted: nat, phases: map<Pid, Phase>)

  datatype Event = Rotate | Load(pid: Pid, version: nat) | SaveCred(pid: Pid) | SaveState(pid: Pid) | Stop(pid: Pid)

  const NOTHING := World(0, 0, 0, map[])

  function PhaseOf(w: World, pid: Pid): Phase {
    if pid in w.phases then w.phases[pid] else Idle
  }

  function To(w: World, pid: Pid, p: Phase): World {
    w.(phases := w.phases[pid := p])
  }

  predicate AllIdle(w: World) {
    forall pid | pid in w.phases :: w.phases[pid].Idle?
  }

  /** The world after an event, None when it cannot happen now. A stale answer is refused at the
      load; a failure or a crash is a stop, wherever the process is. */
  function Step(w: World, e: Event, locking: bool): Option<World> {
    match e
    case Rotate => Some(w.(minted := w.minted + 1))
    case Load(pid, v) =>
      if PhaseOf(w, pid).Idle? && 1 <= v <= w.minted && (locking ==> AllIdle(w))
      then Some(To(w, pid, if w.stored >= v then Idle else Loaded(v))) else None
    case SaveCred(pid) =>
      if PhaseOf(w, pid).Loaded?
      then Some(To(w.(cred := PhaseOf(w, pid).version), pid, CredSaved(PhaseOf(w, pid).version))) else None
    case SaveState(pid) =>
      if PhaseOf(w, pid).CredSaved?
      then Some(To(w.(stored := PhaseOf(w, pid).version), pid, Idle)) else None
    case Stop(pid) => Some(To(w, pid, Idle))
  }

  ghost predicate Run(ws: seq<World>, es: seq<Event>, locking: bool) {
    && |ws| == |es| + 1 && ws[0] == NOTHING
    && forall i | 0 <= i < |es| :: Step(ws[i], es[i], locking) == Some(ws[i + 1])
  }

  /** Event k is the last of the first n that writes the state file. */
  ghost predicate LastSave(es: seq<Event>, n: nat, k: nat)
    requires n <= |es|
  {
    k < n && es[k].SaveState? && forall j | k < j < n :: !es[j].SaveState?
  }

  /** The version a save writes. */
  function Carried(w: World, e: Event): nat {
    if e.SaveState? && PhaseOf(w, e.pid).CredSaved? then PhaseOf(w, e.pid).version else 0
  }

  /** The state file holds what the last save wrote. */
  lemma {:induction false} StoredIsLast(ws: seq<World>, es: seq<Event>, n: nat, locking: bool)
    requires Run(ws, es, locking) && n <= |es|
    ensures ws[n].stored > 0 ==> exists k: nat :: LastSave(es, n, k)
    ensures forall k: nat | LastSave(es, n, k) :: Carried(ws[k], es[k]) == ws[n].stored
  {
    if n > 0 {
      StoredIsLast(ws, es, n - 1, locking);
      assert Step(ws[n - 1], es[n - 1], locking) == Some(ws[n]);
      if es[n - 1].SaveState? {
        assert LastSave(es, n, n - 1);
      } else {
        forall k: nat | LastSave(es, n, k)
          ensures LastSave(es, n - 1, k)
        {
        }
        if ws[n].stored > 0 {
          var k: nat :| LastSave(es, n - 1, k);
          assert LastSave(es, n, k);
        }
      }
    }
  }

  /** Event l is the load of the attempt pid is in after n events, with an answer of version v,
      newer than what was stored then. */
  ghost predicate LoadOf(ws: seq<World>, es: seq<Event>, n: nat, l: nat, pid: Pid, v: nat)
    requires n <= |es| < |ws|
  {
    && l < n && es[l] == Load(pid, v) && ws[l].stored < v
    && forall j | l < j < n && es[j].Load? :: es[j].pid != pid
  }

  lemma {:induction false} BusyLoaded(ws: seq<World>, es: seq<Event>, n: nat, pid: Pid, locking: bool) returns (l: nat)
    requires Run(ws, es, locking) && n <= |es| && !PhaseOf(ws[n], pid).Idle?
    ensures LoadOf(ws, es, n, l, pid, PhaseOf(ws[n], pid).version)
  {
    assert n > 0;
    assert Step(ws[n - 1], es[n - 1], locking) == Some(ws[n]);
    if es[n - 1].Load? && es[n - 1].pid == pid {
      l := n - 1;
    } else {
      l := BusyLoaded(ws, es, n - 1, pid, locking);
    }
  }

  /** Another process's save of a newer answer was the last before event i, and fell between the
      load of event i's attempt and event i. */
  ghost predicate Overtaken(ws: seq<World>, es: seq<Event>, i: nat, l: nat, k: nat)
    requires i < |es| < |ws|
  {
    && es[i].SaveState? && LoadOf(ws, es, i, l, es[i].pid, Carried(ws[i], es[i]))
    && l < k && LastSave(es, i, k) && Carried(ws[k], es[k]) > Carried(ws[i], es[i])
  }

  /** With the lock or without, an event takes the stored version back exactly when it is a save
      overtaken by a newer answer. */
  lemma GoesBackIff(ws: seq<World>, es: seq<Event>, i: nat, locking: bool)
    requires Run(ws, es, locking) && i < |es|
    ensures ws[i + 1].stored < ws[i].stored <==> exists l: nat, k: nat :: Overtaken(ws, es, i, l, k)
  {
    assert Step(ws[i], es[i], locking) == Some(ws[i + 1]);
    StoredIsLast(ws, es, i, locking);
    if ws[i + 1].stored < ws[i].stored {
      var l := BusyLoaded(ws, es, i, es[i].pid, locking);
      var k: nat :| LastSave(es, i, k);
      if k < l {
        assert LastSave(es, l, k);
        StoredIsLast(ws, es, l, locking);
      }
      assert Overtaken(ws, es, i, l, k);
    }
  }

  /** Under the lock at most one attempt is under way, with an answer newer than the stored one. */
  ghost predicate OneAttempt(w: World) {
    && (forall p, q | p in w.phases && q in w.phases && !w.phases[p].Idle? && !w.phases[q].Idle? :: p == q)
    && (forall p | p in w.phases && !w.phases[p].Idle? :: w.stored < w.phases[p].version)
    && (forall p | p in w.phases && w.phases[p].CredSaved? :: w.cred == w.phases[p].version)
    && w.stored <= w.cred
  }

  lemma OneAttemptNext(a: World, b: World, e: Event)
    requires OneAttempt(a) && Step(a, e, true) == Some(b)
    ensures OneAttempt(b) && a.stored <= b.stored
  {
    if !e.Rotate? {
      PhaseIs(a, e.pid);
      forall p | p in b.phases
        ensures p == e.pid || (p in a.phases && a.phases[p] == b.phases[p])
      {
      }
    }
  }

  lemma PhaseIs(w: World, pid: Pid)
    ensures !PhaseOf(w, pid).Idle? ==> pid in w.phases && w.phases[pid] == PhaseOf(w, pid)
  {
  }

  /** So it never goes back there, and the credential is never older than the state says. */
  lemma {:induction false} LockedForward(ws: seq<World>, es: seq<Event>, i: nat)
    requires Run(ws, es, true) && i < |ws|
    ensures OneAttempt(ws[i])
    ensures i > 0 ==> ws[i - 1].stored <= ws[i].stored
  {
    if i > 0 {
      LockedForward(ws, es, i - 1);
      assert Step(ws[i - 1], es[i - 1], true) == Some(ws[i]);
      hide Step, OneAttempt;
      OneAttemptNext(ws[i - 1], ws[i], es[i - 1]);
    } else {
      assert OneAttempt(NOTHING);
    }
  }

  // ---- The credential file ------------------------------------------------

  /** Event c is the last of the first n that writes the credential file. */
  ghost predicate LastCred(es: seq<Event>, n: nat, c: nat)
    requires n <= |es|
  {
    c < n && es[c].SaveCred? && forall j | c < j < n :: !es[j].SaveCred?
  }

  function CarriedCred(w: World, e: Event): nat {
    if e.SaveCred? && PhaseOf(w, e.pid).Loaded? then PhaseOf(w, e.pid).version else 0
  }

  lemma {:induction false} CredIsLast(ws: seq<World>, es: seq<Event>, n: nat, locking: bool)
    requires Run(ws, es, locking) && n <= |es|
    ensures ws[n].cred > 0 ==> exists c: nat :: LastCred(es, n, c)
    ensures forall c: nat | LastCred(es, n, c) :: CarriedCred(ws[c], es[c]) == ws[n].cred
  {
    if n > 0 {
      CredIsLast(ws, es, n - 1, locking);
      assert Step(ws[n - 1], es[n - 1], locking) == Some(ws[n]);
      if es[n - 1].SaveCred? {
        assert LastCred(es, n, n - 1);
      } else {
        forall c: nat | LastCred(es, n, c)
          ensures LastCred(es, n - 1, c)
        {
        }
        if ws[n].cred > 0 {
          var c: nat :| LastCred(es, n - 1, c);
          assert LastCred(es, n, c);
        }
      }
    }
  }

  /** Every answer has a version, and no state is written before a credential. */
  ghost predicate CredFirst(w: World) {
    && (forall p | p in w.phases :: w.phases[p].Loaded? ==> w.phases[p].version > 0)
    && (w.cred == 0 ==> w.stored == 0 && forall p | p in w.phases :: !w.phases[p].CredSaved?)
  }

  lemma {:induction false} RunCredFirst(ws: seq<World>, es: seq<Event>, i: nat, locking: bool)
    requires Run(ws, es, locking) && i < |ws|
    ensures CredFirst(ws[i])
  {
    if i > 0 {
      RunCredFirst(ws, es, i - 1, locking);
      assert Step(ws[i - 1], es[i - 1], locking) == Some(ws[i]);
    }
  }

  /** With the lock or without, the machine is left with an older credential than its state
      records exactly when the last credential written is older than the last state written. */
  lemma CredOlderIff(ws: seq<World>, es: seq<Event>, n: nat, locking: bool)
    requires Run(ws, es, locking) && n <= |es|
    ensures ws[n].cred < ws[n].stored <==>
            exists c: nat, k: nat ::
              LastCred(es, n, c) && LastSave(es, n, k) && CarriedCred(ws[c], es[c]) < Carried(ws[k], es[k])
  {
    CredIsLast(ws, es, n, locking);
    StoredIsLast(ws, es, n, locking);
    RunCredFirst(ws, es, n, locking);
    if ws[n].cred < ws[n].stored {
      var c: nat :| LastCred(es, n, c);
      var k: nat :| LastSave(es, n, k);
      assert CarriedCred(ws[c], es[c]) < Carried(ws[k], es[k]);
    }
  }

  // ---- Without the lock both happen ---------------------------------------

  ghost function Both(stored: nat, cred: nat, zero: Phase, one: Phase): World {
    World(stored, cred, 2, map[0 := zero, 1 := one])
  }

  /** Two answers are loaded before either is written, and the newer one's credential is. */
  ghost function BothLoad(): (seq<World>, seq<Event>) {
    ([NOTHING] + [World(0, 0, 1, map[])] + [World(0, 0, 2, map[])] + [World(0, 0, 2, map[0 := Loaded(1)])]
     + [Both(0, 0, Loaded(1), Loaded(2))] + [Both(0, 2, Loaded(1), CredSaved(2))],
     [] + [Rotate] + [Rotate] + [Load(0, 1)] + [Load(1, 2)] + [SaveCred(1)])
  }

  lemma RunMore(ws: seq<World>, es: seq<Event>, e: Event, w: World)
    requires Run(ws, es, false) && Step(ws[|es|], e, false) == Some(w)
    ensures Run(ws + [w], es + [e], false) && (ws + [w])[|es + [e]|] == w
  {
  }

  lemma PhaseZero(zero: Phase, one: Phase, next: Phase)
    ensures (map[0 := zero, 1 := one])[0 := next] == map[0 := next, 1 := one]
    ensures (map[0 := zero, 1 := one])[1 := next] == map[0 := zero, 1 := next]
  {
  }

  lemma BothLoadRun()
    ensures Run(BothLoad().0, BothLoad().1, false) && BothLoad().0[5] == Both(0, 2, Loaded(1), CredSaved(2))
  {
    var w, e := [NOTHING], [];
    assert Run(w, e, false);
    hide Run;
    RunMore(w, e, Rotate, World(0, 0, 1, map[]));
    w, e := w + [World(0, 0, 1, map[])], e + [Rotate];
    RunMore(w, e, Rotate, World(0, 0, 2, map[]));
    w, e := w + [World(0, 0, 2, map[])], e + [Rotate];
    RunMore(w, e, Load(0, 1), World(0, 0, 2, map[0 := Loaded(1)]));
    w, e := w + [World(0, 0, 2, map[0 := Loaded(1)])], e + [Load(0, 1)];
    assert (map[0 := Loaded(1)])[1 := Loaded(2)] == map[0 := Loaded(1), 1 := Loaded(2)];
    RunMore(w, e, Load(1, 2), Both(0, 0, Loaded(1), Loaded(2)));
    w, e := w + [Both(0, 0, Loaded(1), Loaded(2))], e + [Load(1, 2)];
    PhaseZero(Loaded(1), Loaded(2), CredSaved(2));
    RunMore(w, e, SaveCred(1), Both(0, 2, Loaded(1), CredSaved(2)));
  }

  /** The newer answer is persisted whole, then the older one over it. */
  lemma UnlockedGoesBack()
    ensures exists ws: seq<World>, es: seq<Event> ::
      Run(ws, es, false) && |es| == 8 && ws[6] == Both(2, 2, Loaded(1), Idle) && ws[8] == Both(1, 1, Idle, Idle)
  {
    var (w, e) := BothLoad();
    assert |e| == 5 && |w| == 6;
    BothLoadRun();
    hide Run, BothLoad;
    PhaseZero(Loaded(1), CredSaved(2), Idle);
    RunMore(w, e, SaveState(1), Both(2, 2, Loaded(1), Idle));
    w, e := w + [Both(2, 2, Loaded(1), Idle)], e + [SaveState(1)];
    PhaseZero(Loaded(1), Idle, CredSaved(1));
    RunMore(w, e, SaveCred(0), Both(2, 1, CredSaved(1), Idle));
    w, e := w + [Both(2, 1, CredSaved(1), Idle)], e + [SaveCred(0)];
    PhaseZero(CredSaved(1), Idle, Idle);
    RunMore(w, e, SaveState(0), Both(1, 1, Idle, Idle));
    assert (w + [Both(1, 1, Idle, Idle)])[6] == Both(2, 2, Loaded(1), Idle);
  }

  /** The older answer's credential is written last, the newer one's state last: the machine holds
      credential 1, records version 2, and refuses answer 2 when it comes again. */
  lemma UnlockedDisagrees()
    ensures exists ws: seq<World>, es: seq<Event> ::
      Run(ws, es, false) && |es| == 9 && es[8] == Load(1, 2) && ws[8] == ws[9] == Both(2, 1, Idle, Idle)
  {
    var (w, e) := BothLoad();
    assert |e| == 5 && |w| == 6;
    BothLoadRun();
    hide Run, BothLoad;
    PhaseZero(Loaded(1), CredSaved(2), CredSaved(1));
    RunMore(w, e, SaveCred(0), Both(0, 1, CredSaved(1), CredSaved(2)));
    w, e := w + [Both(0, 1, CredSaved(1), CredSaved(2))], e + [SaveCred(0)];
    PhaseZero(CredSaved(1), CredSaved(2), Idle);
    RunMore(w, e, SaveState(0), Both(1, 1, Idle, CredSaved(2)));
    w, e := w + [Both(1, 1, Idle, CredSaved(2))], e + [SaveState(0)];
    PhaseZero(Idle, CredSaved(2), Idle);
    RunMore(w, e, SaveState(1), Both(2, 1, Idle, Idle));
    w, e := w + [Both(2, 1, Idle, Idle)], e + [SaveState(1)];
    PhaseZero(Idle, Idle, Idle);
    RunMore(w, e, Load(1, 2), Both(2, 1, Idle, Idle));
    assert (w + [Both(2, 1, Idle, Idle)])[8] == Both(2, 1, Idle, Idle);
  }
}
