/** Configuring the harnesses: grants that supersede one another, written into config files
    under a lock. Model of Configure and configureOne in internal/agent/harness/configure.go
    and of the grant table they move. */
module Configure {
  import opened Prelude
  import Policy

  type Harness = string

  /** A grant, and the token that belongs to it; the server hands them out in order. */
  type Grant = nat

  type Pid = nat

  /** Where a process is in its run. */
  datatype Phase = Outside | Locked | Checked(h: Harness) | Granted(h: Harness, g: Grant) | Written(h: Harness, g: Grant)

  /** The newest grant of a harness, and whether the step that got it ended configured. */
  datatype Issue = Issue(grant: Grant, configured: bool)

  /** revoked: harnesses whose newest grant was revoked; edited: harnesses whose config file an
      outside hand changed since a grant was last written there. */
  datatype World = World(
    lock: Option<Pid>, phases: map<Pid, Phase>,
    minted: nat, active: map<Harness, Grant>, config: map<Harness, Grant>, records: map<Harness, Grant>,
    last: map<Harness, Issue>, revoked: set<Harness>, edited: set<Harness>)

  datatype Event =
    | Acquire(pid: Pid)
    | Release(pid: Pid)
    | Crash(pid: Pid)
    | Check(pid: Pid, h: Harness)
    | Refuse(pid: Pid)
    | GetGrant(pid: Pid, received: bool)
    | Write(pid: Pid, landed: bool, ok: bool)
    | SaveRecord(pid: Pid, landed: bool, ok: bool)
    | Revoke(h: Harness)
    | Edit(h: Harness, now: Option<Grant>)

  function PhaseOf(w: World, pid: Pid): Phase {
    if pid in w.phases then w.phases[pid] else Outside
  }

  function To(w: World, pid: Pid, p: Phase): World {
    w.(phases := w.phases[pid := p])
  }

  predicate ByPid(e: Event, pid: Pid) {
    !e.Revoke? && !e.Edit? && e.pid == pid
  }

  /** The world after an event, None when the event cannot happen now. locking is false for
      runs that take no lock. A grant answer may be lost although the server has moved; a write
      may land and still be reported as failed. */
  function Step(w: World, e: Event, locking: bool): Option<World> {
    match e
    case Acquire(pid) =>
      if PhaseOf(w, pid).Outside? && (locking ==> w.lock.None?)
      then Some(To(w, pid, Locked).(lock := if locking then Some(pid) else w.lock)) else None
    case Release(pid) =>
      if PhaseOf(w, pid).Locked? then Some(To(w, pid, Outside).(lock := None)) else None
    case Crash(pid) =>
      if !PhaseOf(w, pid).Outside? then Some(To(w, pid, Outside).(lock := None)) else None
    case Check(pid, h) =>
      if PhaseOf(w, pid).Locked? then Some(To(w, pid, Checked(h))) else None
    case Refuse(pid) =>
      if PhaseOf(w, pid).Checked? then Some(To(w, pid, Locked)) else None
    case GetGrant(pid, received) =>
      if PhaseOf(w, pid).Checked? then
        var h, g := PhaseOf(w, pid).h, w.minted;
        Some(To(w, pid, if received then Granted(h, g) else Locked).(
               minted := g + 1, active := w.active[h := g], last := w.last[h := Issue(g, false)],
               revoked := w.revoked - {h}))
      else None
    case Write(pid, landed, ok) =>
      if PhaseOf(w, pid).Granted? && (ok ==> landed) then
        var h, g := PhaseOf(w, pid).h, PhaseOf(w, pid).g;
        var w' := if landed then w.(config := w.config[h := g], edited := w.edited - {h}) else w;
        Some(To(w', pid, if ok then Written(h, g) else Locked))
      else None
    case SaveRecord(pid, landed, ok) =>
      if PhaseOf(w, pid).Written? && (ok ==> landed) then
        var h, g := PhaseOf(w, pid).h, PhaseOf(w, pid).g;
        var w' := if landed then w.(records := w.records[h := g]) else w;
        var w'' := if ok && h in w'.last && w'.last[h].grant == g then w'.(last := w'.last[h := Issue(g, true)]) else w';
        Some(To(w'', pid, Locked))
      else None
    case Revoke(h) => Some(w.(active := w.active - {h}, revoked := w.revoked + {h}))
    case Edit(h, now) =>
      Some(w.(config := if now.Some? then w.config[h := now.value] else w.config - {h}, edited := w.edited + {h}))
  }

  // ---- What the lock buys -------------------------------------------------

  ghost predicate Start(w: World) {
    w.lock.None? && w.phases == map[] && w.active == map[] && w.last == map[]
  }

  ghost predicate Inv(w: World) {
    OneRunner(w) && Grants(w) && AllHold(w) && AllKept(w)
  }

  /** Only the holder of the lock is inside a run. */
  ghost predicate OneRunner(w: World) {
    forall pid | pid in w.phases && !w.phases[pid].Outside? :: w.lock == Some(pid)
  }

  /** The active grant of a harness is its newest, unless that was revoked. */
  ghost predicate Grants(w: World) {
    && (forall h | h in w.active :: h in w.last && w.active[h] == w.last[h].grant && h !in w.revoked)
    && (forall h | h in w.last && h !in w.revoked :: h in w.active)
  }

  ghost predicate AllHold(w: World) {
    forall pid | pid in w.phases :: Holds(w, w.phases[pid])
  }

  ghost predicate AllKept(w: World) {
    forall h | h in w.last && w.last[h].configured :: Kept(w, h)
  }

  /** What a phase knows. */
  ghost predicate Holds(w: World, p: Phase) {
    match p
    case Granted(h, g) => h in w.last && w.last[h] == Issue(g, false)
    case Written(h, g) =>
      h in w.last && w.last[h] == Issue(g, false) && (h !in w.edited ==> h in w.config && w.config[h] == g)
    case _ => true
  }

  /** The config carries the newest grant unless an outside hand changed it, and so does the record. */
  ghost predicate Kept(w: World, h: Harness)
    requires h in w.last
  {
    && (h !in w.edited ==> h in w.config && w.config[h] == w.last[h].grant)
    && h in w.records && w.records[h] == w.last[h].grant
  }

  lemma OneRunnerNext(w: World, e: Event)
    requires OneRunner(w) && Step(w, e, true).Some?
    ensures OneRunner(Step(w, e, true).value)
  {
  }

  lemma GrantsNext(w: World, e: Event, locking: bool)
    requires Grants(w) && Step(w, e, locking).Some?
    ensures Grants(Step(w, e, locking).value)
  {
  }

  /** Everyone but the process that acts is outside, and its own new phase knows what it must. */
  lemma AllHoldNext(w: World, e: Event)
    requires OneRunner(w) && AllHold(w) && Step(w, e, true).Some?
    ensures AllHold(Step(w, e, true).value)
  {
    var w' := Step(w, e, true).value;
    forall pid | pid in w'.phases
      ensures Holds(w', w'.phases[pid])
    {
      if pid in w.phases {
        assert Holds(w, w.phases[pid]);
      }
      if !ByPid(e, pid) && !e.Revoke? && !e.Edit? && pid in w.phases && !e.Acquire? {
        assert w.phases[pid].Outside?;
      }
    }
  }

  lemma AllKeptNext(w: World, e: Event)
    requires OneRunner(w) && AllHold(w) && AllKept(w) && Step(w, e, true).Some?
    ensures AllKept(Step(w, e, true).value)
  {
    var w' := Step(w, e, true).value;
    if !e.Revoke? && !e.Edit? && e.pid in w.phases {
      assert Holds(w, w.phases[e.pid]);
    }
    forall h | h in w'.last && w'.last[h].configured
      ensures Kept(w', h)
    {
      assert h in w.last && w.last[h].configured ==> Kept(w, h);
    }
  }

  /** Every event keeps the invariant, whichever process or outsider acts. */
  lemma StepKeeps(w: World, e: Event)
    requires Inv(w) && Step(w, e, true).Some?
    ensures Inv(Step(w, e, true).value)
  {
    OneRunnerNext(w, e);
    GrantsNext(w, e, true);
    AllHoldNext(w, e);
    AllKeptNext(w, e);
    hide Step, OneRunner, Grants, AllHold, AllKept;
  }

  function RunFrom(w: World, es: seq<Event>, locking: bool): Option<World> {
    if es == [] then Some(w)
    else
      var r := RunFrom(w, es[..|es| - 1], locking);
      if r.None? then None else Step(r.value, es[|es| - 1], locking)
  }

  lemma {:induction false} RunKeeps(w: World, es: seq<Event>)
    requires Start(w) && RunFrom(w, es, true).Some?
    ensures Inv(RunFrom(w, es, true).value)
  {
    if es != [] {
      RunKeeps(w, es[..|es| - 1]);
      StepKeeps(RunFrom(w, es[..|es| - 1], true).value, es[|es| - 1]);
    }
  }

  /** Over all interleavings of locked runs, crashes, lost answers, revocations and outside
      edits: when nobody holds the lock and the step that got a harness's newest grant ended
      configured, the server's active grant for it is that grant unless it was revoked, and its
      config carries that grant's token unless an outside hand changed the file. */
  lemma ConfigMatchesServer(w: World, es: seq<Event>, h: Harness)
    requires Start(w) && RunFrom(w, es, true).Some?
    ensures var now := RunFrom(w, es, true).value;
            h in now.last && now.last[h].configured && now.lock.None? ==>
              && (h in now.active <==> h !in now.revoked)
              && (h in now.active ==> now.active[h] == now.last[h].grant)
              && (h !in now.edited ==> h in now.config && now.config[h] == now.last[h].grant)
              && h in now.records && now.records[h] == now.last[h].grant
  {
    RunKeeps(w, es);
  }

  lemma RunNext(w: World, es: seq<Event>, e: Event, locking: bool)
    ensures RunFrom(w, es + [e], locking) ==
            (var r := RunFrom(w, es, locking); if r.None? then None else Step(r.value, e, locking))
  {
    assert (es + [e])[..|es|] == es;
  }

  /** The state in which two runs without a lock both hold a grant for h, the older run's
      superseded by the newer's. */
  ghost function BothGranted(h: Harness): World {
    World(None, map[0 := Granted(h, 0), 1 := Granted(h, 1)], 2, map[h := 1], map[], map[], map[h := Issue(1, false)], {}, {})
  }

  ghost function Prologue(h: Harness): seq<Event> {
    [Acquire(0)] + [Acquire(1)] + [Check(0, h)] + [Check(1, h)] + [GetGrant(0, true)] + [GetGrant(1, true)]
  }

  ghost function Nothing(): World {
    World(None, map[], 0, map[], map[], map[], map[], {}, {})
  }

  lemma BothGetGrants(h: Harness)
    ensures RunFrom(Nothing(), Prologue(h), false) == Some(BothGranted(h))
  {
    var w := Nothing();
    RunNext(w, [], Acquire(0), false);
    RunNext(w, [Acquire(0)], Acquire(1), false);
    RunNext(w, [Acquire(0)] + [Acquire(1)], Check(0, h), false);
    RunNext(w, [Acquire(0)] + [Acquire(1)] + [Check(0, h)], Check(1, h), false);
    RunNext(w, [Acquire(0)] + [Acquire(1)] + [Check(0, h)] + [Check(1, h)], GetGrant(0, true), false);
    RunNext(w, [Acquire(0)] + [Acquire(1)] + [Check(0, h)] + [Check(1, h)] + [GetGrant(0, true)], GetGrant(1, true), false);
    assert [] + [Acquire(0)] == [Acquire(0)];
    hide RunFrom;
    var end := RunFrom(w, Prologue(h), false).value;
    assert end.phases == map[0 := Granted(h, 0), 1 := Granted(h, 1)];
    assert end.active == map[h := 1] && end.last == map[h := Issue(1, false)];
    assert end.revoked == {} && end.edited == {};
  }

  ghost function BothWritten(h: Harness): World {
    BothGranted(h).(phases := map[0 := Written(h, 0), 1 := Written(h, 1)], config := map[h := 0])
  }

  lemma BothWrite(w: World, es: seq<Event>, h: Harness)
    requires RunFrom(w, es, false) == Some(BothGranted(h))
    ensures RunFrom(w, es + [Write(1, true, true)] + [Write(0, true, true)], false) == Some(BothWritten(h))
  {
    hide RunFrom;
    RunNext(w, es, Write(1, true, true), false);
    RunNext(w, es + [Write(1, true, true)], Write(0, true, true), false);
    var end := RunFrom(w, es + [Write(1, true, true)] + [Write(0, true, true)], false).value;
    assert end.phases == map[0 := Written(h, 0), 1 := Written(h, 1)] && end.config == map[h := 0] && end.edited == {};
  }

  ghost function BothSaved(h: Harness): World {
    BothWritten(h).(phases := map[0 := Locked, 1 := Locked], records := map[h := 0], last := map[h := Issue(1, true)])
  }

  lemma BothSave(w: World, es: seq<Event>, h: Harness)
    requires RunFrom(w, es, false) == Some(BothWritten(h))
    ensures RunFrom(w, es + [SaveRecord(1, true, true)] + [SaveRecord(0, true, true)], false) == Some(BothSaved(h))
  {
    hide RunFrom;
    RunNext(w, es, SaveRecord(1, true, true), false);
    RunNext(w, es + [SaveRecord(1, true, true)], SaveRecord(0, true, true), false);
    var end := RunFrom(w, es + [SaveRecord(1, true, true)] + [SaveRecord(0, true, true)], false).value;
    assert end.phases == map[0 := Locked, 1 := Locked] && end.records == map[h := 0];
    assert end.last == map[h := Issue(1, true)];
  }

  /** Without the lock it fails: A asks, B asks, B writes, A writes. Both end configured, no
      one revoked or edited anything, and the config carries a superseded token. */
  lemma UnlockedBreaks(h: Harness)
    ensures exists w: World, es: seq<Event> ::
      && Start(w) && RunFrom(w, es, false).Some?
      && var now := RunFrom(w, es, false).value;
         && now.lock.None? && (forall p | p in now.phases :: now.phases[p].Outside?)
         && h in now.last && now.last[h].configured && h !in now.revoked && h !in now.edited
         && h in now.active && h in now.config && now.config[h] != now.active[h]
  {
    var w := Nothing();
    var written := Prologue(h) + [Write(1, true, true)] + [Write(0, true, true)];
    var saved := written + [SaveRecord(1, true, true)] + [SaveRecord(0, true, true)];
    BothGetGrants(h);
    BothWrite(w, Prologue(h), h);
    BothSave(w, written, h);
    NothingStarts();
    hide Nothing, RunFrom, Start;
    RunNext(w, saved, Release(0), false);
    RunNext(w, saved + [Release(0)], Release(1), false);
  }

  lemma NothingStarts()
    ensures Start(Nothing())
  {
  }

  // ---- Which runs go wrong, locked or not ---------------------------------

  /** The grant the process is about to write for h, if it holds one. */
  function Holding(w: World, pid: Pid, h: Harness): Option<Grant> {
    var p := PhaseOf(w, pid);
    if p.Granted? && p.h == h then Some(p.g) else None
  }

  /** The grant the last write for h that landed wrote. */
  function LastWritten(w: World, es: seq<Event>, h: Harness, locking: bool): Option<Grant>
    requires RunFrom(w, es, locking).Some?
  {
    if es == [] then None
    else
      var front, e := es[..|es| - 1], es[|es| - 1];
      if e.Write? && e.landed && Holding(RunFrom(w, front, locking).value, e.pid, h).Some?
      then Holding(RunFrom(w, front, locking).value, e.pid, h)
      else LastWritten(w, front, h, locking)
  }

  /** A write for h has landed wherever a process has written, or the newest grant is configured. */
  ghost predicate WroteFirst(now: World, h: Harness, written: Option<Grant>) {
    && (forall pid | pid in now.phases && now.phases[pid].Written? && now.phases[pid].h == h :: written.Some?)
    && (h in now.last && now.last[h].configured ==> written.Some?)
    && (h !in now.edited && written.Some? ==> h in now.config && now.config[h] == written.value)
  }

  lemma WroteFirstNext(now: World, e: Event, h: Harness, written: Option<Grant>, locking: bool)
    requires WroteFirst(now, h, written) && Step(now, e, locking).Some?
    ensures WroteFirst(Step(now, e, locking).value, h,
                       if e.Write? && e.landed && Holding(now, e.pid, h).Some? then Holding(now, e.pid, h) else written)
  {
  }

  lemma {:induction false} AnyRun(w: World, es: seq<Event>, h: Harness, locking: bool)
    requires Start(w) && RunFrom(w, es, locking).Some?
    ensures var now := RunFrom(w, es, locking).value;
            Grants(now) && WroteFirst(now, h, LastWritten(w, es, h, locking))
  {
    if es != [] {
      var front, e := es[..|es| - 1], es[|es| - 1];
      AnyRun(w, front, h, locking);
      var before := RunFrom(w, front, locking).value;
      GrantsNext(before, e, locking);
      WroteFirstNext(before, e, h, LastWritten(w, front, h, locking), locking);
      hide Step, Grants, WroteFirst;
    }
  }

  /** In every run, with the lock or without: when the step that got a harness's newest grant ended
      configured and nobody revoked it or edited the file, the config carries the active grant's
      token exactly when the last write that landed was of that newest grant. */
  lemma MatchesIff(w: World, es: seq<Event>, h: Harness, locking: bool)
    requires Start(w) && RunFrom(w, es, locking).Some?
    ensures var now := RunFrom(w, es, locking).value;
            h in now.last && now.last[h].configured && h !in now.revoked && h !in now.edited ==>
              && h in now.active && h in now.config
              && (now.config[h] == now.active[h] <==> LastWritten(w, es, h, locking) == Some(now.last[h].grant))
  {
    AnyRun(w, es, h, locking);
    hide RunFrom, LastWritten;
  }

  // ---- The configurator ---------------------------------------------------

  datatype Status = Configured | Skipped | Failed

  /** asked: the server minted a grant for it. */
  datatype Outcome = Outcome(h: Harness, status: Status, asked: bool)

  datatype Engine = Ready | NotActivated | Unusable

  /** What other processes and outsiders can do while pid holds the lock. */
  ghost predicate LockedOut(a: World, b: World, pid: Pid) {
    && b.lock == a.lock && b.phases == a.phases && b.minted == a.minted && b.last == a.last && b.records == a.records
    && a.revoked <= b.revoked && a.edited <= b.edited
    && forall h | h in b.active :: h in a.active && b.active[h] == a.active[h]
  }

  lemma OthersApart(w: World, e: Event, pid: Pid)
    requires Inv(w) && !ByPid(e, pid) && Step(w, e, true).Some?
    ensures PhaseOf(Step(w, e, true).value, pid) == PhaseOf(w, pid)
    ensures w.lock == Some(pid) ==> LockedOut(w, Step(w, e, true).value, pid)
  {
    hide Grants, AllHold, AllKept;
  }

  /** Nobody asked for h from position i on. */
  ghost predicate Unasked(outcomes: seq<Outcome>, i: nat, h: Harness) {
    forall j | i <= j < |outcomes| && outcomes[j].h == h :: !outcomes[j].asked
  }

  /** A harness not asked for keeps its newest grant. */
  ghost predicate Spared(begin: World, end: World, outcomes: seq<Outcome>) {
    forall h | Unasked(outcomes, 0, h) :: (h in end.last <==> h in begin.last) && (h in end.last ==> end.last[h] == begin.last[h])
  }

  /** One asked for has a new one, configured as its last asking outcome says. */
  ghost predicate Renewed(end: World, outcomes: seq<Outcome>) {
    forall i | 0 <= i < |outcomes| && outcomes[i].asked && Unasked(outcomes, i + 1, outcomes[i].h) ::
      outcomes[i].h in end.last && end.last[outcomes[i].h].configured == outcomes[i].status.Configured?
  }

  /** What the outcomes say is what the grants of the run came to. */
  ghost predicate Told(begin: World, end: World, wanted: seq<Harness>, outcomes: seq<Outcome>) {
    && |outcomes| == |wanted|
    && (forall i | 0 <= i < |wanted| :: outcomes[i].h == wanted[i] && (outcomes[i].status.Configured? ==> outcomes[i].asked))
    && Spared(begin, end, outcomes) && Renewed(end, outcomes)
  }

  lemma UnaskedNext(outcomes: seq<Outcome>, o: Outcome, j: nat, h: Harness)
    requires j <= |outcomes|
    ensures Unasked(outcomes + [o], j, h) <==> Unasked(outcomes, j, h) && (o.h == h ==> !o.asked)
  {
    var all := outcomes + [o];
    assert all[|outcomes|] == o;
    assert forall k | j <= k < |outcomes| :: all[k] == outcomes[k];
    if Unasked(all, j, h) {
      forall k | j <= k < |outcomes| && outcomes[k].h == h
        ensures !outcomes[k].asked
      {
        assert all[k] == outcomes[k];
      }
    }
  }

  lemma TellNext(begin: World, before: World, now: World, wanted: seq<Harness>, outcomes: seq<Outcome>, o: Outcome, i: nat)
    requires i < |wanted| && Told(begin, before, wanted[..i], outcomes) && o.h == wanted[i]
    requires o.status.Configured? ==> o.asked
    requires !o.asked ==> now.last == before.last
    requires o.asked ==> now.last == before.last[o.h := Issue(before.minted, o.status.Configured?)]
    ensures Told(begin, now, wanted[..i + 1], outcomes + [o])
  {
    hide Unasked;
    var all := outcomes + [o];
    assert Spared(begin, now, all) by {
      forall h | Unasked(all, 0, h)
        ensures (h in now.last <==> h in begin.last) && (h in now.last ==> now.last[h] == begin.last[h])
      {
        UnaskedNext(outcomes, o, 0, h);
      }
    }
    assert Renewed(now, all) by {
      forall j | 0 <= j < |all| && all[j].asked && Unasked(all, j + 1, all[j].h)
        ensures all[j].h in now.last && now.last[all[j].h].configured == all[j].status.Configured?
      {
        if j < |outcomes| {
          UnaskedNext(outcomes, o, j + 1, all[j].h);
          assert all[j] == outcomes[j];
        }
      }
    }
  }

  /** So whatever a run reports as configured, and did not ask for again, matches the server. */
  lemma ReportedMatches(begin: World, end: World, wanted: seq<Harness>, outcomes: seq<Outcome>, i: nat)
    requires Inv(end) && Told(begin, end, wanted, outcomes) && i < |outcomes|
    requires outcomes[i].status.Configured? && Unasked(outcomes, i + 1, outcomes[i].h)
    ensures var h := outcomes[i].h;
            && h in end.last && (h in end.active <==> h !in end.revoked)
            && (h in end.active ==> end.active[h] == end.last[h].grant)
            && (h !in end.edited ==> h in end.config && end.config[h] == end.last[h].grant)
  {
    assert Kept(end, outcomes[i].h);
  }

  lemma Released(w: World, pid: Pid)
    requires PhaseOf(w, pid) == Locked
    ensures Step(w, Release(pid), true).Some? && PhaseOf(Step(w, Release(pid), true).value, pid) == Outside
  {
  }

  class Configurator {
    const pid: Pid
    /** The lock, the server, the files and the other processes. */
    var w: World
    /** How many grants this process has made the server mint. */
    ghost var asked: nat
    /** Whether anything has stood in this process's way: a harness it refused before asking, an
        answer lost or unusable, a write or a record that failed, a lock it did not get. */
    ghost var hindered: bool

    constructor (pid: Pid, w: World)
      ensures this.pid == pid && this.w == w && asked == 0 && !hindered
    {
      this.pid, this.w, asked, hindered := pid, w, 0, false;
    }

    method Do(e: Event)
      requires Inv(w) && ByPid(e, pid) && Step(w, e, true).Some?
      modifies this`w, this`asked
      ensures Inv(w) && w == Step(old(w), e, true).value
      ensures asked == old(asked) + if e.GetGrant? then 1 else 0
    {
      StepKeeps(w, e);
      w := Step(w, e, true).value;
      if e.GetGrant? {
        asked := asked + 1;
      }
    }

    /** Any number of events of other processes and of outsiders. */
    method Others()
      requires Inv(w)
      modifies this`w
      ensures Inv(w) && PhaseOf(w, pid) == PhaseOf(old(w), pid)
      ensures old(w).lock == Some(pid) ==> LockedOut(old(w), w, pid)
    {
      hide Step, Inv;
      var n: nat := *;
      while n > 0
        invariant Inv(w) && PhaseOf(w, pid) == PhaseOf(old(w), pid)
        invariant old(w).lock == Some(pid) ==> LockedOut(old(w), w, pid)
      {
        var e: Event := *;
        if !ByPid(e, pid) && Step(w, e, true).Some? {
          StepKeeps(w, e);
          OthersApart(w, e, pid);
          w := Step(w, e, true).value;
        }
        n := n - 1;
      }
    }

    /** configureOne */
    method ConfigureOne(h: Harness) returns (status: Status, got: bool)
      requires Inv(w) && w.lock == Some(pid) && PhaseOf(w, pid) == Locked
      modifies this
      ensures Inv(w) && w.lock == Some(pid) && PhaseOf(w, pid) == Locked
      ensures asked == old(asked) + if got then 1 else 0
      ensures (old(hindered) ==> hindered) && (!hindered ==> got && status == Configured)
      ensures !got ==> status != Configured && w.last == old(w).last && w.minted == old(w).minted
      ensures got ==> w.last == old(w).last[h := Issue(old(w).minted, status.Configured?)]
      ensures forall g | g in w.active && !(got && g == h) :: g in old(w).active && w.active[g] == old(w).active[g]
    {
      hide Inv;
      got := false;
      Others();
      var refused: bool := *;
      if refused {
        hindered := true;
        var quietly: bool := *;
        return if quietly then Skipped else Failed, false;
      }
      Do(Check(pid, h));
      Others();
      var received;
      ghost var g;
      received, got, g := Ask(h);
      if !received {
        return Failed, got;
      }
      status := WriteGrant(h, g);
    }

    /** The middle of configureOne: the request for a grant; the answer may be lost, or carry
        nothing usable, although the server has moved. */
    method Ask(h: Harness) returns (received: bool, got: bool, ghost g: Grant)
      requires Inv(w) && w.lock == Some(pid) && PhaseOf(w, pid) == Checked(h)
      modifies this
      ensures Inv(w) && w.lock == Some(pid) && PhaseOf(w, pid) == if received then Granted(h, g) else Locked
      ensures asked == old(asked) + (if got then 1 else 0) && (received ==> got) && g == old(w).minted
      ensures if got then w.last == old(w).last[h := Issue(g, false)] else w.last == old(w).last && w.minted == old(w).minted
      ensures (old(hindered) ==> hindered) && (!hindered ==> received)
      ensures forall k | k in w.active && !(got && k == h) :: k in old(w).active && w.active[k] == old(w).active[k]
    {
      hide Inv;
      g := w.minted;
      var answered: bool := *;
      var usable: bool := *;
      hindered := hindered || !answered || !usable;
      received := answered && usable;
      if !answered {
        var minted: bool := *;
        if !minted {
          Do(Refuse(pid));
          return false, false, g;
        }
      }
      Do(GetGrant(pid, received));
      got := true;
    }

    /** The end of configureOne: the config file, then the record. */
    method WriteGrant(h: Harness, ghost g: Grant) returns (status: Status)
      requires Inv(w) && w.lock == Some(pid) && PhaseOf(w, pid) == Granted(h, g) && h in w.last && w.last[h] == Issue(g, false)
      modifies this
      ensures Inv(w) && w.lock == Some(pid) && PhaseOf(w, pid) == Locked && asked == old(asked)
      ensures (old(hindered) ==> hindered) && (!hindered ==> status == Configured)
      ensures w.last == old(w).last[h := Issue(g, status.Configured?)]
      ensures forall k | k in w.active :: k in old(w).active && w.active[k] == old(w).active[k]
    {
      hide Inv;
      Others();
      var landed: bool := *;
      var ok: bool := *;
      Do(Write(pid, landed, landed && ok));
      hindered := hindered || !(landed && ok);
      if !(landed && ok) {
        var malformed: bool := *;
        return if malformed then Skipped else Failed;
      }
      Others();
      landed, ok := *, *;
      hindered := hindered || !(landed && ok);
      Do(SaveRecord(pid, landed, landed && ok));
      status := if landed && ok then Configured else Failed;
    }

    /** Configure: nothing is asked of the server unless the run can hold the lock and express
        what it would write; then one harness after another. */
    method Configure(wanted: Option<seq<Harness>>, ready: bool, engine: Engine)
      returns (r: Option<seq<Outcome>>, ghost begin: World, ghost end: World)
      requires Inv(w) && PhaseOf(w, pid) == Outside
      modifies this
      ensures Inv(w) && PhaseOf(w, pid) == Outside
      ensures !ready || wanted.None? || engine.Unusable? ==> r.None?
      ensures r.None? ==> asked == old(asked)
      ensures !hindered && ready && wanted.Some? && !engine.Unusable? ==>
        && r.Some? && |r.value| == |wanted.value|
        && forall i | 0 <= i < |wanted.value| :: r.value[i] == Outcome(wanted.value[i], Configured, true)
      ensures r.Some? ==> Inv(end) && wanted.Some? && |r.value| == |wanted.value| && Told(begin, end, wanted.value, r.value)
    {
      begin, end := w, w;
      if !ready || wanted.None? {
        return None, w, w;
      }
      Others();
      var held: bool := *;
      hindered := hindered || held || w.lock.Some?;
      if held || w.lock.Some? {
        return None, w, w;
      }
      Do(Acquire(pid));
      begin := w;
      if engine.Unusable? {
        Do(Release(pid));
        return None, begin, w;
      }
      var outcomes: seq<Outcome> := [];
      hide Inv, Step;
      for i := 0 to |wanted.value|
        invariant Inv(w) && w.lock == Some(pid) && PhaseOf(w, pid) == Locked
        invariant |outcomes| == i && Told(begin, w, wanted.value[..i], outcomes)
        invariant !hindered ==> forall k | 0 <= k < i :: outcomes[k] == Outcome(wanted.value[k], Configured, true)
      {
        ghost var before := w;
        var status, got := ConfigureOne(wanted.value[i]);
        TellNext(begin, before, w, wanted.value, outcomes, Outcome(wanted.value[i], status, got), i);
        outcomes := outcomes + [Outcome(wanted.value[i], status, got)];
      }
      end := w;
      assert wanted.value[..|wanted.value|] == wanted.value;
      Released(w, pid);
      Do(Release(pid));
      r := Some(outcomes);
    }
  }
}
