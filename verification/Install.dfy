/** The transactional install of the retrieval engine: four files, a snapshot before each
    write, and a rollback in reverse. Model of Install, snapshotArtifact and restore in
    internal/agent/gno/engine.go. */
module Install {
  import opened Prelude

  type Path = string

  /** What a path holds: Foreign is anything that is not a regular file. */
  datatype Node = Absent | Regular(data: string, perm: nat) | Foreign(what: string)

  /** A path not in the map holds nothing. */
  type Files = map<Path, Node>

  function At(fs: Files, p: Path): Node {
    if p in fs then fs[p] else Absent
  }

  function Put(fs: Files, p: Path, n: Node): Files {
    if n.Absent? then fs - {p} else fs[p := n]
  }

  /** A destination as it was before the install touched it. */
  datatype Snapshot = Snapshot(path: Path, was: Node)

  /** What an install writes, and where; the four paths need not differ. */
  datatype Plan = Plan(
    unitPath: Path, unit: Node, configPath: Path, config: Node,
    removalPath: Path, removal: Node, descriptorPath: Path, descriptor: Node)
  {
    predicate Distinct() {
      && unitPath != configPath && unitPath != removalPath && unitPath != descriptorPath
      && configPath != removalPath && configPath != descriptorPath && removalPath != descriptorPath
    }

    function Paths(): set<Path> {
      {unitPath, configPath, removalPath, descriptorPath}
    }

    /** Each path holds its own node, or that of the last of the four written there. */
    predicate InPlace(fs: Files) {
      && At(fs, descriptorPath) == descriptor
      && (removalPath != descriptorPath ==> At(fs, removalPath) == removal)
      && (configPath !in {removalPath, descriptorPath} ==> At(fs, configPath) == config)
      && (unitPath !in {configPath, removalPath, descriptorPath} ==> At(fs, unitPath) == unit)
    }
  }

  /** The checks before anything is written. */
  datatype Checks = Checks(gatewayOk: bool, launchCommand: string, probed: bool, allowUnprobed: bool, tokenOk: bool, unitOk: bool)
  {
    predicate Pass() {
      gatewayOk && !BlankCommand() && (probed || allowUnprobed) && tokenOk && unitOk
    }

    predicate BlankCommand() {
      Blank(launchCommand)
    }
  }

  /** The position of the first snapshot of p. */
  function First(snaps: seq<Snapshot>, p: Path): (k: nat)
    ensures k <= |snaps| && (k < |snaps| ==> snaps[k].path == p)
    ensures forall i | 0 <= i < k :: snaps[i].path != p
  {
    if snaps == [] then 0
    else
      var k := First(snaps[..|snaps| - 1], p);
      if k < |snaps| - 1 then k else if snaps[|snaps| - 1].path == p then |snaps| - 1 else |snaps|
  }

  /** Undoing the snapshots newest first puts p back to what it was: its oldest snapshot holds
      that, or it has none and still is that. */
  ghost predicate Covered(snaps: seq<Snapshot>, now: Files, before: Files, p: Path) {
    var k := First(snaps, p);
    if k < |snaps| then snaps[k].was == At(before, p) else At(now, p) == At(before, p)
  }

  ghost predicate AllCovered(snaps: seq<Snapshot>, now: Files, before: Files) {
    forall p | !At(before, p).Foreign? :: Covered(snaps, now, before, p)
  }

  /** Every snapshot of p shows p as it is now. */
  ghost predicate Untouched(snaps: seq<Snapshot>, now: Files, p: Path) {
    forall i | 0 <= i < |snaps| && snaps[i].path == p :: snaps[i].was == At(now, p)
  }

  /** From position k on, no state of the history shows p otherwise than fs does. */
  ghost predicate Steady(history: seq<Files>, k: nat, fs: Files, p: Path) {
    forall h | k <= h < |history| :: At(history[h], p) == At(fs, p)
  }

  /** Published without all it describes. */
  ghost predicate Dangling(plan: Plan, fs: Files) {
    && At(fs, plan.descriptorPath) == plan.descriptor
    && !(At(fs, plan.unitPath) == plan.unit && At(fs, plan.configPath) == plan.config
         && At(fs, plan.removalPath) == plan.removal)
  }

  lemma CaptureCovers(snaps: seq<Snapshot>, now: Files, before: Files, path: Path)
    requires AllCovered(snaps, now, before)
    ensures AllCovered(snaps + [Snapshot(path, At(now, path))], now, before)
  {
    var more := snaps + [Snapshot(path, At(now, path))];
    assert more[..|snaps|] == snaps;
    forall p | !At(before, p).Foreign?
      ensures Covered(more, now, before, p)
    {
      assert Covered(snaps, now, before, p);
    }
  }

  lemma WriteCovers(snaps: seq<Snapshot>, now: Files, before: Files, path: Path, content: Node)
    requires AllCovered(snaps, now, before) && First(snaps, path) < |snaps|
    ensures AllCovered(snaps, Put(now, path, content), before)
  {
    forall p | !At(before, p).Foreign?
      ensures Covered(snaps, Put(now, path, content), before, p)
    {
      assert Covered(snaps, now, before, p);
    }
  }

  /** Undoing the newest snapshot. */
  lemma UndoOne(snaps: seq<Snapshot>, was: Files, now: Files, before: Files, p: Path)
    requires snaps != [] && Covered(snaps, was, before, p) && !At(before, p).Foreign?
    requires now == was || now == Put(was, snaps[|snaps| - 1].path, snaps[|snaps| - 1].was)
    requires p == snaps[|snaps| - 1].path && !snaps[|snaps| - 1].was.Foreign? ==>
               now == Put(was, snaps[|snaps| - 1].path, snaps[|snaps| - 1].was)
    ensures Covered(snaps[..|snaps| - 1], now, before, p)
  {
  }

  /** Away from the touched paths nothing has happened: now, in the snapshots, or since. */
  ghost predicate Quiet(touched: set<Path>, snaps: seq<Snapshot>, now: Files, before: Files, history: seq<Files>, k: nat) {
    forall p | p !in touched ::
      Untouched(snaps, now, p) && At(now, p) == At(before, p) && Steady(history, k, before, p)
  }

  lemma QuietNext(touched: set<Path>, snaps: seq<Snapshot>, now: Files, before: Files, history: seq<Files>, k: nat,
                  path: Path, content: Node)
    requires Quiet(touched, snaps, now, before, history, k)
    ensures var later := Put(now, path, content);
            Quiet(touched + {path}, snaps + [Snapshot(path, At(now, path))], later, before, history + [later], k)
  {
    var later := Put(now, path, content);
    forall p | p !in touched + {path}
      ensures Untouched(snaps + [Snapshot(path, At(now, path))], later, p)
      ensures At(later, p) == At(before, p) && Steady(history + [later], k, before, p)
    {
      assert Untouched(snaps, now, p) && Steady(history, k, before, p);
    }
  }

  class Machine {
    var files: Files
    /** Every state of the files since the object was made, newest last. */
    ghost var history: seq<Files>
    /** Paths whose restoration failed. */
    ghost var unrestored: set<Path>
    /** Whether a capture or a write has failed. */
    ghost var faults: bool

    constructor (files: Files)
      ensures this.files == files && history == [files] && unrestored == {} && !faults
    {
      this.files, history, unrestored, faults := files, [files], {}, false;
    }

    /** snapshotArtifact */
    method Capture(path: Path) returns (r: Option<Snapshot>)
      modifies this`faults
      ensures r.Some? ==> r.value == Snapshot(path, At(files, path)) && faults == old(faults)
      ensures r.None? ==> faults
    {
      var fails: bool := *;
      if fails {
        faults := true;
      }
      r := if fails then None else Some(Snapshot(path, At(files, path)));
    }

    /** An atomic write: a temporary file, and a rename as the last step. */
    method Write(path: Path, content: Node) returns (ok: bool)
      modifies this`files, this`history, this`faults
      ensures faults == if ok then old(faults) else true
      ensures files == if ok then Put(old(files), path, content) else old(files)
      ensures history == if ok then old(history) + [files] else old(history)
    {
      var fails: bool := *;
      if fails {
        faults := true;
        return false;
      }
      files := Put(files, path, content);
      history := history + [files];
      ok := true;
    }

    /** restore: a foreign destination is left alone, an absent one removed. */
    method Restore(s: Snapshot)
      modifies this`files, this`history, this`unrestored
      ensures files == old(files) || files == Put(old(files), s.path, s.was)
      ensures old(unrestored) <= unrestored
      ensures !s.was.Foreign? && s.path !in unrestored ==> files == Put(old(files), s.path, s.was)
      ensures (history == old(history) && files == old(files)) || history == old(history) + [files]
    {
      if s.was.Foreign? {
        return;
      }
      var fails: bool := *;
      if fails {
        unrestored := unrestored + {s.path};
        return;
      }
      files := Put(files, s.path, s.was);
      history := history + [files];
    }

    /** Newest first. */
    method Rollback(snaps: seq<Snapshot>, ghost before: Files)
      requires AllCovered(snaps, files, before)
      modifies this`files, this`history, this`unrestored
      ensures old(unrestored) <= unrestored && old(history) <= history
      ensures forall p | !At(before, p).Foreign? && p !in unrestored :: At(files, p) == At(before, p)
      ensures forall p | Untouched(snaps, old(files), p) :: At(files, p) == At(old(files), p)
      ensures forall p | Untouched(snaps, old(files), p) :: Steady(history, |old(history)|, old(files), p)
    {
      var i := |snaps|;
      assert snaps[..i] == snaps;
      while i > 0
        invariant 0 <= i <= |snaps|
        invariant old(unrestored) <= unrestored && old(history) <= history
        invariant forall p | !At(before, p).Foreign? && p !in unrestored :: Covered(snaps[..i], files, before, p)
        invariant forall p | Untouched(snaps, old(files), p) :: At(files, p) == At(old(files), p)
        invariant forall p | Untouched(snaps, old(files), p) :: Steady(history, |old(history)|, old(files), p)
      {
        ghost var was := files;
        assert snaps[..i][..i - 1] == snaps[..i - 1];
        Restore(snaps[i - 1]);
        forall p | !At(before, p).Foreign? && p !in unrestored
          ensures Covered(snaps[..i - 1], files, before, p)
        {
          UndoOne(snaps[..i], was, files, before, p);
        }
        i := i - 1;
      }
      assert snaps[..0] == [];
    }

    /** One destination: captured, then overwritten; either failing rolls everything back. */
    method Replace(path: Path, content: Node, snaps: seq<Snapshot>, ghost before: Files,
                   ghost touched: set<Path>, ghost start: nat)
      returns (ok: bool, more: seq<Snapshot>)
      requires AllCovered(snaps, files, before) && start <= |history|
      requires Quiet(touched, snaps, files, before, history, start)
      modifies this
      ensures old(history) <= history && old(unrestored) <= unrestored
      ensures faults == if ok then old(faults) else true
      ensures ok ==>
        && files == Put(old(files), path, content) && history == old(history) + [files]
        && AllCovered(more, files, before) && Quiet(touched + {path}, more, files, before, history, start)
      ensures !ok ==> forall p | !At(before, p).Foreign? && p !in unrestored :: At(files, p) == At(before, p)
      ensures !ok ==> forall p | p !in touched :: Steady(history, start, before, p)
      ensures !ok ==> forall p | p !in touched + {path} :: At(files, p) == At(before, p)
    {
      more := snaps;
      var snap := Capture(path);
      if snap.None? {
        Rollback(snaps, before);
        return false, snaps;
      }
      more := snaps + [snap.value];
      CaptureCovers(snaps, files, before, path);
      ok := Write(path, content);
      if ok {
        assert more[|snaps|].path == path;
        WriteCovers(more, old(files), before, path, content);
        QuietNext(touched, snaps, old(files), before, old(history), start, path, content);
      } else {
        forall p | p !in touched
          ensures Untouched(more, files, p)
        {
          assert Untouched(snaps, files, p);
        }
        Rollback(more, before);
        forall p | p !in touched
          ensures Steady(history, start, before, p)
        {
          SteadyOn(old(history), history, start, old(files), before, p);
        }
      }
    }

    /** Install: refused before anything is written, or unit, configuration, removal plan and
        last the descriptor. Where paths coincide the last one written is there. */
    method Install(plan: Plan, checks: Checks) returns (ok: bool)
      modifies this
      ensures !checks.Pass() ==> !ok && files == old(files) && history == old(history)
      ensures checks.Pass() && !ok ==> faults
      ensures ok ==> checks.Pass() && faults == old(faults) && plan.InPlace(files)
      ensures !ok ==> forall p | !At(old(files), p).Foreign? && p !in unrestored :: At(files, p) == At(old(files), p)
      ensures forall p | p !in plan.Paths() :: At(files, p) == At(old(files), p)
      ensures old(history) <= history
      ensures plan.Distinct() && !ok ==> Steady(history, |old(history)|, old(files), plan.descriptorPath)
      ensures plan.Distinct() && ok ==>
        && |history| > |old(history)| && history[|history| - 1] == files
        && Steady(history[..|history| - 1], |old(history)|, old(files), plan.descriptorPath)
    {
      if !checks.gatewayOk || checks.BlankCommand() || (!checks.probed && !checks.allowUnprobed) {
        return false;
      }
      if !checks.tokenOk || !checks.unitOk {
        return false;
      }
      ghost var before, start := files, |history|;
      var snaps;
      FourPuts(plan, before);
      hide Steady, AllCovered, Untouched, Put, At, Quiet, Plan.InPlace;
      ok, snaps := WriteThree(plan);
      if !ok {
        return;
      }
      ghost var past := history;
      ok, snaps := Replace(plan.descriptorPath, plan.descriptor, snaps, before,
                           {plan.unitPath, plan.configPath, plan.removalPath}, start);
      assert {plan.unitPath, plan.configPath, plan.removalPath} + {plan.descriptorPath} == plan.Paths();
      if ok {
        assert history[..|history| - 1] == past;
        QuietElsewhere(plan.Paths(), snaps, files, before, history, start);
      }
    }

    /** All but the descriptor. */
    method WriteThree(plan: Plan) returns (ok: bool, snaps: seq<Snapshot>)
      modifies this
      ensures old(history) <= history && old(unrestored) <= unrestored
      ensures faults == if ok then old(faults) else true
      ensures var three := {plan.unitPath, plan.configPath, plan.removalPath};
        if ok then
          && files == Put(Put(Put(old(files), plan.unitPath, plan.unit), plan.configPath, plan.config),
                          plan.removalPath, plan.removal)
          && AllCovered(snaps, files, old(files)) && Quiet(three, snaps, files, old(files), history, |old(history)|)
        else
          && (forall p | !At(old(files), p).Foreign? && p !in unrestored :: At(files, p) == At(old(files), p))
          && forall p | p !in three :: Steady(history, |old(history)|, old(files), p) && At(files, p) == At(old(files), p)
    {
      ghost var before, start := files, |history|;
      snaps := [];
      NothingYet(before, history);
      hide Steady, AllCovered, Untouched, Put, At, Quiet;
      ok, snaps := Replace(plan.unitPath, plan.unit, snaps, before, {}, start);
      if !ok {
        return;
      }
      assert {} + {plan.unitPath} == {plan.unitPath};
      ok, snaps := Replace(plan.configPath, plan.config, snaps, before, {plan.unitPath}, start);
      if !ok {
        return;
      }
      assert {plan.unitPath} + {plan.configPath} == {plan.unitPath, plan.configPath};
      ok, snaps := Replace(plan.removalPath, plan.removal, snaps, before, {plan.unitPath, plan.configPath}, start);
      assert {plan.unitPath, plan.configPath} + {plan.removalPath} == {plan.unitPath, plan.configPath, plan.removalPath};
    }
  }

  lemma NothingYet(now: Files, history: seq<Files>)
    ensures AllCovered([], now, now) && Quiet({}, [], now, now, history, |history|)
  {
  }

  lemma QuietElsewhere(touched: set<Path>, snaps: seq<Snapshot>, now: Files, before: Files, history: seq<Files>, k: nat)
    requires Quiet(touched, snaps, now, before, history, k)
    ensures forall p | p !in touched :: At(now, p) == At(before, p)
  {
  }

  lemma FourPuts(plan: Plan, fs: Files)
    ensures plan.InPlace(Put(Put(Put(Put(fs, plan.unitPath, plan.unit), plan.configPath, plan.config),
                                 plan.removalPath, plan.removal), plan.descriptorPath, plan.descriptor))
  {
  }

  lemma SteadyOn(past: seq<Files>, history: seq<Files>, k: nat, now: Files, before: Files, p: Path)
    requires past <= history && At(now, p) == At(before, p)
    requires Steady(past, k, before, p) && Steady(history, |past|, now, p)
    ensures Steady(history, k, before, p)
  {
    forall h | k <= h < |history|
      ensures At(history[h], p) == At(before, p)
    {
      if h < |past| {
        assert past[h] == history[h];
      }
    }
  }

  /** So the descriptor is never published without all it describes: not at any intermediate
      point of an install, nor of its rollback. */
  lemma NeverDangling(plan: Plan, history: seq<Files>, k: nat, before: Files, ok: bool)
    requires plan.Distinct() && At(before, plan.descriptorPath) != plan.descriptor && k <= |history|
    requires !plan.unit.Absent? && !plan.config.Absent? && !plan.removal.Absent?
    requires !ok ==> Steady(history, k, before, plan.descriptorPath)
    requires ok ==> k < |history| && plan.InPlace(history[|history| - 1])
                    && Steady(history[..|history| - 1], k, before, plan.descriptorPath)
    ensures forall h | k <= h < |history| :: !Dangling(plan, history[h])
  {
    forall h | k <= h < |history|
      ensures !Dangling(plan, history[h])
    {
      if ok && h < |history| - 1 {
        assert history[..|history| - 1][h] == history[h];
      }
    }
  }
}
