/** The skills linker: links made, repointed and withdrawn one at a time, each change recorded
    before the next. Model of Provision, link and prune in internal/agent/skills/link.go. */
module SkillLinks {
  import opened Prelude
  import opened SkillManifest

  // ---- The world ----------------------------------------------------------

  /** A link the linker made, and for which harness; an outside hand on the path ends it. */
  datatype Owner = Owner(harness: string, target: string)

  /** The disk, the links the linker made that are still there, and what a manifest claims. */
  datatype World = World(disk: Disk, made: map<Path, Owner>, claims: Claims)

  ghost predicate Sound(w: World) {
    forall p | p in w.made :: p in w.disk && w.disk[p] == Link(w.made[p].target)
  }

  /** A link made but not so recorded, or a record of a link not so made. */
  ghost predicate OutOfStep(w: World, p: Path) {
    || (p in w.made && !Claimed(w.claims, w.made[p], p))
    || exists h :: Key(h, p) in w.claims && !(p in w.made && w.made[p] == Owner(h, w.claims[Key(h, p)]))
  }

  ghost predicate Claimed(claims: Claims, o: Owner, p: Path) {
    Key(o.harness, p) in claims && claims[Key(o.harness, p)] == o.target
  }

  /** An entry that is no link of ours: a real file, a link nobody recorded, or a recorded link
      that points elsewhere by now. */
  ghost predicate Stranger(w: World, p: Path) {
    p in w.disk && forall h :: !Owned(w.disk, w.claims, h, p)
  }

  ghost predicate SameEntry(a: World, b: World, p: Path) {
    (p in a.disk <==> p in b.disk) && (p in a.disk ==> a.disk[p] == b.disk[p])
  }

  ghost predicate SameMade(a: World, b: World, p: Path) {
    (p in a.made <==> p in b.made) && (p in a.made ==> a.made[p] == b.made[p])
  }

  ghost predicate SameClaim(a: World, b: World, h: string, p: Path) {
    var k := Key(h, p);
    (k in a.claims <==> k in b.claims) && (k in a.claims ==> a.claims[k] == b.claims[k])
  }

  /** Nothing about q differs. */
  ghost predicate Same(a: World, b: World, q: Path) {
    SameEntry(a, b, q) && SameMade(a, b, q) && forall h :: SameClaim(a, b, h, q)
  }

  /** Nothing about what is at q differs. */
  ghost predicate SameThere(a: World, b: World, q: Path) {
    SameEntry(a, b, q) && SameMade(a, b, q)
  }

  ghost predicate OnlyAt(a: World, b: World, p: Path) {
    forall q | q != p :: Same(a, b, q)
  }

  /** What every finished operation keeps. */
  ghost predicate Keeps(a: World, b: World) {
    && Sound(b)
    && (forall p | OutOfStep(b, p) :: OutOfStep(a, p))
    && (forall p | Stranger(a, p) :: SameEntry(a, b, p) && Stranger(b, p))
  }

  /** What a run has kept when the paths in touched have seen outside hands meanwhile. */
  ghost predicate KeepsBut(a: World, b: World, touched: set<Path>) {
    && Sound(b)
    && (forall p | p !in touched && OutOfStep(b, p) :: OutOfStep(a, p))
    && (forall p | p !in touched && Stranger(a, p) :: SameEntry(a, b, p) && Stranger(b, p))
  }

  /** No untouched path but p has fallen out of step. */
  ghost predicate AtMostAt(start: World, now: World, p: Path, touched: set<Path>) {
    forall q | q != p && q !in touched && OutOfStep(now, q) :: OutOfStep(start, q)
  }

  /** What every crash point keeps: at most one path has fallen out of step, and strangers'
      entries are as they were, unless an outside hand has touched them. */
  ghost predicate CrashSafe(start: World, now: World, touched: set<Path>) {
    && Sound(now)
    && (exists p :: AtMostAt(start, now, p, touched))
    && (forall q | q !in touched && Stranger(start, q) :: SameEntry(start, now, q) && Stranger(now, q))
  }

  lemma SameOneWay(a: World, b: World, q: Path)
    requires Same(a, b, q)
    ensures OutOfStep(a, q) ==> OutOfStep(b, q)
    ensures Stranger(a, q) ==> Stranger(b, q)
  {
    if q in a.made && !Claimed(a.claims, a.made[q], q) {
      assert SameClaim(a, b, a.made[q].harness, q);
    } else if OutOfStep(a, q) {
      var h :| Key(h, q) in a.claims && !(q in a.made && a.made[q] == Owner(h, a.claims[Key(h, q)]));
      assert SameClaim(a, b, h, q);
    }
    if Stranger(a, q) {
      forall h
        ensures !Owned(b.disk, b.claims, h, q)
      {
        assert SameClaim(a, b, h, q) && !Owned(a.disk, a.claims, h, q);
      }
    }
  }

  lemma SameStanding(a: World, b: World, q: Path)
    requires Same(a, b, q)
    ensures OutOfStep(a, q) <==> OutOfStep(b, q)
    ensures Stranger(a, q) <==> Stranger(b, q)
  {
    SameOneWay(a, b, q);
    assert Same(b, a, q) by {
      forall h
        ensures SameClaim(b, a, h, q)
      {
        assert SameClaim(a, b, h, q);
      }
    }
    SameOneWay(b, a, q);
  }

  lemma KeepsThen(a: World, b: World, c: World, touched: set<Path>)
    requires KeepsBut(a, b, touched) && Keeps(b, c)
    ensures KeepsBut(a, c, touched)
  {
    hide OutOfStep, Stranger, Sound;
  }

  /** A point in the middle of an operation on p: only the disk at p may differ, and not a
      stranger's entry. */
  ghost predicate Midway(a: World, now: World, p: Path) {
    && Sound(now) && now.claims == a.claims && OnlyAt(a, now, p)
    && (Stranger(a, p) ==> SameEntry(a, now, p))
  }

  /** A crash between the last finished operation and the next save. */
  lemma CrashAfter(start: World, mid: World, now: World, p: Path, touched: set<Path>)
    requires KeepsBut(start, mid, touched) && Midway(mid, now, p)
    ensures CrashSafe(start, now, touched)
  {
    StrangerStill(mid, now, p);
    hide OutOfStep, Stranger, Same, Sound;
    forall q | q != p
      ensures OutOfStep(now, q) ==> OutOfStep(mid, q)
      ensures Stranger(mid, q) ==> SameEntry(mid, now, q) && Stranger(now, q)
    {
      SameStanding(mid, now, q);
      SameIsEntry(mid, now, q);
    }
    assert AtMostAt(start, now, p, touched);
  }

  lemma StrangerStill(a: World, b: World, p: Path)
    requires b.claims == a.claims && (Stranger(a, p) ==> SameEntry(a, b, p))
    ensures Stranger(a, p) ==> Stranger(b, p)
  {
    if Stranger(a, p) {
      forall h
        ensures !Owned(b.disk, b.claims, h, p)
      {
        assert !Owned(a.disk, a.claims, h, p);
      }
    }
  }

  lemma SameIsEntry(a: World, b: World, q: Path)
    requires Same(a, b, q)
    ensures SameEntry(a, b, q)
  {
  }

  // ---- One path, one harness ----------------------------------------------

  datatype Action = Linked | Unchanged | Repointed | Removed | Skipped

  datatype Cell = Cell(entry: Option<Entry>, claim: Option<string>) {
    predicate Ours() {
      entry.Some? && claim.Some? && entry.value == Link(claim.value)
    }
  }

  function CellAt(disk: Disk, claims: Claims, h: string, p: Path): Cell {
    Cell(if p in disk then Some(disk[p]) else None, if Key(h, p) in claims then Some(claims[Key(h, p)]) else None)
  }

  function At(w: World, h: string, p: Path): Cell {
    CellAt(w.disk, w.claims, h, p)
  }

  /** link, when every system call succeeds. */
  function LinkCell(c: Cell, target: string): (Cell, Action) {
    if c.entry.None? then (Cell(Some(Link(target)), Some(target)), Linked)
    else if !c.Ours() then (c, Skipped)
    else if c.entry.value == Link(target) then (c, Unchanged)
    else (Cell(Some(Link(target)), Some(target)), Repointed)
  }

  /** prune of one record, when every system call succeeds. */
  function PruneCell(c: Cell): (Cell, Action) {
    if c.entry.None? then (Cell(None, None), Removed)
    else if !c.Ours() then (c, Skipped)
    else (Cell(None, None), Removed)
  }

  /** The report of a link tells what became of the path: skipped when another holds it, linked when
      nothing was there, unchanged and repointed when our own link was right and when it was not. */
  lemma LinkTells(c: Cell, target: string)
    ensures var (after, action) := LinkCell(c, target);
      && (action == Skipped <==> c.entry.Some? && !c.Ours())
      && (action == Linked <==> c.entry.None?)
      && (action == Unchanged <==> c.entry == Some(Link(target)) && c.claim == Some(target))
      && (action == Repointed <==> c.Ours() && c.claim != Some(target))
      && (action == Skipped || action == Unchanged ==> after == c)
      && (action != Skipped ==> after == Cell(Some(Link(target)), Some(target)))
  {
  }

  lemma PruneTells(c: Cell)
    ensures var (after, action) := PruneCell(c);
      && (action == Skipped <==> c.entry.Some? && !c.Ours()) && (action == Skipped || action == Removed)
      && after == if action == Skipped then c else Cell(None, None)
  {
  }

  /** A finished operation of harness h on p: nothing else changes, and what must be kept is. */
  ghost predicate Operation(a: World, b: World, h: string, p: Path) {
    && Keeps(a, b) && OnlyAt(a, b, p)
    && forall k: Key | k != Key(h, p) :: SameClaim(a, b, k.harness, k.path)
  }

  /** The link is there and recorded. */
  function Put(w: World, h: string, p: Path, target: string): World {
    World(w.disk[p := Link(target)], w.made[p := Owner(h, target)], w.claims[Key(h, p) := target])
  }

  /** The link is gone and so is its record. */
  function Withdraw(w: World, h: string, p: Path): World {
    World(w.disk - {p}, w.made - {p}, w.claims - {Key(h, p)})
  }

  /** An operation whose record is not yet saved. */
  lemma UnsavedIsMidway(a: World, meant: World, h: string, p: Path)
    requires Operation(a, meant, h, p)
    ensures Midway(a, World(meant.disk, meant.made, a.claims), p)
  {
    var now := World(meant.disk, meant.made, a.claims);
    forall q | q != p
      ensures Same(a, now, q)
    {
      assert Same(a, meant, q);
    }
  }

  lemma NothingDone(w: World, h: string, p: Path)
    requires Sound(w)
    ensures Operation(w, w, h, p)
  {
  }

  lemma NotStranger(w: World, h: string, p: Path)
    requires At(w, h, p).Ours() || p !in w.disk
    ensures !Stranger(w, p)
  {
    if p in w.disk {
      assert Owned(w.disk, w.claims, h, p);
    }
  }

  lemma PutOperation(w: World, h: string, p: Path, target: string)
    requires Sound(w) && (At(w, h, p).Ours() || p !in w.disk)
    ensures Operation(w, Put(w, h, p, target), h, p)
    ensures At(Put(w, h, p, target), h, p) == Cell(Some(Link(target)), Some(target))
  {
    var b := Put(w, h, p, target);
    NotStranger(w, h, p);
    forall q | q != p
      ensures Same(w, b, q)
    {
    }
    OthersKeep(w, b, p);
    if OutOfStep(b, p) {
      var h' :| Key(h', p) in b.claims && b.made[p] != Owner(h', b.claims[Key(h', p)]);
      TwoClaims(w, h, h', p);
    }
  }

  lemma WithdrawOperation(w: World, h: string, p: Path)
    requires Sound(w) && (At(w, h, p).Ours() || p !in w.disk) && Key(h, p) in w.claims
    ensures Operation(w, Withdraw(w, h, p), h, p)
    ensures At(Withdraw(w, h, p), h, p) == Cell(None, None)
  {
    var b := Withdraw(w, h, p);
    NotStranger(w, h, p);
    forall q | q != p
      ensures Same(w, b, q)
    {
    }
    OthersKeep(w, b, p);
    if OutOfStep(b, p) {
      var h' :| Key(h', p) in b.claims;
      TwoClaims(w, h, h', p);
    }
  }

  /** A path two harnesses claim is out of step, and so is one claimed with nothing there. */
  lemma TwoClaims(w: World, h: string, h': string, p: Path)
    requires Sound(w) && h != h' && Key(h', p) in w.claims && (p !in w.disk || Key(h, p) in w.claims)
    ensures OutOfStep(w, p)
  {
  }

  lemma OthersKeep(a: World, b: World, p: Path)
    requires Sound(a) && OnlyAt(a, b, p)
    ensures forall q | q != p :: q in b.made ==> q in b.disk && b.disk[q] == Link(b.made[q].target)
    ensures forall q | q != p && OutOfStep(b, q) :: OutOfStep(a, q)
    ensures forall q | q != p && Stranger(a, q) :: SameEntry(a, b, q) && Stranger(b, q)
  {
    forall q | q != p
      ensures q in b.made ==> q in b.disk && b.disk[q] == Link(b.made[q].target)
      ensures OutOfStep(b, q) ==> OutOfStep(a, q)
      ensures Stranger(a, q) ==> SameEntry(a, b, q) && Stranger(b, q)
    {
      assert Same(a, b, q);
      SameStanding(a, b, q);
    }
  }

  lemma MidwayGone(w: World, h: string, p: Path)
    requires Sound(w)
    requires At(w, h, p).Ours() || p !in w.disk
    ensures Midway(w, World(w.disk - {p}, w.made - {p}, w.claims), p)
  {
    NotStranger(w, h, p);
  }

  lemma GoneAlready(w: World, h: string, p: Path)
    requires Sound(w) && p !in w.disk
    ensures Withdraw(w, h, p) == World(w.disk, w.made, w.claims - {Key(h, p)})
  {
    assert w.disk - {p} == w.disk && w.made - {p} == w.made;
  }

  lemma MidwayLinked(w: World, h: string, p: Path, target: string)
    requires Sound(w)
    requires At(w, h, p).Ours() || p !in w.disk
    ensures Midway(w, World(w.disk[p := Link(target)], w.made[p := Owner(h, target)], w.claims), p)
    ensures (w.disk - {p})[p := Link(target)] == w.disk[p := Link(target)]
    ensures (w.made - {p})[p := Owner(h, target)] == w.made[p := Owner(h, target)]
  {
    NotStranger(w, h, p);
  }

  // ---- One run ------------------------------------------------------------

  ghost predicate CrashPoints(start: World, history: seq<World>, k: nat, touched: set<Path>) {
    forall i | k <= i < |history| :: CrashSafe(start, history[i], touched)
  }

  lemma KeptIsCrashSafe(start: World, now: World, touched: set<Path>)
    requires KeepsBut(start, now, touched)
    ensures CrashSafe(start, now, touched)
  {
    hide OutOfStep, Stranger, Sound;
    var p: Path :| true;
    assert AtMostAt(start, now, p, touched);
  }

  /** More history, all of it from the middle of one operation. */
  lemma MidwayPoints(start: World, a: World, past: seq<World>, history: seq<World>, k: nat, p: Path, touched: set<Path>)
    requires CrashPoints(start, past, k, touched) && past <= history && KeepsBut(start, a, touched)
    requires forall i | |past| <= i < |history| :: Midway(a, history[i], p)
    ensures CrashPoints(start, history, k, touched)
  {
    hide CrashSafe, KeepsBut;
    forall i | k <= i < |history|
      ensures CrashSafe(start, history[i], touched)
    {
      if i < |past| {
        assert past[i] == history[i];
      } else {
        CrashAfter(start, a, history[i], p, touched);
      }
    }
  }

  /** An outside hand on q, whatever it does there: the record stays, the link is no longer one
      the linker made. */
  ghost predicate HandOn(a: World, b: World, q: Path) {
    && b.claims == a.claims && b.made == a.made - {q} && b.disk - {q} == a.disk - {q}
  }

  lemma HandElsewhere(a: World, b: World, q: Path, r: Path)
    requires HandOn(a, b, q) && r != q
    ensures Same(a, b, r)
  {
    assert r in b.disk <==> r in b.disk - {q};
    assert r in a.disk <==> r in a.disk - {q};
    assert r in a.disk ==> (a.disk - {q})[r] == a.disk[r];
    assert r in b.disk ==> (b.disk - {q})[r] == b.disk[r];
  }

  lemma HandKeeps(start: World, a: World, b: World, q: Path, touched: set<Path>)
    requires KeepsBut(start, a, touched) && HandOn(a, b, q)
    ensures KeepsBut(start, b, touched + {q})
  {
    forall r | r != q
      ensures Same(a, b, r)
      ensures OutOfStep(b, r) ==> OutOfStep(a, r)
      ensures Stranger(a, r) ==> SameEntry(a, b, r) && Stranger(b, r)
    {
      HandElsewhere(a, b, q, r);
      SameStanding(a, b, r);
    }
    forall r | r in b.made
      ensures r in b.disk && b.disk[r] == Link(b.made[r].target)
    {
      assert r in a.made && Same(a, b, r);
    }
    hide OutOfStep, Stranger;
  }

  lemma CrashPointsGrow(start: World, history: seq<World>, k: nat, touched: set<Path>, more: set<Path>)
    requires CrashPoints(start, history, k, touched) && touched <= more
    ensures CrashPoints(start, history, k, more)
  {
    hide OutOfStep, Stranger, Sound;
    forall i | k <= i < |history|
      ensures CrashSafe(start, history[i], more)
    {
      assert CrashSafe(start, history[i], touched);
      var p :| AtMostAt(start, history[i], p, touched);
      assert AtMostAt(start, history[i], p, more);
    }
  }

  /** Beside one harness's own directory and records nothing differs that was not touched. */
  ghost predicate Beside(a: World, b: World, h: string, dir: string, touched: set<Path>) {
    && (forall q: Path | q.dir != dir && q !in touched :: SameThere(a, b, q))
    && (forall k: Key | !(k.harness == h && k.path.dir == dir) :: SameClaim(a, b, k.harness, k.path))
  }

  lemma BesideSelf(a: World, h: string, dir: string, touched: set<Path>)
    ensures Beside(a, a, h, dir, touched)
  {
  }

  lemma BesideTrans(a: World, b: World, c: World, h: string, dir: string, touched: set<Path>)
    requires Beside(a, b, h, dir, touched) && Beside(b, c, h, dir, touched)
    ensures Beside(a, c, h, dir, touched)
  {
    forall q: Path | q.dir != dir && q !in touched
      ensures SameThere(a, c, q)
    {
      assert SameThere(a, b, q) && SameThere(b, c, q);
    }
    forall k: Key | !(k.harness == h && k.path.dir == dir)
      ensures SameClaim(a, c, k.harness, k.path)
    {
      assert SameClaim(a, b, k.harness, k.path) && SameClaim(b, c, k.harness, k.path);
    }
  }

  lemma BesideGrow(a: World, b: World, h: string, dir: string, touched: set<Path>, more: set<Path>)
    requires Beside(a, b, h, dir, touched) && touched <= more
    ensures Beside(a, b, h, dir, more)
  {
  }

  lemma OperationBeside(a: World, b: World, h: string, p: Path, touched: set<Path>)
    requires Operation(a, b, h, p)
    ensures Beside(a, b, h, p.dir, touched)
    ensures forall q | q != p :: At(b, h, q) == At(a, h, q)
  {
    hide Keeps;
    forall q: Path | q != p
      ensures SameThere(a, b, q) && At(b, h, q) == At(a, h, q)
    {
      assert Same(a, b, q) && SameClaim(a, b, h, q);
    }
  }

  lemma MidwayBeside(a: World, b: World, h: string, p: Path, touched: set<Path>)
    requires Midway(a, b, p)
    ensures Beside(a, b, h, p.dir, touched)
  {
    forall q: Path | q != p
      ensures SameThere(a, b, q)
    {
      assert Same(a, b, q);
    }
  }

  /** Beside the directories and the records of the run's harnesses nothing differs that was not
      touched. */
  ghost predicate Elsewhere(a: World, b: World, jobs: seq<Job>, touched: set<Path>) {
    && (forall q: Path | OutsideAll(jobs, q) && q !in touched :: SameThere(a, b, q))
    && (forall k: Key | OfNone(jobs, k) :: SameClaim(a, b, k.harness, k.path))
  }

  /** No job is for this harness and this directory. */
  predicate OfNone(jobs: seq<Job>, k: Key) {
    forall i | 0 <= i < |jobs| :: !(jobs[i].harness == k.harness && jobs[i].dir == k.path.dir)
  }

  predicate OutsideAll(jobs: seq<Job>, q: Path) {
    forall i | 0 <= i < |jobs| :: jobs[i].dir != q.dir
  }

  lemma ElsewhereSelf(a: World, jobs: seq<Job>, touched: set<Path>)
    ensures Elsewhere(a, a, jobs, touched)
  {
  }

  lemma ElsewhereNext(a: World, b: World, c: World, jobs: seq<Job>, i: nat, touched: set<Path>, more: set<Path>)
    requires i < |jobs| && Elsewhere(a, b, jobs, touched) && touched <= more
    requires Beside(b, c, jobs[i].harness, jobs[i].dir, more)
    ensures Elsewhere(a, c, jobs, more)
  {
    forall q: Path | OutsideAll(jobs, q) && q !in more
      ensures SameThere(a, c, q)
    {
      assert SameThere(a, b, q) && SameThere(b, c, q);
    }
    forall k: Key | OfNone(jobs, k)
      ensures SameClaim(a, c, k.harness, k.path)
    {
      assert SameClaim(a, b, k.harness, k.path) && SameClaim(b, c, k.harness, k.path);
    }
  }

  lemma HandsBeside(a: World, b: World, c: World, h: string, dir: string, touched: set<Path>, more: set<Path>)
    requires Beside(a, b, h, dir, touched) && touched <= more && c.claims == b.claims
    requires forall q | q !in more :: SameThere(b, c, q)
    ensures Beside(a, c, h, dir, more)
  {
    forall q: Path | q.dir != dir && q !in more
      ensures SameThere(a, c, q)
    {
      assert SameThere(a, b, q) && SameThere(b, c, q);
    }
    forall k: Key | !(k.harness == h && k.path.dir == dir)
      ensures SameClaim(a, c, k.harness, k.path)
    {
      assert SameClaim(a, b, k.harness, k.path);
    }
  }

  // ---- The linker ---------------------------------------------------------

  datatype Job = Job(harness: string, dir: string, slugs: seq<string>)

  /** What discovery and the profile say: skills that may not go on a harness, and where each
      linkable skill lives. */
  datatype Vault = Vault(unsupported: set<(string, string)>, catalog: map<string, string>)

  predicate Linkable(v: Vault, job: Job, slug: string) {
    (slug, job.harness) !in v.unsupported && slug in v.catalog
  }

  class Linker {
    const prune: bool
    var disk: Disk
    /** The manifest file. */
    var saved: seq<LinkRecord>
    ghost var made: map<Path, Owner>
    /** The world after every change of the disk or the manifest file, newest last. */
    ghost var history: seq<World>
    /** Whether any system call has failed, or an outside hand has acted, during a run. */
    ghost var faults: bool
    /** The paths outside hands have touched during the run. */
    ghost var touched: set<Path>

    constructor (prune: bool, disk: Disk, saved: seq<LinkRecord>, ghost made: map<Path, Owner>)
      ensures this.prune == prune && this.disk == disk && this.saved == saved && this.made == made
      ensures history == [] && !faults && touched == {}
    {
      this.prune, this.disk, this.saved, this.made := prune, disk, saved, made;
      history, faults, touched := [], false, {};
    }

    /** The world as a crash now would leave it. */
    ghost function Now(): World
      reads this
    {
      World(disk, made, View(saved))
    }

    /** The world with the manifest in memory in place of the saved one. */
    ghost function Meant(m: Manifest): World
      reads this, m
    {
      World(disk, made, View(m.links))
    }

    method Fails() returns (r: bool)
      modifies this`faults
      ensures faults == (old(faults) || r)
    {
      r := *;
      faults := faults || r;
    }

    method Symlink(target: string, h: string, p: Path) returns (ok: bool)
      modifies this`disk, this`made, this`history, this`faults
      requires p !in disk
      ensures ok ==> disk == old(disk)[p := Link(target)] && made == old(made)[p := Owner(h, target)]
                     && history == old(history) + [Now()] && faults == old(faults)
      ensures !ok ==> disk == old(disk) && made == old(made) && history == old(history) && faults
    {
      var fails := Fails();
      if fails {
        return false;
      }
      disk := disk[p := Link(target)];
      made := made[p := Owner(h, target)];
      history := history + [Now()];
      ok := true;
    }

    method Remove(p: Path) returns (ok: bool)
      modifies this`disk, this`made, this`history, this`faults
      ensures ok ==> disk == old(disk) - {p} && made == old(made) - {p}
                     && history == old(history) + [Now()] && faults == old(faults)
      ensures !ok ==> disk == old(disk) && made == old(made) && history == old(history) && faults
    {
      var fails := Fails();
      if fails {
        return false;
      }
      disk := disk - {p};
      made := made - {p};
      history := history + [Now()];
      ok := true;
    }

    /** SaveManifest: a temporary file and a rename. */
    method Save(m: Manifest) returns (ok: bool)
      modifies this`saved, this`history, this`faults
      ensures saved == if ok then m.links else old(saved)
      ensures history == if ok then old(history) + [Now()] else old(history)
      ensures faults == (old(faults) || !ok)
    {
      var fails := Fails();
      if fails {
        return false;
      }
      saved := m.links;
      history := history + [Now()];
      ok := true;
    }

    /** What link and prune may do before their caller saves. */
    twostate predicate Operated(m: Manifest, h: string, p: Path)
      reads this, m
    {
      && Unique(m.links) && saved == old(saved) && touched == old(touched) && (old(faults) ==> faults)
      && Operation(old(Now()), Meant(m), h, p)
      && old(history) <= history
      && forall i | |old(history)| <= i < |history| :: Midway(old(Now()), history[i], p)
    }

    /** The end of link: our own link points at where the vault used to be. */
    method Repoint(m: Manifest, h: string, p: Path, target: string) returns (action: Action, changed: bool)
      requires Unique(m.links) && View(m.links) == View(saved) && Sound(Now())
      requires At(Now(), h, p).Ours()
      modifies this, m
      ensures Operated(m, h, p)
      ensures !faults ==> action == Repointed && Meant(m) == Put(old(Now()), h, p, target)
      ensures !changed ==> Meant(m) == Now() == old(Now()) && history == old(history)
    {
      ghost var a := Now();
      NothingDone(a, h, p);
      PutOperation(a, h, p, target);
      WithdrawOperation(a, h, p);
      MidwayGone(a, h, p);
      MidwayLinked(a, h, p, target);
      hide Operation, Midway, View, Sound, Unique;
      var removed := Remove(p);
      if !removed {
        return Skipped, false;
      }
      var ok := Symlink(target, h, p);
      if !ok {
        m.Forget(h, p);
        return Skipped, true;
      }
      m.Record(LinkRecord(h, p, target));
      return Repointed, true;
    }

    /** The middle of link: nothing is there. */
    method LinkFresh(m: Manifest, h: string, p: Path, target: string) returns (action: Action, changed: bool)
      requires Unique(m.links) && View(m.links) == View(saved) && Sound(Now())
      requires p !in disk
      modifies this, m
      ensures Operated(m, h, p)
      ensures !faults ==> action == Linked && Meant(m) == Put(old(Now()), h, p, target)
      ensures !changed ==> Meant(m) == Now() == old(Now()) && history == old(history)
    {
      ghost var a := Now();
      NothingDone(a, h, p);
      PutOperation(a, h, p, target);
      MidwayLinked(a, h, p, target);
      hide Operation, Midway, View, Sound, Unique;
      var ok := Symlink(target, h, p);
      if !ok {
        return Skipped, false;
      }
      m.Record(LinkRecord(h, p, target));
      return Linked, true;
    }

    /** link */
    method LinkSkill(m: Manifest, h: string, p: Path, target: string) returns (action: Action, changed: bool)
      requires Unique(m.links) && View(m.links) == View(saved) && Sound(Now())
      modifies this, m
      ensures Operated(m, h, p)
      ensures !faults ==> (At(Meant(m), h, p), action) == LinkCell(At(old(Now()), h, p), target)
      ensures !changed ==> Meant(m) == Now() == old(Now()) && history == old(history)
    {
      ghost var a := Now();
      NothingDone(a, h, p);
      if At(a, h, p).Ours() || p !in disk {
        PutOperation(a, h, p, target);
      }
      hide Operation, Midway, View, Sound, Unique;
      var unreadable := Fails();
      if unreadable {
        return Skipped, false;
      }
      if p !in disk {
        action, changed := LinkFresh(m, h, p, target);
        return;
      }
      if disk[p].Real? {
        return Skipped, false;
      }
      var ours := m.Owns(disk, h, p);
      if !ours {
        return Skipped, false;
      }
      if disk[p].target == target {
        m.Record(LinkRecord(h, p, target));
        assert View(m.links) == a.claims;
        return Unchanged, false;
      }
      action, changed := Repoint(m, h, p, target);
    }

    /** The body of the pruning loop, before its save. */
    method PruneRecord(m: Manifest, h: string, p: Path) returns (action: Action, changed: bool)
      requires Unique(m.links) && View(m.links) == View(saved) && Sound(Now()) && Key(h, p) in View(m.links)
      modifies this, m
      ensures Operated(m, h, p)
      ensures !faults ==> (At(Meant(m), h, p), action) == PruneCell(At(old(Now()), h, p))
      ensures !changed ==> Meant(m) == Now() == old(Now()) && history == old(history)
    {
      ghost var a := Now();
      NothingDone(a, h, p);
      if At(a, h, p).Ours() || p !in disk {
        WithdrawOperation(a, h, p);
        MidwayGone(a, h, p);
      }
      if p !in disk {
        GoneAlready(a, h, p);
      }
      hide Operation, Midway, View, Sound, Unique, Withdraw;
      var unreadable := Fails();
      if unreadable {
        return Skipped, false;
      }
      if p !in disk {
        m.Forget(h, p);
        return Removed, true;
      }
      if disk[p].Real? {
        return Skipped, false;
      }
      var ours := m.Owns(disk, h, p);
      if !ours {
        return Skipped, false;
      }
      var ok := Remove(p);
      if !ok {
        return Skipped, false;
      }
      m.Forget(h, p);
      return Removed, true;
    }

    /** Between operations: memory and file agree, and the run has kept what it must. */
    ghost predicate Settled(m: Manifest, start: World, k: nat)
      reads this, m
    {
      && Unique(m.links) && Unique(saved) && View(m.links) == View(saved)
      && KeepsBut(start, Now(), touched) && k <= |history| && CrashPoints(start, history, k, touched)
    }

    /** One operation and its save: a failed save ends the run. */
    twostate predicate Stepped(m: Manifest, start: World, k: nat, h: string, p: Path, ok: bool)
      reads this, m
    {
      && old(history) <= history && k <= |history| && CrashPoints(start, history, k, touched) && (old(faults) ==> faults)
      && touched == old(touched) && CrashSafe(start, Now(), touched) && Unique(saved)
      && (!ok ==> faults && Midway(old(Now()), Now(), p))
      && (ok ==> Settled(m, start, k) && Operation(old(Now()), Now(), h, p))
    }

    method SaveStep(m: Manifest, changed: bool, ghost start: World, ghost k: nat, ghost a: World, ghost past: seq<World>,
                    ghost h: string, ghost p: Path)
      returns (ok: bool)
      requires Unique(m.links) && Operation(a, Meant(m), h, p) && KeepsBut(start, a, touched)
      requires past <= history && k <= |past| && CrashPoints(start, past, k, touched)
      requires forall i | |past| <= i < |history| :: Midway(a, history[i], p)
      requires View(saved) == a.claims && Unique(saved) && (!changed ==> Meant(m) == Now())
      modifies this`saved, this`history, this`faults
      ensures CrashSafe(start, Now(), touched) && Unique(saved)
      ensures !ok ==> Midway(a, Now(), p)
      ensures past <= history && CrashPoints(start, history, k, touched) && (old(faults) ==> faults) && (!ok ==> faults)
      ensures ok ==> Now() == Meant(m) == old(Meant(m)) && Settled(m, start, k) && faults == old(faults)
    {
      KeepsThen(start, a, Meant(m), touched);
      MidwayPoints(start, a, past, history, k, p, touched);
      KeptIsCrashSafe(start, Meant(m), touched);
      UnsavedIsMidway(a, Meant(m), h, p);
      CrashAfter(start, a, Now(), p, touched);
      hide Operation, Keeps, KeepsBut, Midway, View, CrashSafe;
      if changed {
        ok := Save(m);
      } else {
        ok := true;
      }
    }

    method LinkStep(m: Manifest, h: string, p: Path, target: string, ghost start: World, ghost k: nat)
      returns (action: Action, ok: bool)
      requires Settled(m, start, k)
      modifies this, m
      ensures Stepped(m, start, k, h, p, ok)
      ensures !faults ==> (At(Now(), h, p), action) == LinkCell(At(old(Now()), h, p), target)
    {
      ghost var a, past := Now(), history;
      assert Sound(a);
      var changed;
      action, changed := LinkSkill(m, h, p, target);
      hide Operation, Keeps, KeepsBut, Midway, View, CrashSafe, CrashPoints;
      ok := SaveStep(m, changed, start, k, a, past, h, p);
    }

    method PruneStep(m: Manifest, h: string, p: Path, ghost start: World, ghost k: nat)
      returns (action: Action, ok: bool)
      requires Settled(m, start, k) && Key(h, p) in View(m.links)
      modifies this, m
      ensures Stepped(m, start, k, h, p, ok)
      ensures !faults ==> (At(Now(), h, p), action) == PruneCell(At(old(Now()), h, p))
    {
      ghost var a, past := Now(), history;
      assert Sound(a);
      var changed;
      action, changed := PruneRecord(m, h, p);
      hide Operation, Keeps, KeepsBut, Midway, View, CrashSafe, CrashPoints;
      ok := SaveStep(m, changed, start, k, a, past, h, p);
    }

    /** Between operations outside hands may do anything to any paths. */
    method Hands(m: Manifest, ghost start: World, ghost k: nat)
      requires Settled(m, start, k)
      modifies this`disk, this`made, this`history, this`touched, this`faults
      ensures Settled(m, start, k) && old(history) <= history && old(touched) <= touched && (old(faults) ==> faults)
      ensures !faults ==> Now() == old(Now()) && touched == old(touched)
      ensures forall q | q !in touched :: SameThere(old(Now()), Now(), q)
    {
      hide OutOfStep, Stranger, View, Unique, CrashSafe, KeepsBut, CrashPoints;
      var n: nat := *;
      while n > 0
        invariant Settled(m, start, k) && old(history) <= history && old(touched) <= touched && (old(faults) ==> faults)
        invariant !faults ==> Now() == old(Now()) && touched == old(touched)
        invariant forall q | q !in touched :: SameThere(old(Now()), Now(), q)
      {
        ghost var a := Now();
        var q: Path := *;
        var e: Option<Entry> := *;
        disk := if e.Some? then disk[q := e.value] else disk - {q};
        made := made - {q};
        assert HandOn(a, Now(), q);
        HandKeeps(start, a, Now(), q, touched);
        KeptIsCrashSafe(start, Now(), touched + {q});
        CrashPointsGrow(start, history, k, touched, touched + {q});
        ghost var past := history;
        history, touched, faults := history + [Now()], touched + {q}, true;
        CrashPointsNext(start, past, history, k, Now(), touched);
        forall r | r !in touched
          ensures SameThere(old(Now()), Now(), r)
        {
          HandElsewhere(a, Now(), q, r);
        }
        n := n - 1;
      }
    }

    /** The loop over the assigned skills of one harness. */
    method LinkAll(m: Manifest, job: Job, vault: Vault, ghost start: World, ghost k: nat)
      returns (ok: bool, wanted: set<Path>, actions: seq<Action>)
      requires Settled(m, start, k) && Distinct(job.slugs)
      modifies this, m
      ensures old(history) <= history && k <= |history| && CrashPoints(start, history, k, touched) && (old(faults) ==> faults)
      ensures old(touched) <= touched && (!faults ==> touched == old(touched))
      ensures !ok ==> faults && CrashSafe(start, Now(), touched) && Unique(saved)
      ensures Beside(old(Now()), Now(), job.harness, job.dir, touched) && (ok ==> Settled(m, start, k))
      ensures ok ==> forall p :: p in wanted <==> Want(vault, job, p, |job.slugs|).Some?
      ensures ok && !faults ==> LinkedCells(old(Now()), Now(), vault, job, |job.slugs|)
      ensures ok && !faults ==> LinkActions(old(Now()), vault, job, actions, |job.slugs|)
    {
      ghost var a := Now();
      hide Keeps, KeepsBut, Same, View, CrashSafe, CrashPoints, Unique, SameClaim, SameThere;
      BesideSelf(a, job.harness, job.dir, touched);
      wanted, actions, ok := {}, [], true;
      for i := 0 to |job.slugs|
        invariant ok && Settled(m, start, k) && old(history) <= history && (old(faults) ==> faults)
        invariant old(touched) <= touched && (!faults ==> touched == old(touched))
        invariant Beside(a, Now(), job.harness, job.dir, touched)
        invariant forall p :: p in wanted <==> Want(vault, job, p, i).Some?
        invariant !faults ==> LinkedCells(a, Now(), vault, job, i) && LinkActions(a, vault, job, actions, i)
      {
        hide Beside, Settled, Operation, LinkedCells, LinkActions;
        var slug := job.slugs[i];
        var p := Path(job.dir, slug);
        WantNext(vault, job, i);
        if !Linkable(vault, job, slug) {
          SkipNext(a, Now(), vault, job, actions, i);
          actions := actions + [Skipped];
          continue;
        }
        wanted := wanted + {p};
        ghost var b0, t0 := Now(), touched;
        Hands(m, start, k);
        HandsBeside(a, b0, Now(), job.harness, job.dir, t0, touched);
        ghost var b := Now();
        var action;
        action, ok := LinkStep(m, job.harness, p, vault.catalog[slug], start, k);
        if !ok {
          MidwayBeside(b, Now(), job.harness, p, touched);
          BesideTrans(a, b, Now(), job.harness, job.dir, touched);
          return;
        }
        OperationBeside(b, Now(), job.harness, p, touched);
        BesideTrans(a, b, Now(), job.harness, job.dir, touched);
        if !faults {
          LinkNext(a, b, Now(), vault, job, actions, action, i);
        }
        actions := actions + [action];
      }
    }

    /** The first loop of prune: this harness's records in this directory that nothing wants. */
    method FindStale(m: Manifest, h: string, dir: string, wanted: set<Path>) returns (stale: seq<Path>)
      requires Unique(m.links)
      ensures StaleOf(stale, View(m.links), h, dir, wanted)
    {
      stale := [];
      ghost var at: seq<nat> := [];
      for i := 0 to |m.links|
        invariant |at| == |stale|
        invariant forall j | 0 <= j < |stale| :: at[j] < i && m.links[at[j]].path == stale[j]
                    && m.links[at[j]].harness == h && stale[j].dir == dir && stale[j] !in wanted
        invariant forall j, l | 0 <= j < l < |stale| :: at[j] < at[l]
        invariant forall n | 0 <= n < i && m.links[n].harness == h && m.links[n].path.dir == dir && m.links[n].path !in wanted ::
                    m.links[n].path in stale
      {
        var e := m.links[i];
        if e.harness != h || e.path in wanted {
          continue;
        }
        if e.path.dir != dir {
          continue;
        }
        stale, at := stale + [e.path], at + [i];
      }
      StaleRecords(m.links, stale, at, h, dir, wanted);
    }

    /** The second loop of prune. */
    method PruneAll(m: Manifest, h: string, dir: string, wanted: set<Path>, stale: seq<Path>, ghost start: World, ghost k: nat)
      returns (ok: bool, actions: seq<Action>)
      requires Settled(m, start, k) && StaleOf(stale, View(m.links), h, dir, wanted)
      modifies this, m
      ensures old(history) <= history && k <= |history| && CrashPoints(start, history, k, touched) && (old(faults) ==> faults)
      ensures old(touched) <= touched && (!faults ==> touched == old(touched))
      ensures !ok ==> faults && CrashSafe(start, Now(), touched) && Unique(saved)
      ensures Beside(old(Now()), Now(), h, dir, touched) && (ok ==> Settled(m, start, k))
      ensures ok && !faults ==> PrunedCells(old(Now()), Now(), h, stale, |stale|)
      ensures ok && !faults ==> PruneActions(old(Now()), h, stale, actions, |stale|)
    {
      ghost var a := Now();
      BesideSelf(a, h, dir, touched);
      actions, ok := [], true;
      hide Keeps, KeepsBut, Same, View, CrashSafe, CrashPoints, Unique;
      for i := 0 to |stale|
        invariant ok && Settled(m, start, k) && old(history) <= history && (old(faults) ==> faults)
        invariant old(touched) <= touched && (!faults ==> touched == old(touched))
        invariant Beside(a, Now(), h, dir, touched)
        invariant forall j | i <= j < |stale| :: At(Now(), h, stale[j]).claim == At(a, h, stale[j]).claim
        invariant !faults ==> PrunedCells(a, Now(), h, stale, i) && PruneActions(a, h, stale, actions, i)
      {
        hide Beside, Settled, Operation, PrunedCells, PruneActions, SameClaim;
        ghost var b0, t0 := Now(), touched;
        Hands(m, start, k);
        HandsBeside(a, b0, Now(), h, dir, t0, touched);
        ghost var b := Now();
        assert Settled(m, start, k) ==> View(m.links) == b.claims by {
          SettledViews(m, start, k);
        }
        assert At(a, h, stale[i]).claim.Some? && At(b, h, stale[i]).claim.Some?;
        var action;
        action, ok := PruneStep(m, h, stale[i], start, k);
        if !ok {
          MidwayBeside(b, Now(), h, stale[i], touched);
          BesideTrans(a, b, Now(), h, dir, touched);
          return;
        }
        OperationBeside(b, Now(), h, stale[i], touched);
        BesideTrans(a, b, Now(), h, dir, touched);
        if !faults {
          PruneNext(a, b, Now(), h, stale, actions, action, i);
        }
        actions := actions + [action];
      }
    }

    lemma SettledViews(m: Manifest, start: World, k: nat)
      requires Settled(m, start, k)
      ensures View(m.links) == View(saved)
    {
    }

    /** One harness of a run: make its directory, link, and prune. */
    method ProvisionHarness(m: Manifest, job: Job, vault: Vault, ghost start: World, ghost k: nat)
      returns (ok: bool, linked: seq<Action>, stale: seq<Path>, pruned: seq<Action>)
      requires Settled(m, start, k) && Distinct(job.slugs)
      modifies this, m
      ensures old(history) <= history && k <= |history| && CrashPoints(start, history, k, touched) && (old(faults) ==> faults)
      ensures old(touched) <= touched && (!faults ==> touched == old(touched))
      ensures !ok ==> faults && CrashSafe(start, Now(), touched) && Unique(saved)
      ensures Beside(old(Now()), Now(), job.harness, job.dir, touched) && (ok ==> Settled(m, start, k))
      ensures ok && !faults ==> JobDone(old(Now()), Now(), vault, job, prune)
      ensures ok && !faults ==> JobReported(old(Now()), vault, job, prune, linked, stale, pruned)
    {
      linked, stale, pruned := [], [], [];
      if |job.slugs| > 0 {
        var fails := Fails();
        if fails {
          KeptIsCrashSafe(start, Now(), touched);
          BesideSelf(Now(), job.harness, job.dir, touched);
          ok := false;
          return;
        }
      }
      ghost var a := Now();
      var wanted;
      ok, wanted, linked := LinkAll(m, job, vault, start, k);
      if !ok {
        return;
      }
      hide CrashPoints, Keeps, KeepsBut, Beside, LinkedCells, LinkActions, PrunedCells, PruneActions, View, Unique, Linkable;
      ghost var b, t := Now(), touched;
      if !prune {
        if !faults {
          NoPrune(a, b, vault, job, linked);
        }
        return;
      }
      stale := FindStale(m, job.harness, job.dir, wanted);
      ok, pruned := PruneAll(m, job.harness, job.dir, wanted, stale, start, k);
      BesideGrow(a, b, job.harness, job.dir, t, touched);
      BesideTrans(a, b, Now(), job.harness, job.dir, touched);
      if ok && !faults {
        WithPrune(a, b, Now(), vault, job, wanted, linked, stale, pruned);
      }
    }

    /** Provision. ready: every harness has a directory, the state directory is named, the lock
        is held and the manifest read. */
    method Provision(jobs: seq<Job>, vault: Vault, ready: bool)
      returns (ok: bool, reports: seq<Report>, ghost ws: seq<World>)
      requires Unique(saved) && Sound(Now())
      requires forall i | 0 <= i < |jobs| :: Distinct(jobs[i].slugs)
      modifies this
      ensures !ready ==> !ok && Now() == old(Now()) && history == old(history)
      ensures Unique(saved) && CrashSafe(old(Now()), Now(), touched) && Elsewhere(old(Now()), Now(), jobs, touched)
      ensures old(history) <= history && CrashPoints(old(Now()), history, |old(history)|, touched)
      ensures ok ==> KeepsBut(old(Now()), Now(), touched)
      ensures ready && !faults ==> ok
      ensures ok && !faults ==>
        Chain(ws, vault, jobs, prune, reports, |jobs|) && ws[0] == old(Now()) && ws[|jobs|] == Now()
    {
      ghost var start, k := Now(), |history|;
      touched := {};
      KeepsSelf(start, touched);
      KeptIsCrashSafe(start, start, touched);
      ElsewhereSelf(start, jobs, touched);
      reports, ws := [], [start];
      if !ready {
        return false, reports, ws;
      }
      var m := new Manifest(saved);
      ok := Save(m);
      if !ok {
        return;
      }
      assert Now() == start;
      hide Keeps, KeepsBut, CrashSafe, Same, View, JobDone, JobReported, Sound, Distinct, Elsewhere, Beside;
      for i := 0 to |jobs|
        invariant |ws| == i + 1 && ws[0] == start && ws[i] == Now()
        invariant Elsewhere(start, Now(), jobs, touched) && (!faults ==> touched == {})
        invariant ok && Settled(m, start, k) && old(history) <= history && (old(faults) ==> faults)
        invariant !faults ==> Chain(ws, vault, jobs, prune, reports, i)
      {
        hide Settled, Chain;
        ghost var b, t := Now(), touched;
        var linked, stale, pruned;
        ok, linked, stale, pruned := ProvisionHarness(m, jobs[i], vault, start, k);
        ElsewhereNext(start, b, Now(), jobs, i, t, touched);
        if !ok {
          return;
        }
        var report := Report(jobs[i].harness, linked, stale, pruned);
        if !faults {
          ChainNext(ws, Now(), vault, jobs, prune, reports, report, i);
        }
        reports, ws := reports + [report], ws + [Now()];
      }
      ghost var past, now := history, Now();
      ok := Save(m);
      KeptIsCrashSafe(start, now, touched);
      CrashPointsNext(start, past, history, k, now, touched);
    }
  }

  datatype Report = Report(harness: string, linked: seq<Action>, stale: seq<Path>, pruned: seq<Action>)

  ghost predicate Reported(a: World, v: Vault, job: Job, prune: bool, r: Report) {
    r.harness == job.harness && JobReported(a, v, job, prune, r.linked, r.stale, r.pruned)
  }

  /** The worlds of a run, one harness after another, each doing its own job and reporting it. */
  ghost predicate Chain(ws: seq<World>, v: Vault, jobs: seq<Job>, prune: bool, reports: seq<Report>, n: nat) {
    && n <= |jobs| && |ws| == n + 1 && |reports| == n
    && (forall i | 0 <= i < n :: JobDone(ws[i], ws[i + 1], v, jobs[i], prune))
    && (forall i | 0 <= i < n :: Beside(ws[i], ws[i + 1], jobs[i].harness, jobs[i].dir, {}))
    && (forall i | 0 <= i < n :: Reported(ws[i], v, jobs[i], prune, reports[i]))
  }

  lemma ChainNext(ws: seq<World>, w: World, v: Vault, jobs: seq<Job>, prune: bool, reports: seq<Report>, r: Report, n: nat)
    requires n < |jobs| && Chain(ws, v, jobs, prune, reports, n) && Reported(ws[n], v, jobs[n], prune, r)
    requires JobDone(ws[n], w, v, jobs[n], prune) && Beside(ws[n], w, jobs[n].harness, jobs[n].dir, {})
    ensures Chain(ws + [w], v, jobs, prune, reports + [r], n + 1)
  {
    hide JobDone, Beside, Reported;
  }

  /** With separate directories the harnesses do not meet: each one's job is done, and reported,
      from the start of the run to its end. */
  lemma {:induction false} ApartDone(ws: seq<World>, v: Vault, jobs: seq<Job>, prune: bool, reports: seq<Report>, n: nat)
    requires Apart(jobs) && Chain(ws, v, jobs, prune, reports, n)
    ensures RunDone(ws[0], ws[n], v, jobs, prune, reports, n)
  {
    if n > 0 {
      hide JobDone, Beside, Reported;
      assert Chain(ws[..n], v, jobs, prune, reports[..n - 1], n - 1);
      ApartDone(ws[..n], v, jobs, prune, reports[..n - 1], n - 1);
      RunNext(ws[0], ws[n - 1], ws[n], v, jobs, prune, reports[..n - 1], reports[n - 1], n - 1);
      assert reports == reports[..n - 1] + [reports[n - 1]];
    }
  }

  /** No two harnesses share a skills directory, and none comes twice. */
  ghost predicate Apart(jobs: seq<Job>) {
    forall i, j | 0 <= i < j < |jobs| :: jobs[i].harness != jobs[j].harness && jobs[i].dir != jobs[j].dir
  }

  /** The first n harnesses are done, the others are as they were. */
  ghost predicate RunDone(a: World, b: World, v: Vault, jobs: seq<Job>, prune: bool, reports: seq<Report>, n: nat)
    requires n <= |jobs|
  {
    && |reports| == n
    && (forall i | 0 <= i < n :: JobDone(a, b, v, jobs[i], prune) && Reported(a, v, jobs[i], prune, reports[i]))
    && (forall i, p: Path | n <= i < |jobs| && p.dir == jobs[i].dir :: At(b, jobs[i].harness, p) == At(a, jobs[i].harness, p))
  }

  lemma KeepsSelf(a: World, touched: set<Path>)
    requires Sound(a)
    ensures KeepsBut(a, a, touched)
  {
  }

  lemma CrashPointsNext(start: World, past: seq<World>, history: seq<World>, k: nat, now: World, touched: set<Path>)
    requires CrashPoints(start, past, k, touched) && CrashSafe(start, now, touched)
    requires history == past || history == past + [now]
    ensures CrashPoints(start, history, k, touched)
  {
    hide CrashSafe;
  }

  lemma BesideCells(a: World, b: World, h: string, dir: string, g: string, p: Path)
    requires Beside(a, b, h, dir, {}) && g != h && p.dir != dir
    ensures At(b, g, p) == At(a, g, p)
  {
    assert SameThere(a, b, p) && SameClaim(a, b, Key(g, p).harness, Key(g, p).path);
  }

  lemma RunNext(a: World, b: World, c: World, v: Vault, jobs: seq<Job>, prune: bool, reports: seq<Report>, r: Report, n: nat)
    requires n < |jobs| && Apart(jobs) && RunDone(a, b, v, jobs, prune, reports, n)
    requires Beside(b, c, jobs[n].harness, jobs[n].dir, {}) && JobDone(b, c, v, jobs[n], prune)
    requires Reported(b, v, jobs[n], prune, r)
    ensures RunDone(a, c, v, jobs, prune, reports + [r], n + 1)
  {
    hide Beside, Want, JobCell, LinkCell, PruneCell;
    forall i, p: Path | 0 <= i < |jobs| && i != n && p.dir == jobs[i].dir
      ensures At(c, jobs[i].harness, p) == At(b, jobs[i].harness, p)
    {
      BesideCells(b, c, jobs[n].harness, jobs[n].dir, jobs[i].harness, p);
    }
    JobsReport(a, b, v, jobs[n], prune, r);
    forall i | 0 <= i < n
      ensures JobDone(a, c, v, jobs[i], prune)
    {
      assert JobDone(a, b, v, jobs[i], prune);
    }
  }

  /** A report depends only on the harness's own cells. */
  lemma JobsReport(a: World, b: World, v: Vault, job: Job, prune: bool, r: Report)
    requires forall p: Path | p.dir == job.dir :: At(b, job.harness, p) == At(a, job.harness, p)
    requires Reported(b, v, job, prune, r)
    ensures Reported(a, v, job, prune, r)
  {
    hide Want, LinkCell, PruneCell;
    forall i | 0 <= i < |r.linked|
      ensures r.linked[i] == LinkAction(a, v, job, job.slugs[i])
    {
      assert At(b, job.harness, Path(job.dir, job.slugs[i])) == At(a, job.harness, Path(job.dir, job.slugs[i]));
    }
  }

  // ---- What a run achieves ------------------------------------------------

  /** A path taken by something that is not this harness's own link. */
  predicate HeldByOther(c: Cell) {
    c.entry.Some? && !c.Ours()
  }

  /** After a pruning run without I/O errors the harness owns a link exactly where an assigned,
      linkable skill was wanted and nobody else held the path; and it points into the vault. */
  lemma OwnsExactlyTheWanted(a: World, b: World, v: Vault, job: Job, p: Path)
    requires JobDone(a, b, v, job, true) && p.dir == job.dir
    ensures At(b, job.harness, p).Ours() <==>
      && p.name in job.slugs && (p.name, job.harness) !in v.unsupported && p.name in v.catalog
      && !HeldByOther(At(a, job.harness, p))
    ensures At(b, job.harness, p).Ours() ==>
      p.name in v.catalog && At(b, job.harness, p).entry == Some(Link(v.catalog[p.name]))
    ensures HeldByOther(At(a, job.harness, p)) ==> At(b, job.harness, p) == At(a, job.harness, p)
  {
    assert job.slugs[..|job.slugs|] == job.slugs;
    assert At(b, job.harness, p) == JobCell(At(a, job.harness, p), Wanted(v, job, p), true);
  }

  /** An immediate second run (pruning only if the first did) changes no path and no record, and
      reports every owned skill unchanged and everything else skipped. */
  lemma SecondRunIsQuiet(a: World, b: World, c: World, v: Vault, job: Job, first: bool, second: bool, r: Report)
    requires JobDone(a, b, v, job, first) && JobDone(b, c, v, job, second) && (second ==> first)
    requires Reported(b, v, job, second, r)
    ensures forall p: Path | p.dir == job.dir :: At(c, job.harness, p) == At(b, job.harness, p)
    ensures forall i | 0 <= i < |r.linked| ::
      r.linked[i] == if Linkable(v, job, job.slugs[i]) && At(b, job.harness, Path(job.dir, job.slugs[i])).Ours()
                     then Unchanged else Skipped
    ensures forall i | 0 <= i < |r.pruned| :: r.pruned[i] == Skipped
  {
    hide Linkable;
    var h := job.harness;
    forall p: Path | p.dir == job.dir
      ensures At(c, h, p) == At(b, h, p)
    {
      assert At(b, h, p) == JobCell(At(a, h, p), Wanted(v, job, p), first);
      assert At(c, h, p) == JobCell(At(b, h, p), Wanted(v, job, p), second);
    }
    forall i | 0 <= i < |r.linked|
      ensures r.linked[i] == if Linkable(v, job, job.slugs[i]) && At(b, h, Path(job.dir, job.slugs[i])).Ours()
                             then Unchanged else Skipped
    {
      var p := Path(job.dir, job.slugs[i]);
      assert r.linked[i] == LinkAction(b, v, job, job.slugs[i]);
      assert job.slugs[..|job.slugs|] == job.slugs;
      assert At(b, h, p) == JobCell(At(a, h, p), Wanted(v, job, p), first);
    }
    forall i | 0 <= i < |r.pruned|
      ensures r.pruned[i] == Skipped
    {
      var p := r.stale[i];
      assert At(b, h, p) == JobCell(At(a, h, p), Wanted(v, job, p), first);
    }
  }

  // ---- Runs, crashes and outside hands ------------------------------------

  /** A run that ended well or one cut short at any point, outside hands having touched some
      paths meanwhile; or outside edits of some paths between runs. */
  datatype Event = Finished(touched: set<Path>) | Interrupted(touched: set<Path>) | Outside(touched: set<Path>)

  ghost predicate Next(a: World, b: World, e: Event) {
    match e
    case Finished(touched) => KeepsBut(a, b, touched)
    case Interrupted(touched) => CrashSafe(a, b, touched)
    case Outside(touched) =>
      && b.claims == a.claims && Sound(b) && (forall q | q !in touched :: Same(a, b, q))
      && forall q | q in touched :: q !in b.made
  }

  ghost predicate Run(ws: seq<World>, es: seq<Event>) {
    |ws| == |es| + 1 && forall i | 0 <= i < |es| :: Next(ws[i], ws[i + 1], es[i])
  }

  /** Over any sequence of runs, crashes and outside edits, an entry that is no link of ours
      stays as it is until an outside hand touches it. */
  lemma {:induction false} StrangersStay(ws: seq<World>, es: seq<Event>, i: nat, j: nat, p: Path)
    requires Run(ws, es) && i <= j < |ws| && Stranger(ws[i], p)
    requires forall k | i <= k < j :: p !in es[k].touched
    ensures SameEntry(ws[i], ws[j], p) && Stranger(ws[j], p)
    decreases j
  {
    hide KeepsBut, CrashSafe, Stranger, Same, Sound;
    if i < j {
      StrangersStay(ws, es, i, j - 1, p);
      assert Next(ws[j - 1], ws[j], es[j - 1]);
      StrangerNext(ws[j - 1], ws[j], es[j - 1], p);
    }
  }

  lemma StrangerNext(a: World, b: World, e: Event, p: Path)
    requires Next(a, b, e) && Stranger(a, p) && p !in e.touched
    ensures SameEntry(a, b, p) && Stranger(b, p)
  {
    hide Stranger, Sound;
    if e.Outside? {
      assert Same(a, b, p);
      SameStanding(a, b, p);
    }
  }

  /** How many runs were cut short, and what outside hands touched. */
  function Interruptions(es: seq<Event>): nat {
    if es == [] then 0 else Interruptions(es[..|es| - 1]) + if es[|es| - 1].Interrupted? then 1 else 0
  }

  function Touched(es: seq<Event>): set<Path> {
    if es == [] then {} else Touched(es[..|es| - 1]) + es[|es| - 1].touched
  }

  lemma {:induction false} DriftFrom(ws: seq<World>, es: seq<Event>) returns (drifted: set<Path>)
    requires Run(ws, es)
    ensures |drifted| <= Interruptions(es)
    ensures forall q | OutOfStep(ws[|es|], q) :: OutOfStep(ws[0], q) || q in Touched(es) || q in drifted
  {
    hide OutOfStep, Stranger, Sound, Same;
    if es == [] {
      return {};
    }
    var n := |es| - 1;
    assert Run(ws[..n + 1], es[..n]) by {
      assert forall i | 0 <= i < n :: Next(ws[i], ws[i + 1], es[i]);
    }
    drifted := DriftFrom(ws[..n + 1], es[..n]);
    assert Next(ws[n], ws[n + 1], es[n]);
    match es[n]
    case Finished(_) =>
    case Interrupted(touched) =>
      var p :| AtMostAt(ws[n], ws[n + 1], p, touched);
      drifted := drifted + {p};
    case Outside(touched) =>
      forall q | q !in touched
        ensures OutOfStep(ws[n + 1], q) ==> OutOfStep(ws[n], q)
      {
        SameStanding(ws[n], ws[n + 1], q);
      }
  }

  /** Each interrupted run costs at most one path its record; finished runs cost none. */
  lemma DriftBound(ws: seq<World>, es: seq<Event>)
    requires Run(ws, es)
    ensures exists drifted: set<Path> ::
      |drifted| <= Interruptions(es) &&
      forall q | OutOfStep(ws[|es|], q) :: OutOfStep(ws[0], q) || q in Touched(es) || q in drifted
  {
    var drifted := DriftFrom(ws, es);
  }

  /** The paths of one harness's records in one directory that nothing wants, each once. */
  ghost predicate StaleOf(stale: seq<Path>, claims: Claims, h: string, dir: string, wanted: set<Path>) {
    && (forall i | 0 <= i < |stale| :: stale[i].dir == dir && stale[i] !in wanted && Key(h, stale[i]) in claims)
    && (forall i, j | 0 <= i < j < |stale| :: stale[i] != stale[j])
    && (forall p: Path | p.dir == dir && p !in wanted && Key(h, p) in claims :: p in stale)
  }

  lemma StaleRecords(links: seq<LinkRecord>, stale: seq<Path>, at: seq<nat>, h: string, dir: string, wanted: set<Path>)
    requires Unique(links) && |at| == |stale|
    requires forall j | 0 <= j < |stale| :: at[j] < |links| && links[at[j]].path == stale[j]
               && links[at[j]].harness == h && stale[j].dir == dir && stale[j] !in wanted
    requires forall j, l | 0 <= j < l < |stale| :: at[j] < at[l]
    requires forall n | 0 <= n < |links| && links[n].harness == h && links[n].path.dir == dir && links[n].path !in wanted ::
               links[n].path in stale
    ensures StaleOf(stale, View(links), h, dir, wanted)
  {
    hide View, Unique, KeyOf;
    StaleClaimed(links, stale, at, h);
    StaleDistinct(links, stale, at, h);
    StaleComplete(links, stale, h, dir, wanted);
  }

  lemma StaleClaimed(links: seq<LinkRecord>, stale: seq<Path>, at: seq<nat>, h: string)
    requires Unique(links) && |at| == |stale|
    requires forall j | 0 <= j < |stale| :: at[j] < |links| && links[at[j]].path == stale[j] && links[at[j]].harness == h
    ensures forall j | 0 <= j < |stale| :: Key(h, stale[j]) in View(links)
  {
    hide View, Unique;
    forall j | 0 <= j < |stale|
      ensures Key(h, stale[j]) in View(links)
    {
      ViewHolds(links, Key(h, stale[j]));
      assert KeyOf(links[at[j]]) == Key(h, stale[j]);
    }
  }

  lemma StaleDistinct(links: seq<LinkRecord>, stale: seq<Path>, at: seq<nat>, h: string)
    requires Unique(links) && |at| == |stale|
    requires forall j | 0 <= j < |stale| :: at[j] < |links| && links[at[j]].path == stale[j] && links[at[j]].harness == h
    requires forall j, l | 0 <= j < l < |stale| :: at[j] < at[l]
    ensures forall i, j | 0 <= i < j < |stale| :: stale[i] != stale[j]
  {
    forall i, j | 0 <= i < j < |stale|
      ensures stale[i] != stale[j]
    {
      assert at[i] < at[j] && KeyOf(links[at[i]]) != KeyOf(links[at[j]]);
    }
  }

  lemma StaleComplete(links: seq<LinkRecord>, stale: seq<Path>, h: string, dir: string, wanted: set<Path>)
    requires Unique(links)
    requires forall n | 0 <= n < |links| && links[n].harness == h && links[n].path.dir == dir && links[n].path !in wanted ::
               links[n].path in stale
    ensures forall p: Path | p.dir == dir && p !in wanted && Key(h, p) in View(links) :: p in stale
  {
    hide View;
    forall p: Path | p.dir == dir && p !in wanted && Key(h, p) in View(links)
      ensures p in stale
    {
      ViewHolds(links, Key(h, p));
      var n :| 0 <= n < |links| && KeyOf(links[n]) == Key(h, p);
      assert links[n].path == p;
    }
  }

  /** The first n stale records are pruned, all other paths of the harness are as they were. */
  ghost predicate PrunedCells(a: World, b: World, h: string, stale: seq<Path>, n: nat)
    requires n <= |stale|
  {
    forall p :: At(b, h, p) == if p in stale[..n] then PruneCell(At(a, h, p)).0 else At(a, h, p)
  }

  ghost predicate PruneActions(a: World, h: string, stale: seq<Path>, actions: seq<Action>, n: nat)
    requires n <= |stale|
  {
    |actions| == n && forall i | 0 <= i < n :: actions[i] == PruneCell(At(a, h, stale[i])).1
  }

  lemma PruneNext(a: World, b: World, c: World, h: string, stale: seq<Path>, actions: seq<Action>, action: Action, i: nat)
    requires i < |stale| && forall j, l | 0 <= j < l < |stale| :: stale[j] != stale[l]
    requires PrunedCells(a, b, h, stale, i) && PruneActions(a, h, stale, actions, i)
    requires forall q | q != stale[i] :: At(c, h, q) == At(b, h, q)
    requires (At(c, h, stale[i]), action) == PruneCell(At(b, h, stale[i]))
    ensures PrunedCells(a, c, h, stale, i + 1) && PruneActions(a, h, stale, actions + [action], i + 1)
  {
    assert stale[..i + 1] == stale[..i] + [stale[i]];
    assert stale[i] !in stale[..i];
  }

  /** What one harness's run makes of one path. */
  function JobCell(c: Cell, want: Option<string>, prune: bool): Cell {
    if want.Some? then LinkCell(c, want.value).0 else if prune && c.claim.Some? then PruneCell(c).0 else c
  }

  function Wanted(v: Vault, job: Job, p: Path): Option<string> {
    Want(v, job, p, |job.slugs|)
  }

  ghost predicate JobDone(a: World, b: World, v: Vault, job: Job, prune: bool) {
    forall p: Path | p.dir == job.dir ::
      At(b, job.harness, p) == JobCell(At(a, job.harness, p), Wanted(v, job, p), prune)
  }

  /** One action for each assigned skill, and one for each stale record. */
  ghost predicate JobReported(a: World, v: Vault, job: Job, prune: bool, linked: seq<Action>, stale: seq<Path>, pruned: seq<Action>) {
    && |linked| == |job.slugs| && |pruned| == |stale|
    && (forall i | 0 <= i < |linked| :: linked[i] == LinkAction(a, v, job, job.slugs[i]))
    && (forall i | 0 <= i < |stale| :: stale[i].dir == job.dir && Wanted(v, job, stale[i]).None?
          && At(a, job.harness, stale[i]).claim.Some? && pruned[i] == PruneCell(At(a, job.harness, stale[i])).1)
    && (if prune then forall p: Path | p.dir == job.dir && Wanted(v, job, p).None? && At(a, job.harness, p).claim.Some? :: p in stale
        else stale == [])
  }

  lemma NoPrune(a: World, b: World, v: Vault, job: Job, linked: seq<Action>)
    requires LinkedCells(a, b, v, job, |job.slugs|) && LinkActions(a, v, job, linked, |job.slugs|)
    ensures JobDone(a, b, v, job, false) && JobReported(a, v, job, false, linked, [], [])
  {
    hide Want, LinkCell;
  }

  lemma WithPrune(a: World, b: World, c: World, v: Vault, job: Job, wanted: set<Path>, linked: seq<Action>, stale: seq<Path>,
                  pruned: seq<Action>)
    requires LinkedCells(a, b, v, job, |job.slugs|) && LinkActions(a, v, job, linked, |job.slugs|)
    requires forall p :: p in wanted <==> Wanted(v, job, p).Some?
    requires StaleOf(stale, b.claims, job.harness, job.dir, wanted)
    requires PrunedCells(b, c, job.harness, stale, |stale|) && PruneActions(b, job.harness, stale, pruned, |stale|)
    ensures JobDone(a, c, v, job, true) && JobReported(a, v, job, true, linked, stale, pruned)
  {
    hide Want, LinkCell, PruneCell;
    var h := job.harness;
    assert stale[..|stale|] == stale;
    forall p: Path | p.dir == job.dir && Wanted(v, job, p).None?
      ensures At(b, h, p) == At(a, h, p)
      ensures p in stale <==> At(a, h, p).claim.Some?
    {
    }
    forall p: Path | p.dir == job.dir
      ensures At(c, h, p) == JobCell(At(a, h, p), Wanted(v, job, p), true)
    {
      if Wanted(v, job, p).Some? {
        assert p in wanted && p !in stale;
      }
    }
  }

  ghost predicate Distinct(slugs: seq<string>) {
    forall i, j | 0 <= i < j < |slugs| :: slugs[i] != slugs[j]
  }

  /** The target the first n assigned skills ask for at a path: assigned, not unsupported, and
      in the vault. */
  function Want(v: Vault, job: Job, p: Path, n: nat): Option<string>
    requires n <= |job.slugs|
  {
    if p.dir == job.dir && p.name in job.slugs[..n] && Linkable(v, job, p.name) then Some(v.catalog[p.name]) else None
  }

  lemma WantNext(v: Vault, job: Job, i: nat)
    requires i < |job.slugs|
    ensures forall p ::
      Want(v, job, p, i + 1) ==
      if p == Path(job.dir, job.slugs[i]) && Linkable(v, job, p.name) then Some(v.catalog[p.name]) else Want(v, job, p, i)
  {
    assert job.slugs[..i + 1] == job.slugs[..i] + [job.slugs[i]];
  }

  /** The first n assigned skills are linked, all else in the directory is as it was. */
  ghost predicate LinkedCells(a: World, b: World, v: Vault, job: Job, n: nat)
    requires n <= |job.slugs|
  {
    forall p: Path | p.dir == job.dir ::
      At(b, job.harness, p) ==
      (var t := Want(v, job, p, n);
       if t.Some? then LinkCell(At(a, job.harness, p), t.value).0 else At(a, job.harness, p))
  }

  function LinkAction(a: World, v: Vault, job: Job, slug: string): Action {
    if Linkable(v, job, slug) then LinkCell(At(a, job.harness, Path(job.dir, slug)), v.catalog[slug]).1 else Skipped
  }

  ghost predicate LinkActions(a: World, v: Vault, job: Job, actions: seq<Action>, n: nat)
    requires n <= |job.slugs|
  {
    |actions| == n && forall i | 0 <= i < n :: actions[i] == LinkAction(a, v, job, job.slugs[i])
  }

  lemma SkipNext(a: World, b: World, v: Vault, job: Job, actions: seq<Action>, i: nat)
    requires i < |job.slugs| && !Linkable(v, job, job.slugs[i])
    ensures LinkedCells(a, b, v, job, i) ==> LinkedCells(a, b, v, job, i + 1)
    ensures LinkActions(a, v, job, actions, i) ==> LinkActions(a, v, job, actions + [Skipped], i + 1)
  {
    WantNext(v, job, i);
  }

  lemma LinkNext(a: World, b: World, c: World, v: Vault, job: Job, actions: seq<Action>, action: Action, i: nat)
    requires i < |job.slugs| && Distinct(job.slugs) && Linkable(v, job, job.slugs[i])
    requires LinkedCells(a, b, v, job, i) && LinkActions(a, v, job, actions, i)
    requires var p := Path(job.dir, job.slugs[i]);
             && (forall q | q != p :: At(c, job.harness, q) == At(b, job.harness, q))
             && (At(c, job.harness, p), action) == LinkCell(At(b, job.harness, p), v.catalog[p.name])
    ensures LinkedCells(a, c, v, job, i + 1)
    ensures LinkActions(a, v, job, actions + [action], i + 1)
  {
    WantNext(v, job, i);
    var p := Path(job.dir, job.slugs[i]);
    assert p.name !in job.slugs[..i];
    assert Want(v, job, p, i).None?;
    assert At(b, job.harness, p) == At(a, job.harness, p);
  }
}
