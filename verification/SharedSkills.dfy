/** Harnesses that share a skills directory: what becomes of a path over a whole run, and when a
    second run has nothing left to do. Consequences of internal/agent/skills/link.go. */
module SharedSkills {
  import opened Prelude
  import opened SkillManifest
  import opened SkillLinks

  ghost predicate OnceEach(jobs: seq<Job>) {
    forall i, j | 0 <= i < j < |jobs| :: jobs[i].harness != jobs[j].harness
  }

  predicate Wants(v: Vault, job: Job, p: Path) {
    Wanted(v, job, p).Some?
  }

  /** Where the catalog keeps the skill of that name, whoever wants it. */
  function Home(v: Vault, p: Path): string {
    if p.name in v.catalog then v.catalog[p.name] else ""
  }

  lemma WantedHome(v: Vault, job: Job, p: Path)
    ensures Wanted(v, job, p) == if Wants(v, job, p) then Some(Home(v, p)) else None
    ensures Wants(v, job, p) ==> job.dir == p.dir
  {
  }

  function EntryOf(w: World, p: Path): Option<Entry> {
    if p in w.disk then Some(w.disk[p]) else None
  }

  // ---- One path over a run, from the start of the run ---------------------

  /** As things stand in w, the job links what is not there, confirms or repoints its own link,
      or prunes it. */
  predicate Touches(w: World, v: Vault, job: Job, p: Path, prune: bool) {
    var c := At(w, job.harness, p);
    && job.dir == p.dir
    && ((c.entry.None? && Wants(v, job, p)) || (c.Ours() && (Wants(v, job, p) || prune)))
  }

  /** The job prunes the vault's link at p when it finds it: it does not want it, and its harness
      claims it. */
  predicate Withdraws(claims: Claims, v: Vault, job: Job, p: Path, prune: bool) {
    var k := Key(job.harness, p);
    prune && job.dir == p.dir && !Wants(v, job, p) && k in claims && claims[k] == Home(v, p)
  }

  /** Among the jobs after i and before n, whoever withdraws the link is followed by one that
      wants it. */
  ghost predicate Outlasts(claims: Claims, v: Vault, jobs: seq<Job>, i: nat, n: nat, p: Path, prune: bool)
    requires n <= |jobs|
  {
    forall j | i < j < n && Withdraws(claims, v, jobs[j], p, prune) :: exists k | j < k < n :: Wants(v, jobs[k], p)
  }

  /** One of the first n jobs touches what the run found at p. */
  ghost predicate Moved(w: World, v: Vault, jobs: seq<Job>, p: Path, prune: bool, n: nat)
    requires n <= |jobs|
  {
    exists j | 0 <= j < n :: Touches(w, v, jobs[j], p, prune)
  }

  /** From the first touch on, some job wanted the path and its link has lasted. */
  ghost predicate Stands(w: World, v: Vault, jobs: seq<Job>, p: Path, prune: bool, n: nat)
    requires n <= |jobs|
  {
    exists k | 0 <= k < n ::
      Wants(v, jobs[k], p) && Moved(w, v, jobs, p, prune, k + 1) && Outlasts(w.claims, v, jobs, k, n, p, prune)
  }

  /** What is at p when the turn comes to job n, told from the start of the run alone: what was
      there until a job touches it; from then on the vault's link while it stands, or nothing. */
  ghost function EntryAt(w: World, v: Vault, jobs: seq<Job>, p: Path, prune: bool, n: nat): Option<Entry>
    requires n <= |jobs|
  {
    if !Moved(w, v, jobs, p, prune, n) then EntryOf(w, p)
    else if Stands(w, v, jobs, p, prune, n) then Some(Link(Home(v, p)))
    else None
  }

  /** Only its own job moves a harness's claims. */
  lemma {:induction false} ClaimUntouched(ws: seq<World>, v: Vault, jobs: seq<Job>, prune: bool, reports: seq<Report>, n: nat,
                                          lo: nat, k: nat, h: string, p: Path)
    requires Chain(ws, v, jobs, prune, reports, n) && lo <= k <= n && forall i | lo <= i < k :: jobs[i].harness != h
    ensures SameClaim(ws[lo], ws[k], h, p)
    decreases k
  {
    if k > lo {
      ClaimUntouched(ws, v, jobs, prune, reports, n, lo, k - 1, h, p);
      hide JobDone, Reported;
      assert Beside(ws[k - 1], ws[k], jobs[k - 1].harness, jobs[k - 1].dir, {});
      assert SameClaim(ws[k - 1], ws[k], Key(h, p).harness, Key(h, p).path);
    }
  }

  lemma OutlastsWanted(claims: Claims, v: Vault, jobs: seq<Job>, i: nat, n: nat, p: Path, prune: bool)
    requires i < n < |jobs| && Wants(v, jobs[n], p)
    ensures Outlasts(claims, v, jobs, i, n + 1, p, prune)
  {
    assert !Withdraws(claims, v, jobs[n], p, prune);
    hide Wants, Withdraws;
    forall j | i < j < n + 1 && Withdraws(claims, v, jobs[j], p, prune)
      ensures exists k | j < k < n + 1 :: Wants(v, jobs[k], p)
    {
      assert j < n;
    }
  }

  lemma OutlastsShrinks(claims: Claims, v: Vault, jobs: seq<Job>, i: nat, n: nat, p: Path, prune: bool)
    requires i < n < |jobs| && !Wants(v, jobs[n], p) && Outlasts(claims, v, jobs, i, n + 1, p, prune)
    ensures Outlasts(claims, v, jobs, i, n, p, prune) && !Withdraws(claims, v, jobs[n], p, prune)
  {
    hide Wants, Withdraws;
    forall j | i < j < n && Withdraws(claims, v, jobs[j], p, prune)
      ensures exists k | j < k < n :: Wants(v, jobs[k], p)
    {
      var k :| j < k < n + 1 && Wants(v, jobs[k], p);
      assert k < n;
    }
  }

  lemma OutlastsGrows(claims: Claims, v: Vault, jobs: seq<Job>, i: nat, n: nat, p: Path, prune: bool)
    requires i < n < |jobs| && Outlasts(claims, v, jobs, i, n, p, prune)
    requires !Withdraws(claims, v, jobs[n], p, prune)
    ensures Outlasts(claims, v, jobs, i, n + 1, p, prune)
  {
    hide Wants, Withdraws;
    forall j | i < j < n + 1 && Withdraws(claims, v, jobs[j], p, prune)
      ensures exists k | j < k < n + 1 :: Wants(v, jobs[k], p)
    {
      assert j < n;
      var k :| j < k < n && Wants(v, jobs[k], p);
    }
  }

  lemma OutlastsNext(claims: Claims, v: Vault, jobs: seq<Job>, i: nat, n: nat, p: Path, prune: bool)
    requires i < n < |jobs|
    ensures Outlasts(claims, v, jobs, i, n + 1, p, prune) <==>
            Wants(v, jobs[n], p) || (Outlasts(claims, v, jobs, i, n, p, prune)
                                     && !Withdraws(claims, v, jobs[n], p, prune))
  {
    hide Outlasts, Wants, Withdraws;
    if Wants(v, jobs[n], p) {
      OutlastsWanted(claims, v, jobs, i, n, p, prune);
    } else if Outlasts(claims, v, jobs, i, n + 1, p, prune) {
      OutlastsShrinks(claims, v, jobs, i, n, p, prune);
    } else if Outlasts(claims, v, jobs, i, n, p, prune) && !Withdraws(claims, v, jobs[n], p, prune) {
      OutlastsGrows(claims, v, jobs, i, n, p, prune);
    }
  }

  lemma MovedNext(w: World, v: Vault, jobs: seq<Job>, p: Path, prune: bool, n: nat)
    requires n < |jobs|
    ensures Moved(w, v, jobs, p, prune, n + 1) <==> Moved(w, v, jobs, p, prune, n) || Touches(w, v, jobs[n], p, prune)
  {
    hide Touches;
    if Touches(w, v, jobs[n], p, prune) {
      assert Moved(w, v, jobs, p, prune, n + 1);
    }
  }

  lemma {:induction false} MovedGrows(w: World, v: Vault, jobs: seq<Job>, p: Path, prune: bool, m: nat, n: nat)
    requires m <= n <= |jobs| && Moved(w, v, jobs, p, prune, m)
    ensures Moved(w, v, jobs, p, prune, n)
  {
    hide Touches;
  }

  lemma StandsNext(w: World, v: Vault, jobs: seq<Job>, p: Path, prune: bool, n: nat)
    requires n < |jobs|
    ensures Stands(w, v, jobs, p, prune, n + 1) <==>
            if Wants(v, jobs[n], p) then Moved(w, v, jobs, p, prune, n + 1)
            else Stands(w, v, jobs, p, prune, n) && !Withdraws(w.claims, v, jobs[n], p, prune)
  {
    hide Touches, Wants, Withdraws, Outlasts, Moved;
    if Wants(v, jobs[n], p) {
      OutlastsSelf(w.claims, v, jobs, n, p, prune);
      if Moved(w, v, jobs, p, prune, n + 1) {
        assert Stands(w, v, jobs, p, prune, n + 1);
      }
      if Stands(w, v, jobs, p, prune, n + 1) {
        var k :| 0 <= k < n + 1 && Wants(v, jobs[k], p) && Moved(w, v, jobs, p, prune, k + 1);
        MovedGrows(w, v, jobs, p, prune, k + 1, n + 1);
      }
    } else {
      forall k | 0 <= k < n
        ensures Outlasts(w.claims, v, jobs, k, n + 1, p, prune) <==>
                Outlasts(w.claims, v, jobs, k, n, p, prune) && !Withdraws(w.claims, v, jobs[n], p, prune)
      {
        OutlastsNext(w.claims, v, jobs, k, n, p, prune);
      }
      if Stands(w, v, jobs, p, prune, n) && !Withdraws(w.claims, v, jobs[n], p, prune) {
        var k :| 0 <= k < n && Wants(v, jobs[k], p) && Moved(w, v, jobs, p, prune, k + 1)
                 && Outlasts(w.claims, v, jobs, k, n, p, prune);
        assert Outlasts(w.claims, v, jobs, k, n + 1, p, prune);
      }
      if Stands(w, v, jobs, p, prune, n + 1) {
        var k :| 0 <= k < n + 1 && Wants(v, jobs[k], p) && Moved(w, v, jobs, p, prune, k + 1)
                 && Outlasts(w.claims, v, jobs, k, n + 1, p, prune);
        assert k < n;
        assert Outlasts(w.claims, v, jobs, k, n, p, prune);
        assert Stands(w, v, jobs, p, prune, n);
      }
    }
  }

  lemma OutlastsSelf(claims: Claims, v: Vault, jobs: seq<Job>, n: nat, p: Path, prune: bool)
    requires n < |jobs|
    ensures Outlasts(claims, v, jobs, n, n + 1, p, prune)
  {
  }

  /** What one job makes of the entry, whoever's it is. */
  lemma EntryStep(a: World, b: World, v: Vault, job: Job, prune: bool, p: Path)
    requires JobDone(a, b, v, job, prune) && Beside(a, b, job.harness, job.dir, {})
    ensures EntryOf(b, p) == if job.dir == p.dir then JobCell(At(a, job.harness, p), Wanted(v, job, p), prune).entry
                             else EntryOf(a, p)
  {
    hide Want;
    if job.dir == p.dir {
      assert At(b, job.harness, p) == JobCell(At(a, job.harness, p), Wanted(v, job, p), prune);
    } else {
      assert SameThere(a, b, p);
    }
  }

  /** The same step, told from the start of the run. */
  lemma EntryNext(w: World, v: Vault, jobs: seq<Job>, p: Path, prune: bool, n: nat)
    requires n < |jobs|
    ensures var c := Cell(EntryAt(w, v, jobs, p, prune, n), At(w, jobs[n].harness, p).claim);
            EntryAt(w, v, jobs, p, prune, n + 1) ==
            if jobs[n].dir == p.dir then JobCell(c, Wanted(v, jobs[n], p), prune).entry else c.entry
  {
    hide Moved, Stands, Outlasts, Want, Wanted, Home;
    MovedNext(w, v, jobs, p, prune, n);
    StandsNext(w, v, jobs, p, prune, n);
    WantedHome(v, jobs[n], p);
    if Stands(w, v, jobs, p, prune, n) {
      StandsMoved(w, v, jobs, p, prune, n);
    }
  }

  lemma StandsMoved(w: World, v: Vault, jobs: seq<Job>, p: Path, prune: bool, n: nat)
    requires n <= |jobs| && Stands(w, v, jobs, p, prune, n)
    ensures Moved(w, v, jobs, p, prune, n)
  {
    hide Touches, Outlasts, Wants;
  }

  /** At every turn of a run, whatever directories its harnesses share, every path is as the
      start of the run and the jobs say; and each harness meets its own first claim. */
  lemma {:induction false} EntryAtTurn(ws: seq<World>, v: Vault, jobs: seq<Job>, prune: bool, reports: seq<Report>, n: nat,
                                       k: nat, p: Path)
    requires OnceEach(jobs) && Chain(ws, v, jobs, prune, reports, n) && k <= n
    ensures EntryOf(ws[k], p) == EntryAt(ws[0], v, jobs, p, prune, k)
    ensures k < n ==> At(ws[k], jobs[k].harness, p) ==
                      Cell(EntryAt(ws[0], v, jobs, p, prune, k), At(ws[0], jobs[k].harness, p).claim)
  {
    hide JobDone, Beside, Reported, Want, EntryAt, Touches, JobCell;
    if k > 0 {
      EntryAtTurn(ws, v, jobs, prune, reports, n, k - 1, p);
      var a, b, job := ws[k - 1], ws[k], jobs[k - 1];
      assert JobDone(a, b, v, job, prune) && Beside(a, b, job.harness, job.dir, {});
      EntryStep(a, b, v, job, prune, p);
      EntryNext(ws[0], v, jobs, p, prune, k - 1);
    } else {
      NothingMoved(ws[0], v, jobs, p, prune);
    }
    if k < n {
      ClaimUntouched(ws, v, jobs, prune, reports, n, 0, k, jobs[k].harness, p);
    }
  }

  lemma NothingMoved(w: World, v: Vault, jobs: seq<Job>, p: Path, prune: bool)
    ensures EntryAt(w, v, jobs, p, prune, 0) == EntryOf(w, p)
  {
  }

  /** What job i meets at p: the entry as told from the start, and its harness's first claim. */
  ghost function Meets(w: World, v: Vault, jobs: seq<Job>, p: Path, prune: bool, i: nat): Cell
    requires i < |jobs|
  {
    Cell(EntryAt(w, v, jobs, p, prune, i), At(w, jobs[i].harness, p).claim)
  }

  /** What a harness is left with at the end of the run. */
  lemma AtTheEnd(ws: seq<World>, v: Vault, jobs: seq<Job>, prune: bool, reports: seq<Report>, i: nat, p: Path)
    requires OnceEach(jobs) && Chain(ws, v, jobs, prune, reports, |jobs|) && i < |jobs|
    ensures At(ws[i], jobs[i].harness, p) == Meets(ws[0], v, jobs, p, prune, i)
    ensures At(ws[|jobs|], jobs[i].harness, p).entry == EntryAt(ws[0], v, jobs, p, prune, |jobs|)
    ensures jobs[i].dir == p.dir ==>
      At(ws[|jobs|], jobs[i].harness, p).claim
      == JobCell(Meets(ws[0], v, jobs, p, prune, i), Wanted(v, jobs[i], p), prune).claim
  {
    var n, h := |jobs|, jobs[i].harness;
    EntryAtTurn(ws, v, jobs, prune, reports, n, i, p);
    EntryAtTurn(ws, v, jobs, prune, reports, n, n, p);
    ClaimUntouched(ws, v, jobs, prune, reports, n, i + 1, n, h, p);
    assert JobDone(ws[i], ws[i + 1], v, jobs[i], prune);
    hide Want, EntryAt, JobCell, Chain;
  }

  /** From a job that has its link there, the link stands as long as every withdrawal is followed
      by a job that wants it. */
  lemma StandsIff(w: World, v: Vault, jobs: seq<Job>, p: Path, prune: bool, i: nat, n: nat)
    requires i < n <= |jobs| && Wants(v, jobs[i], p) && Moved(w, v, jobs, p, prune, i + 1)
    ensures Stands(w, v, jobs, p, prune, n) <==> Outlasts(w.claims, v, jobs, i, n, p, prune)
  {
    hide Wants, Withdraws, Moved;
    if Stands(w, v, jobs, p, prune, n) {
      var k :| 0 <= k < n && Wants(v, jobs[k], p) && Moved(w, v, jobs, p, prune, k + 1)
               && Outlasts(w.claims, v, jobs, k, n, p, prune);
      forall j | i < j < n && Withdraws(w.claims, v, jobs[j], p, prune)
        ensures exists l | j < l < n :: Wants(v, jobs[l], p)
      {
        if j <= k {
          WantsNotWithdraws(w.claims, v, jobs[k], p, prune);
          assert j < k;
        }
      }
    }
  }

  lemma WantsNotWithdraws(claims: Claims, v: Vault, job: Job, p: Path, prune: bool)
    requires Wants(v, job, p)
    ensures !Withdraws(claims, v, job, p, prune)
  {
  }

  /** In a run over any harnesses, directories shared or not, told from the start of the run: a
      harness that wants a path and finds it free owns it at the end exactly when whoever prunes
      the link later is followed by a harness that wants it. One that finds it held owns it at the
      end exactly when it claims the vault's link already and that link stands. */
  lemma OwnsToTheEnd(ws: seq<World>, v: Vault, jobs: seq<Job>, prune: bool, reports: seq<Report>, i: nat, p: Path)
    requires OnceEach(jobs) && Chain(ws, v, jobs, prune, reports, |jobs|) && i < |jobs| && Wants(v, jobs[i], p)
    ensures At(ws[|jobs|], jobs[i].harness, p).Ours() <==>
            if !HeldByOther(Meets(ws[0], v, jobs, p, prune, i))
            then Outlasts(ws[0].claims, v, jobs, i, |jobs|, p, prune)
            else At(ws[0], jobs[i].harness, p).claim == Some(Home(v, p)) && Stands(ws[0], v, jobs, p, prune, |jobs|)
  {
    var w, n := ws[0], |jobs|;
    AtTheEnd(ws, v, jobs, prune, reports, i, p);
    WantedHome(v, jobs[i], p);
    MovedNext(w, v, jobs, p, prune, i);
    if Moved(w, v, jobs, p, prune, i + 1) {
      StandsIff(w, v, jobs, p, prune, i, n);
    }
    if Stands(w, v, jobs, p, prune, n) {
      StandsMoved(w, v, jobs, p, prune, n);
    }
    MovedLater(w, v, jobs, p, prune, i, n);
    hide Chain, Moved, Stands, Outlasts, Wanted, Home, Wants;
  }

  lemma MovedLater(w: World, v: Vault, jobs: seq<Job>, p: Path, prune: bool, i: nat, n: nat)
    requires i < n <= |jobs|
    ensures Moved(w, v, jobs, p, prune, i) ==> Moved(w, v, jobs, p, prune, i + 1)
    ensures Moved(w, v, jobs, p, prune, i + 1) ==> Moved(w, v, jobs, p, prune, n)
  {
    if Moved(w, v, jobs, p, prune, i) {
      MovedGrows(w, v, jobs, p, prune, i, i + 1);
    }
    if Moved(w, v, jobs, p, prune, i + 1) {
      MovedGrows(w, v, jobs, p, prune, i + 1, n);
    }
  }

  // ---- Runs that change nothing -------------------------------------------

  /** No job has anything to do: each path it is responsible for is as it would leave it. */
  ghost predicate Settled(w: World, v: Vault, jobs: seq<Job>, prune: bool) {
    forall i, p: Path | 0 <= i < |jobs| && p.dir == jobs[i].dir :: Content(w, v, jobs[i], p, prune)
  }

  predicate Content(w: World, v: Vault, job: Job, p: Path, prune: bool) {
    JobCell(At(w, job.harness, p), Wanted(v, job, p), prune) == At(w, job.harness, p)
  }

  lemma {:induction false} SettledStays(us: seq<World>, v: Vault, jobs: seq<Job>, prune: bool, reports: seq<Report>, n: nat,
                                        k: nat)
    requires Chain(us, v, jobs, prune, reports, n) && Settled(us[0], v, jobs, prune) && k <= n
    ensures us[k].disk == us[0].disk && us[k].claims == us[0].claims
  {
    if k > 0 {
      SettledStays(us, v, jobs, prune, reports, n, k - 1);
      var a, b, job := us[k - 1], us[k], jobs[k - 1];
      assert JobDone(a, b, v, job, prune) && Beside(a, b, job.harness, job.dir, {});
      forall p: Path
        ensures EntryOf(b, p) == EntryOf(a, p)
      {
        EntryStep(a, b, v, job, prune, p);
        assert p.dir == job.dir ==> Content(us[0], v, job, p, prune);
      }
      forall q: Key
        ensures At(b, q.harness, q.path).claim == At(a, q.harness, q.path).claim
      {
        if q.harness == job.harness && q.path.dir == job.dir {
          assert Content(us[0], v, job, q.path, prune);
        } else {
          assert SameClaim(a, b, q.harness, q.path);
        }
      }
      hide JobDone, Beside, Chain, Settled;
      SameEntriesSameDisk(a, b);
      SameClaimsSameMap(a, b);
    }
  }

  lemma SameEntriesSameDisk(a: World, b: World)
    requires forall p: Path :: EntryOf(b, p) == EntryOf(a, p)
    ensures a.disk == b.disk
  {
    forall p: Path
      ensures p in a.disk <==> p in b.disk
      ensures p in a.disk ==> a.disk[p] == b.disk[p]
    {
      assert EntryOf(b, p) == EntryOf(a, p);
    }
  }

  lemma SameClaimsSameMap(a: World, b: World)
    requires forall q: Key :: At(b, q.harness, q.path).claim == At(a, q.harness, q.path).claim
    ensures a.claims == b.claims
  {
    forall q: Key
      ensures q in a.claims <==> q in b.claims
      ensures q in a.claims ==> a.claims[q] == b.claims[q]
    {
      assert At(b, q.harness, q.path).claim == At(a, q.harness, q.path).claim;
    }
  }

  /** When no claim changes, an entry that is there stays: nothing is pruned or repointed. */
  lemma {:induction false} EntryStays(us: seq<World>, v: Vault, jobs: seq<Job>, prune: bool, reports: seq<Report>, lo: nat,
                                      k: nat, p: Path)
    requires OnceEach(jobs) && Chain(us, v, jobs, prune, reports, |jobs|) && us[|jobs|].claims == us[0].claims
    requires lo <= k <= |jobs| && EntryOf(us[lo], p).Some?
    ensures EntryOf(us[k], p) == EntryOf(us[lo], p)
    decreases k
  {
    if k > lo {
      EntryStays(us, v, jobs, prune, reports, lo, k - 1, p);
      EntryStaysNext(us, v, jobs, prune, reports, k - 1, p);
    }
  }

  lemma EntryStaysNext(us: seq<World>, v: Vault, jobs: seq<Job>, prune: bool, reports: seq<Report>, k: nat, p: Path)
    requires OnceEach(jobs) && Chain(us, v, jobs, prune, reports, |jobs|) && us[|jobs|].claims == us[0].claims
    requires k < |jobs| && EntryOf(us[k], p).Some?
    ensures EntryOf(us[k + 1], p) == EntryOf(us[k], p)
  {
    var a, b, job := us[k], us[k + 1], jobs[k];
    ClaimStays(us, v, jobs, prune, reports, k, p);
    assert JobDone(a, b, v, job, prune) && Beside(a, b, job.harness, job.dir, {});
    EntryStep(a, b, v, job, prune, p);
    hide Wanted, JobCell, JobDone, Beside, Chain, OnceEach;
    if job.dir == p.dir {
      ClaimTells(At(a, job.harness, p), Wanted(v, job, p), prune);
    }
  }

  lemma ClaimTells(c: Cell, want: Option<string>, prune: bool)
    requires c.entry.Some? && JobCell(c, want, prune).claim == c.claim
    ensures JobCell(c, want, prune).entry == c.entry
  {
  }

  lemma ClaimStays(us: seq<World>, v: Vault, jobs: seq<Job>, prune: bool, reports: seq<Report>, i: nat, p: Path)
    requires OnceEach(jobs) && Chain(us, v, jobs, prune, reports, |jobs|) && us[|jobs|].claims == us[0].claims
    requires i < |jobs|
    ensures At(us[i], jobs[i].harness, p).claim == At(us[0], jobs[i].harness, p).claim
    ensures p.dir == jobs[i].dir ==> JobCell(At(us[i], jobs[i].harness, p), Wanted(v, jobs[i], p), prune).claim
                                     == At(us[i], jobs[i].harness, p).claim
  {
    AtTheEnd(us, v, jobs, prune, reports, i, p);
    hide Chain, EntryAt, Wanted, JobCell;
  }

  /** A run, over any harnesses, leaves the disk and the manifest as they were exactly when no job
      had anything to do. */
  lemma ChangesNothingIff(us: seq<World>, v: Vault, jobs: seq<Job>, prune: bool, reports: seq<Report>)
    requires OnceEach(jobs) && Chain(us, v, jobs, prune, reports, |jobs|)
    ensures us[|jobs|].disk == us[0].disk && us[|jobs|].claims == us[0].claims <==> Settled(us[0], v, jobs, prune)
  {
    var n := |jobs|;
    if Settled(us[0], v, jobs, prune) {
      SettledStays(us, v, jobs, prune, reports, n, n);
    }
    if us[n].disk == us[0].disk && us[n].claims == us[0].claims {
      forall i, p: Path | 0 <= i < n && p.dir == jobs[i].dir
        ensures Content(us[0], v, jobs[i], p, prune)
      {
        NothingToDo(us, v, jobs, prune, reports, i, p);
      }
    }
  }

  lemma NothingToDo(us: seq<World>, v: Vault, jobs: seq<Job>, prune: bool, reports: seq<Report>, i: nat, p: Path)
    requires OnceEach(jobs) && Chain(us, v, jobs, prune, reports, |jobs|) && i < |jobs| && p.dir == jobs[i].dir
    requires us[|jobs|].claims == us[0].claims && us[|jobs|].disk == us[0].disk
    ensures Content(us[0], v, jobs[i], p, prune)
  {
    var n, h := |jobs|, jobs[i].harness;
    ClaimStays(us, v, jobs, prune, reports, i, p);
    if EntryOf(us[0], p).Some? {
      EntryStays(us, v, jobs, prune, reports, 0, i, p);
      EntryStays(us, v, jobs, prune, reports, 0, i + 1, p);
    } else {
      if EntryOf(us[i], p).Some? {
        EntryStays(us, v, jobs, prune, reports, i, n, p);
      }
      if EntryOf(us[i + 1], p).Some? {
        EntryStays(us, v, jobs, prune, reports, i + 1, n, p);
      }
    }
    assert JobDone(us[i], us[i + 1], v, jobs[i], prune) && Beside(us[i], us[i + 1], h, jobs[i].dir, {});
    EntryStep(us[i], us[i + 1], v, jobs[i], prune, p);
    hide Chain, JobDone, Beside, Wanted, JobCell;
  }

  /** A later job of the run has undone what job i left at p: the path it wants ends empty, or the
      record it kept, because another held the path, ends with nothing or its own link there. */
  ghost predicate Overtaken(w: World, v: Vault, jobs: seq<Job>, i: nat, p: Path, first: bool, second: bool)
    requires i < |jobs|
  {
    var end := EntryAt(w, v, jobs, p, first, |jobs|);
    var met := Meets(w, v, jobs, p, first, i);
    if Wants(v, jobs[i], p) then end.None?
    else second && met.claim.Some? && HeldByOther(met) && !HeldByOther(Cell(end, met.claim))
  }

  /** The exact condition for the second run to change nothing, told from the start of the first:
      no harness has been overtaken by a later one. */
  lemma SecondRunIff(ws: seq<World>, us: seq<World>, v: Vault, jobs: seq<Job>, first: bool, second: bool,
                     rs: seq<Report>, ss: seq<Report>)
    requires OnceEach(jobs) && Chain(ws, v, jobs, first, rs, |jobs|) && Chain(us, v, jobs, second, ss, |jobs|)
    requires us[0] == ws[|jobs|] && (second ==> first)
    ensures us[|jobs|].disk == us[0].disk && us[|jobs|].claims == us[0].claims <==>
            forall i, p: Path | 0 <= i < |jobs| && p.dir == jobs[i].dir :: !Overtaken(ws[0], v, jobs, i, p, first, second)
  {
    ChangesNothingIff(us, v, jobs, second, ss);
    forall i, p: Path | 0 <= i < |jobs| && p.dir == jobs[i].dir
      ensures Content(us[0], v, jobs[i], p, second) <==> !Overtaken(ws[0], v, jobs, i, p, first, second)
    {
      ContentIff(ws, v, jobs, first, second, rs, i, p);
    }
    hide Chain, Content, Overtaken;
  }

  lemma ContentIff(ws: seq<World>, v: Vault, jobs: seq<Job>, first: bool, second: bool, rs: seq<Report>, i: nat, p: Path)
    requires OnceEach(jobs) && Chain(ws, v, jobs, first, rs, |jobs|) && (second ==> first)
    requires i < |jobs| && p.dir == jobs[i].dir
    ensures Content(ws[|jobs|], v, jobs[i], p, second) <==> !Overtaken(ws[0], v, jobs, i, p, first, second)
  {
    AtTheEnd(ws, v, jobs, first, rs, i, p);
    WantedHome(v, jobs[i], p);
    EndEntry(ws[0], v, jobs, p, first, i);
    hide Chain, EntryAt, Wanted, Home;
  }

  /** What is there at the end is what job i met, or the vault's link, or nothing. */
  lemma EndEntry(w: World, v: Vault, jobs: seq<Job>, p: Path, prune: bool, i: nat)
    requires i < |jobs|
    ensures var end := EntryAt(w, v, jobs, p, prune, |jobs|);
            end == EntryAt(w, v, jobs, p, prune, i) || end in {None, Some(Link(Home(v, p)))}
  {
    MovedLater(w, v, jobs, p, prune, i, |jobs|);
  }

  /** With separate directories nobody overtakes anybody. */
  lemma {:induction false} AloneStays(w: World, v: Vault, jobs: seq<Job>, p: Path, prune: bool, i: nat, n: nat)
    requires i < n <= |jobs| && forall j | i < j < n :: jobs[j].dir != p.dir
    ensures EntryAt(w, v, jobs, p, prune, n) == EntryAt(w, v, jobs, p, prune, i + 1)
    decreases n
  {
    if i + 1 < n {
      AloneStays(w, v, jobs, p, prune, i, n - 1);
      EntryNext(w, v, jobs, p, prune, n - 1);
    }
  }

  lemma ApartNotOvertaken(w: World, v: Vault, jobs: seq<Job>, i: nat, p: Path, first: bool, second: bool)
    requires Apart(jobs) && i < |jobs| && p.dir == jobs[i].dir
    ensures !Overtaken(w, v, jobs, i, p, first, second)
  {
    AloneStays(w, v, jobs, p, first, i, |jobs|);
    EntryNext(w, v, jobs, p, first, i);
    hide EntryAt, Want;
  }

  /** Without pruning nobody takes anything away. */
  lemma PlainNotOvertaken(w: World, v: Vault, jobs: seq<Job>, i: nat, p: Path)
    requires i < |jobs| && p.dir == jobs[i].dir
    ensures !Overtaken(w, v, jobs, i, p, false, false)
  {
    var n := |jobs|;
    if Wants(v, jobs[i], p) {
      MovedNext(w, v, jobs, p, false, i);
      MovedLater(w, v, jobs, p, false, i, n);
      if Moved(w, v, jobs, p, false, i + 1) {
        StandsIff(w, v, jobs, p, false, i, n);
      }
      if Moved(w, v, jobs, p, false, n) && !Moved(w, v, jobs, p, false, i + 1) {
        LateTouch(w, v, jobs, p, i, n);
      }
      hide Moved, Stands, Want;
    }
  }

  /** What is first touched after its turn is there already, and whoever touches it wants it. */
  lemma LateTouch(w: World, v: Vault, jobs: seq<Job>, p: Path, i: nat, n: nat)
    requires i < n <= |jobs| && Moved(w, v, jobs, p, false, n)
    ensures Stands(w, v, jobs, p, false, n)
  {
    var j :| 0 <= j < n && Touches(w, v, jobs[j], p, false);
    assert Moved(w, v, jobs, p, false, j + 1);
    hide Wants, Moved, Touches;
    assert Outlasts(w.claims, v, jobs, j, n, p, false);
  }

  /** An immediate second run changes neither the disk nor the manifest: always when the first
      run did not prune, and with pruning when the harnesses have separate directories. */
  lemma SecondRunChangesNothing(ws: seq<World>, us: seq<World>, v: Vault, jobs: seq<Job>, first: bool, second: bool,
                                rs: seq<Report>, ss: seq<Report>)
    requires OnceEach(jobs) && Chain(ws, v, jobs, first, rs, |jobs|) && Chain(us, v, jobs, second, ss, |jobs|)
    requires us[0] == ws[|jobs|] && (second ==> first) && (first ==> Apart(jobs))
    ensures us[|jobs|].disk == us[0].disk && us[|jobs|].claims == us[0].claims
    ensures Settled(us[0], v, jobs, second)
  {
    forall i, p: Path | 0 <= i < |jobs| && p.dir == jobs[i].dir
      ensures !Overtaken(ws[0], v, jobs, i, p, first, second)
    {
      if first {
        ApartNotOvertaken(ws[0], v, jobs, i, p, first, second);
      } else {
        PlainNotOvertaken(ws[0], v, jobs, i, p);
      }
    }
    SecondRunIff(ws, us, v, jobs, first, second, rs, ss);
    ChangesNothingIff(us, v, jobs, second, ss);
    hide Chain, Overtaken, Settled, Apart;
  }

  /** A run in which no job has anything to do says so: every skill of which the harness owns the
      link is unchanged, everything else is skipped. */
  lemma SettledIsQuiet(us: seq<World>, v: Vault, jobs: seq<Job>, prune: bool, reports: seq<Report>, i: nat)
    requires Chain(us, v, jobs, prune, reports, |jobs|) && Settled(us[0], v, jobs, prune) && i < |jobs|
    ensures |reports[i].linked| == |jobs[i].slugs|
    ensures forall k | 0 <= k < |reports[i].linked| ::
      reports[i].linked[k] == if Linkable(v, jobs[i], jobs[i].slugs[k])
                                 && At(us[0], jobs[i].harness, Path(jobs[i].dir, jobs[i].slugs[k])).Ours()
                              then Unchanged else Skipped
    ensures forall k | 0 <= k < |reports[i].pruned| :: reports[i].pruned[k] == Skipped
  {
    var job, r := jobs[i], reports[i];
    SettledStays(us, v, jobs, prune, reports, |jobs|, i);
    assert Reported(us[i], v, job, prune, r);
    forall p: Path
      ensures At(us[i], job.harness, p) == At(us[0], job.harness, p)
    {
    }
    hide Chain, Linkable;
    forall k | 0 <= k < |r.linked|
      ensures r.linked[k] == if Linkable(v, job, job.slugs[k]) && At(us[0], job.harness, Path(job.dir, job.slugs[k])).Ours()
                             then Unchanged else Skipped
    {
      assert job.slugs[..|job.slugs|] == job.slugs;
      assert Content(us[0], v, job, Path(job.dir, job.slugs[k]), prune);
    }
    forall k | 0 <= k < |r.pruned|
      ensures r.pruned[k] == Skipped
    {
      assert Content(us[0], v, job, r.stale[k], prune);
    }
  }

  // ---- It does happen -----------------------------------------------------

  /** One harness of a run, with pruning: its job is done and nothing beside it touched. */
  ghost predicate Turn(a: World, b: World, v: Vault, job: Job) {
    JobDone(a, b, v, job, true) && Beside(a, b, job.harness, job.dir, {})
  }

  /** A harness's only claims in the directory are at p. */
  ghost predicate ClaimsOnly(w: World, job: Job, p: Path) {
    forall q: Path | q.dir == job.dir && q != p :: Key(job.harness, q) !in w.claims
  }

  lemma TurnLinks(w: World, v: Vault, job: Job, p: Path, target: string)
    requires job.dir == p.dir && job.slugs == [p.name] && Linkable(v, job, p.name) && v.catalog[p.name] == target
    requires p !in w.disk && ClaimsOnly(w, job, p) && Sound(w)
    ensures Turn(w, Put(w, job.harness, p, target), v, job)
  {
    PutOperation(w, job.harness, p, target);
    OperationBeside(w, Put(w, job.harness, p, target), job.harness, p, {});
    assert job.slugs[..1] == job.slugs;
  }

  lemma TurnKeeps(w: World, v: Vault, job: Job, p: Path, target: string)
    requires job.dir == p.dir && job.slugs == [p.name] && Linkable(v, job, p.name) && v.catalog[p.name] == target
    requires At(w, job.harness, p) == Cell(Some(Link(target)), Some(target)) && ClaimsOnly(w, job, p)
    ensures Turn(w, w, v, job)
  {
    BesideSelf(w, job.harness, job.dir, {});
    assert job.slugs[..1] == job.slugs;
  }

  lemma TurnWithdraws(w: World, v: Vault, job: Job, p: Path, target: string)
    requires job.dir == p.dir && job.slugs == []
    requires At(w, job.harness, p) == Cell(Some(Link(target)), Some(target)) && ClaimsOnly(w, job, p) && Sound(w)
    ensures Turn(w, Withdraw(w, job.harness, p), v, job)
  {
    WithdrawOperation(w, job.harness, p);
    OperationBeside(w, Withdraw(w, job.harness, p), job.harness, p, {});
  }

  /** From nothing: one harness links a skill, the link is removed by hand, and a second harness
      on the same directory links it. */
  ghost predicate BothClaim(v: Vault, w: World, one: string, two: string, p: Path) {
    exists w1: World, w2: World ::
      && Turn(World(map[], map[], map[]), w1, v, Job(one, p.dir, [p.name])) && Next(w1, w2, Outside({p}))
      && Turn(w2, w, v, Job(two, p.dir, [p.name]))
  }

  /** The world both come to claim the link in, and the one after the second withdraws it. */
  ghost function Shared(one: string, two: string, p: Path, target: string): World {
    World(map[p := Link(target)], map[p := Owner(two, target)], map[Key(one, p) := target, Key(two, p) := target])
  }

  lemma SharedReached(one: string, two: string, p: Path, target: string)
    requires one != two
    ensures BothClaim(Vault({}, map[p.name := target]), Shared(one, two, p, target), one, two, p)
  {
    hide Turn, Next;
    var v, w0 := Vault({}, map[p.name := target]), World(map[], map[], map[]);
    TurnLinks(w0, v, Job(one, p.dir, [p.name]), p, target);
    var w1 := Put(w0, one, p, target);
    var w2 := World(map[], map[], w1.claims);
    RemovedByHand(w1, w2, p);
    TurnLinks(w2, v, Job(two, p.dir, [p.name]), p, target);
    assert Put(w2, two, p, target) == Shared(one, two, p, target);
    hide Put;
    assert Turn(w0, w1, v, Job(one, p.dir, [p.name])) && Next(w1, w2, Outside({p}));
  }

  /** Then a run in which only the first still wants the skill ends without its link, and an
      immediate second run of the same jobs makes it again. */
  lemma SharedDirectoryUndoes(one: string, two: string, p: Path, target: string)
    requires one != two
    ensures exists v: Vault, w3: World, w5: World, w6: World ::
      var mine, gone := Job(one, p.dir, [p.name]), Job(two, p.dir, []);
      && BothClaim(v, w3, one, two, p)
      && Turn(w3, w3, v, mine) && Turn(w3, w5, v, gone) && Turn(w5, w6, v, mine) && Turn(w6, w6, v, gone)
      && Wants(v, mine, p) && At(w3, one, p).Ours() && !At(w5, one, p).Ours() && w6.disk != w5.disk
  {
    hide Turn, Next;
    var v, w3 := Vault({}, map[p.name := target]), Shared(one, two, p, target);
    var mine, gone := Job(one, p.dir, [p.name]), Job(two, p.dir, []);
    SharedReached(one, two, p, target);
    TurnKeeps(w3, v, mine, p, target);
    TurnWithdraws(w3, v, gone, p, target);
    var w5 := Withdraw(w3, two, p);
    TurnLinks(w5, v, mine, p, target);
    var w6 := Put(w5, one, p, target);
    TurnRests(w6, v, gone, p);
    assert mine.slugs[..1] == mine.slugs && Wants(v, mine, p);
    assert p !in w5.disk && p in w6.disk;
    hide Wants, BothClaim, Put, Withdraw, Shared;
    assert At(w3, one, p).Ours() && !At(w5, one, p).Ours();
    assert BothClaim(v, w3, one, two, p) && Turn(w3, w3, v, mine) && Turn(w3, w5, v, gone) && Turn(w5, w6, v, mine)
           && Turn(w6, w6, v, gone);
  }

  lemma TurnRests(w: World, v: Vault, job: Job, p: Path)
    requires job.dir == p.dir && job.slugs == [] && Key(job.harness, p) !in w.claims && ClaimsOnly(w, job, p)
    ensures Turn(w, w, v, job)
  {
    BesideSelf(w, job.harness, job.dir, {});
  }

  lemma RemovedByHand(a: World, b: World, p: Path)
    requires b == World(map[], map[], a.claims)
    requires a.disk.Keys <= {p} && a.made.Keys <= {p}
    ensures Next(a, b, Outside({p}))
  {
  }
}
