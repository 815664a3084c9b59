/** The restart ledger of one supervised unit: a history trimmed to fifty entries that has to
    answer like the whole history. Model of internal/agent/supervise/restart.go. */
module RestartLedger {
  import opened Prelude

  const SCHEMA_VERSION := 1
  const DEFAULT_WINDOW := 300_000_000_000
  const DEFAULT_THRESHOLD := 5
  const MAX_RETAINED := 50

  /** One record: when (in nanoseconds, by a clock that may jump) and what. */
  datatype Mark<T> = Mark(at: int, what: T)

  datatype StartInfo = StartInfo(pid: int, reason: string)
  datatype ExitInfo = ExitInfo(code: int, detail: string)

  datatype Ledger = Ledger(
    schema: int, unit: string, totalStarts: int, totalExits: int,
    starts: seq<Mark<StartInfo>>, exits: seq<Mark<ExitInfo>>)
  {
    /** LastStart */
    function LastStart(): Option<Mark<StartInfo>> {
      if starts == [] then None else Some(starts[|starts| - 1])
    }

    function LastExit(): Option<Mark<ExitInfo>> {
      if exits == [] then None else Some(exits[|exits| - 1])
    }

    predicate SelfReportedRunning() {
      LastStart().Some? && (LastExit().None? || LastStart().value.at > LastExit().value.at)
    }

    predicate CrashLooping(now: int, window: int, threshold: int) {
      CountAfter(starts, now - Window(window)) > Threshold(threshold)
    }

    /** The counting loop, and the decision on its result. */
    method CountCrashLooping(now: int, window: int, threshold: int) returns (r: bool)
      ensures r <==> CrashLooping(now, window, threshold)
    {
      var w := if window <= 0 then DEFAULT_WINDOW else window;
      var t := if threshold <= 0 then DEFAULT_THRESHOLD else threshold;
      var cutoff := now - w;
      var n := 0;
      for i := 0 to |starts|
        invariant n == CountAfter(starts[..i], cutoff)
      {
        assert starts[..i + 1][..i] == starts[..i];
        if starts[i].at > cutoff {
          n := n + 1;
        }
      }
      assert starts[..|starts|] == starts;
      r := n > t;
    }
  }

  function Window(window: int): int {
    if window <= 0 then DEFAULT_WINDOW else window
  }

  function Threshold(threshold: int): int {
    if threshold <= 0 then DEFAULT_THRESHOLD else threshold
  }

  /** How many marks lie strictly after the cutoff. */
  function CountAfter<T>(s: seq<Mark<T>>, cutoff: int): nat {
    if s == [] then 0
    else CountAfter(s[..|s| - 1], cutoff) + if s[|s| - 1].at > cutoff then 1 else 0
  }

  // ---- Stable sort by time ------------------------------------------------

  ghost predicate Sorted<T>(s: seq<Mark<T>>) {
    forall i, j | 0 <= i < j < |s| :: s[i].at <= s[j].at
  }

  /** Puts x after every mark that is not later. */
  function Insert<T>(s: seq<Mark<T>>, x: Mark<T>): seq<Mark<T>> {
    if s == [] || s[|s| - 1].at <= x.at then s + [x]
    else Insert(s[..|s| - 1], x) + [s[|s| - 1]]
  }

  function StableSort<T>(s: seq<Mark<T>>): seq<Mark<T>> {
    if s == [] then [] else Insert(StableSort(s[..|s| - 1]), s[|s| - 1])
  }

  /** The marks of one instant, in order. */
  function Instant<T>(s: seq<Mark<T>>, at: int): seq<Mark<T>> {
    if s == [] then []
    else Instant(s[..|s| - 1], at) + if s[|s| - 1].at == at then [s[|s| - 1]] else []
  }

  lemma {:induction false} InsertSorts<T>(s: seq<Mark<T>>, x: Mark<T>)
    requires Sorted(s)
    ensures Sorted(Insert(s, x)) && multiset(Insert(s, x)) == multiset(s) + multiset{x}
  {
    if s == [] || s[|s| - 1].at <= x.at {
    } else {
      var front, last := s[..|s| - 1], s[|s| - 1];
      InsertSorts(front, x);
      assert s == front + [last];
      var r := Insert(front, x);
      forall i | 0 <= i < |r|
        ensures r[i].at <= last.at
      {
        assert r[i] in multiset(r);
        assert r[i] in multiset(front) || r[i] == x;
        if r[i] in front {
          var j :| 0 <= j < |front| && front[j] == r[i];
          assert s[j].at <= s[|s| - 1].at;
        }
      }
    }
  }

  lemma {:induction false} InsertInstant<T>(s: seq<Mark<T>>, x: Mark<T>, at: int)
    requires Sorted(s)
    ensures Instant(Insert(s, x), at) == Instant(s, at) + if x.at == at then [x] else []
  {
    if s == [] || s[|s| - 1].at <= x.at {
      assert (s + [x])[..|s|] == s;
    } else {
      var front, last := s[..|s| - 1], s[|s| - 1];
      InsertInstant(front, x, at);
      var r := Insert(front, x);
      assert (r + [last])[..|r|] == r;
      if x.at == at {
        assert Instant(Insert(s, x), at) == Instant(s, at) + [x];
      }
    }
  }

  /** A stable sort: sorted, the same marks, and marks of one instant keep their order. */
  lemma {:induction false} SortIsStable<T>(s: seq<Mark<T>>, at: int)
    ensures Sorted(StableSort(s)) && multiset(StableSort(s)) == multiset(s)
    ensures Instant(StableSort(s), at) == Instant(s, at)
  {
    hide Insert;
    if s != [] {
      var front := s[..|s| - 1];
      SortIsStable(front, at);
      InsertSorts(StableSort(front), s[|s| - 1]);
      InsertInstant(StableSort(front), s[|s| - 1], at);
      assert s == front + [s[|s| - 1]];
    }
  }

  lemma {:induction false} SortSorted<T>(s: seq<Mark<T>>)
    requires Sorted(s)
    ensures StableSort(s) == s
  {
    if s != [] {
      SortSorted(s[..|s| - 1]);
      assert s == s[..|s| - 1] + [s[|s| - 1]];
    }
  }

  // ---- Recording ----------------------------------------------------------

  /** trimStarts and trimExits: the last fifty, in file order. */
  function Trim<T>(s: seq<T>): seq<T> {
    if |s| <= MAX_RETAINED then s else s[|s| - MAX_RETAINED..]
  }

  datatype Event = Started(s: Mark<StartInfo>) | Exited(x: Mark<ExitInfo>) | Cleared

  function Empty(unit: string): Ledger {
    Ledger(SCHEMA_VERSION, unit, 0, 0, [], [])
  }

  /** One mutation: append, trim, and only then sort. */
  function Record(l: Ledger, unit: string, e: Event): Ledger {
    match e
    case Cleared => Empty(unit)
    case Started(s) =>
      Ledger(SCHEMA_VERSION, unit, l.totalStarts + 1, l.totalExits, StableSort(Trim(l.starts + [s])), StableSort(l.exits))
    case Exited(x) =>
      Ledger(SCHEMA_VERSION, unit, l.totalStarts, l.totalExits + 1, StableSort(l.starts), StableSort(Trim(l.exits + [x])))
  }

  datatype File = Missing | Broken | Holds(ledger: Ledger)

  /** The tracker of one unit; file is what lies at its path. */
  class Tracker {
    const dir: string
    const unit: string
    var file: File
    /** Whether writing or removing the file has failed. */
    ghost var faults: bool

    constructor (dir: string, unit: string, file: File)
      ensures this.dir == dir && this.unit == unit && this.file == file && !faults
    {
      this.dir, this.unit, this.file, faults := dir, unit, file, false;
    }

    method Load() returns (r: Option<Ledger>)
      ensures r == match file
        case Missing => Some(Empty(unit))
        case Broken => None
        case Holds(l) => Some(if l.unit == "" then l.(unit := unit) else l)
    {
      match file
      case Missing => r := Some(Empty(unit));
      case Broken => r := None;
      case Holds(l) => r := Some(if l.unit == "" then l.(unit := unit) else l);
    }

    method Mutate(fn: Ledger -> Ledger) returns (r: Option<Ledger>)
      modifies this`file, this`faults
      ensures r.None? ==> file == old(file)
      ensures old(file).Broken? || dir == "" || unit == "" ==> r.None?
      ensures r.None? && !old(file).Broken? && dir != "" && unit != "" ==> faults
      ensures r.Some? ==> faults == old(faults)
      ensures r.Some? ==>
        var l := if old(file).Missing? then Empty(unit) else old(file).ledger;
        var m := fn(l.(schema := SCHEMA_VERSION, unit := unit));
        file == Holds(r.value) && r.value == m.(starts := StableSort(m.starts), exits := StableSort(m.exits))
    {
      if dir == "" || unit == "" {
        return None;
      }
      var loaded := Load();
      if loaded.None? {
        return None;
      }
      var l := fn(loaded.value.(schema := SCHEMA_VERSION, unit := unit));
      l := l.(starts := StableSort(l.starts));
      l := l.(exits := StableSort(l.exits));
      var fails: bool := *;
      if fails {
        faults := true;
        return None;
      }
      file := Holds(l);
      r := Some(l);
    }

    method RecordStart(now: int, pid: int, reason: string) returns (r: Option<Ledger>)
      modifies this`file, this`faults
      ensures r.None? ==> file == old(file)
      ensures old(file).Broken? || dir == "" || unit == "" ==> r.None?
      ensures r.None? && !old(file).Broken? && dir != "" && unit != "" ==> faults
      ensures r.Some? ==> faults == old(faults)
      ensures r.Some? && !old(file).Broken? ==>
        var l := if old(file).Missing? then Empty(unit) else old(file).ledger;
        r.value == Record(l, unit, Started(Mark(now, StartInfo(pid, reason)))) && file == Holds(r.value)
    {
      r := Mutate((l: Ledger) => l.(totalStarts := l.totalStarts + 1,
                                    starts := Trim(l.starts + [Mark(now, StartInfo(pid, reason))])));
    }

    method RecordExit(now: int, code: int, detail: string) returns (r: Option<Ledger>)
      modifies this`file, this`faults
      ensures r.None? ==> file == old(file)
      ensures old(file).Broken? || dir == "" || unit == "" ==> r.None?
      ensures r.None? && !old(file).Broken? && dir != "" && unit != "" ==> faults
      ensures r.Some? ==> faults == old(faults)
      ensures r.Some? && !old(file).Broken? ==>
        var l := if old(file).Missing? then Empty(unit) else old(file).ledger;
        r.value == Record(l, unit, Exited(Mark(now, ExitInfo(code, detail)))) && file == Holds(r.value)
    {
      r := Mutate((l: Ledger) => l.(totalExits := l.totalExits + 1,
                                    exits := Trim(l.exits + [Mark(now, ExitInfo(code, detail))])));
    }

    /** A missing file counts as removed. */
    method Reset() returns (ok: bool)
      modifies this`file, this`faults
      ensures file == (if ok then Missing else old(file)) && faults == if ok then old(faults) else true
    {
      var fails: bool := *;
      if fails {
        faults := true;
        return false;
      }
      file := Missing;
      ok := true;
    }
  }

  // ---- The ledger against the whole history -------------------------------

  /** The ledger after the recorded events. */
  function Kept(es: seq<Event>, unit: string): Ledger {
    if es == [] then Empty(unit)
    else Record(Kept(es[..|es| - 1], unit), unit, es[|es| - 1])
  }

  /** The same ledger had nothing ever been trimmed. */
  function Full(es: seq<Event>, unit: string): Ledger {
    if es == [] then Empty(unit)
    else
      var l := Full(es[..|es| - 1], unit);
      match es[|es| - 1]
      case Cleared => Empty(unit)
      case Started(s) => l.(totalStarts := l.totalStarts + 1, starts := Insert(l.starts, s))
      case Exited(x) => l.(totalExits := l.totalExits + 1, exits := Insert(l.exits, x))
  }

  /** How a kept list stands to the full one: the same while it fits, and afterwards fifty
      long with the newest forty-nine exact. */
  ghost predicate Stands<T>(kept: seq<Mark<T>>, full: seq<Mark<T>>) {
    && Sorted(kept) && Sorted(full)
    && (|full| <= MAX_RETAINED ==> kept == full)
    && (|full| > MAX_RETAINED ==>
          |kept| == MAX_RETAINED && kept[1..] == full[|full| - (MAX_RETAINED - 1)..])
  }

  /** A mark no earlier than position n - 1 leaves the first n alone. */
  lemma {:induction false} InsertLate<T>(s: seq<Mark<T>>, x: Mark<T>, n: nat)
    requires Sorted(s) && 0 < n <= |s| && x.at >= s[n - 1].at
    ensures Insert(s, x) == s[..n] + Insert(s[n..], x)
  {
    var tail := s[n..];
    if n == |s| {
      assert s[..n] == s && tail == [];
    } else if s[|s| - 1].at <= x.at {
      assert tail[|tail| - 1] == s[|s| - 1];
      assert s + [x] == s[..n] + (tail + [x]);
    } else {
      var front, last := s[..|s| - 1], s[|s| - 1];
      assert tail[..|tail| - 1] == front[n..] && tail[|tail| - 1] == last;
      assert front[..n] == s[..n];
      InsertLate(front, x, n);
    }
  }

  /** An earlier one leaves everything from n on alone. */
  lemma {:induction false} InsertEarly<T>(s: seq<Mark<T>>, x: Mark<T>, n: nat)
    requires Sorted(s) && 0 < n <= |s| && x.at < s[n - 1].at
    ensures Insert(s, x) == Insert(s[..n], x) + s[n..]
  {
    if n == |s| {
      assert s[..n] == s && s[n..] == [];
    } else {
      var front, last := s[..|s| - 1], s[|s| - 1];
      assert front[..n] == s[..n] && front[n - 1] == s[n - 1];
      InsertEarly(front, x, n);
      assert s[n..] == front[n..] + [last];
    }
  }

  lemma InsertSize<T>(s: seq<Mark<T>>, x: Mark<T>)
    ensures |Insert(s, x)| == |s| + 1
  {
  }

  /** Sorting a sorted list and one more mark is inserting it. */
  lemma SortInserts<T>(s: seq<Mark<T>>, x: Mark<T>)
    requires Sorted(s)
    ensures StableSort(s + [x]) == Insert(s, x)
  {
    hide Insert;
    assert (s + [x])[..|s|] == s;
    SortSorted(s);
  }

  /** The last |rest| marks of a list that takes one more. */
  lemma TailAfter<T>(full: seq<Mark<T>>, x: Mark<T>, n: nat)
    requires Sorted(full) && 0 < n <= |full|
    ensures |Insert(full[n..], x)| == |full| - n + 1 && |Insert(full, x)| == |full| + 1
    ensures Insert(full[n..], x)[1..] == Insert(full, x)[n + 1..]
  {
    hide Insert;
    var rest := full[n..];
    InsertSize(rest, x);
    InsertSize(full, x);
    if x.at < full[n - 1].at {
      InsertEarly(full, x, n);
      InsertSize(full[..n], x);
      Fronts(rest, x, full[n - 1].at);
    } else {
      InsertLate(full, x, n);
    }
  }

  /** One more mark, trimmed before it is sorted. */
  lemma StandsAfter<T>(kept: seq<Mark<T>>, full: seq<Mark<T>>, x: Mark<T>)
    requires Stands(kept, full)
    ensures Stands(StableSort(Trim(kept + [x])), Insert(full, x))
  {
    hide Insert, StableSort;
    InsertSorts(full, x);
    InsertSize(full, x);
    if |full| < MAX_RETAINED {
      SortInserts(kept, x);
    } else {
      var rest := kept[1..];
      var n := |full| - (MAX_RETAINED - 1);
      assert Trim(kept + [x]) == rest + [x];
      assert rest == full[n..];
      SortInserts(rest, x);
      InsertSorts(rest, x);
      TailAfter(full, x, n);
    }
  }

  /** A mark not later than any of a sorted list goes to its front when it is strictly earlier. */
  lemma {:induction false} Fronts<T>(s: seq<Mark<T>>, x: Mark<T>, bound: int)
    requires x.at < bound && forall i | 0 <= i < |s| :: bound <= s[i].at
    ensures Insert(s, x) == [x] + s
  {
    if s != [] {
      Fronts(s[..|s| - 1], x, bound);
      assert s == s[..|s| - 1] + [s[|s| - 1]];
    }
  }

  /** After every history, clocks jumping as they may: the newest forty-nine starts and exits
      of the ledger are exactly those of the untrimmed one, and both totals are exact. */
  lemma {:induction false} KeptStands(es: seq<Event>, unit: string)
    ensures Stands(Kept(es, unit).starts, Full(es, unit).starts)
    ensures Stands(Kept(es, unit).exits, Full(es, unit).exits)
    ensures Kept(es, unit).totalStarts == Full(es, unit).totalStarts == |Full(es, unit).starts|
    ensures Kept(es, unit).totalExits == Full(es, unit).totalExits == |Full(es, unit).exits|
  {
    if es != [] {
      var front := es[..|es| - 1];
      KeptStands(front, unit);
      var kept, full := Kept(front, unit), Full(front, unit);
      SortSorted(kept.starts);
      SortSorted(kept.exits);
      match es[|es| - 1]
      case Cleared =>
      case Started(s) => StandsAfter(kept.starts, full.starts, s); InsertSize(full.starts, s);
      case Exited(x) => StandsAfter(kept.exits, full.exits, x); InsertSize(full.exits, x);
    }
  }

  lemma {:induction false} CountSplit<T>(a: seq<Mark<T>>, b: seq<Mark<T>>, cutoff: int)
    ensures CountAfter(a + b, cutoff) == CountAfter(a, cutoff) + CountAfter(b, cutoff)
  {
    if b == [] {
      assert a + b == a;
    } else {
      assert (a + b)[..|a + b| - 1] == a + b[..|b| - 1];
      CountSplit(a, b[..|b| - 1], cutoff);
    }
  }

  lemma {:induction false} CountSorted<T>(s: seq<Mark<T>>, cutoff: int)
    requires Sorted(s) && s != []
    ensures s[0].at > cutoff ==> CountAfter(s, cutoff) == |s|
    ensures s[|s| - 1].at <= cutoff ==> CountAfter(s, cutoff) == 0
  {
    if |s| > 1 {
      CountSorted(s[..|s| - 1], cutoff);
    }
  }

  /** Two lists with a common end, all else no later than it: the counts agree, or both reach
      the whole of that end. */
  lemma CountsShare<T>(a: seq<Mark<T>>, b: seq<Mark<T>>, rest: seq<Mark<T>>, cutoff: int)
    requires a != [] && b != [] && rest != [] && Sorted(a) && Sorted(b) && Sorted(rest)
    requires a[|a| - 1].at <= rest[0].at && b[|b| - 1].at <= rest[0].at
    ensures CountAfter(a + rest, cutoff) == CountAfter(b + rest, cutoff)
            || (|rest| <= CountAfter(a + rest, cutoff) && |rest| <= CountAfter(b + rest, cutoff))
  {
    hide CountAfter;
    CountSplit(a, rest, cutoff);
    CountSplit(b, rest, cutoff);
    CountSorted(rest, cutoff);
    if rest[0].at <= cutoff {
      CountSorted(a, cutoff);
      CountSorted(b, cutoff);
    }
  }

  lemma SortedParts<T>(s: seq<Mark<T>>, n: nat)
    requires Sorted(s) && 0 < n < |s|
    ensures Sorted(s[..n]) && Sorted(s[n..]) && s == s[..n] + s[n..]
    ensures s[..n][|s[..n]| - 1].at <= s[n..][0].at
  {
  }

  /** Trimming loses a count only above forty-eight. */
  lemma CountsStand<T>(kept: seq<Mark<T>>, full: seq<Mark<T>>, cutoff: int)
    requires Stands(kept, full)
    ensures CountAfter(kept, cutoff) == CountAfter(full, cutoff)
            || (MAX_RETAINED - 1 <= CountAfter(kept, cutoff) && MAX_RETAINED - 1 <= CountAfter(full, cutoff))
  {
    hide CountAfter, Sorted;
    if |full| > MAX_RETAINED {
      var n := |full| - (MAX_RETAINED - 1);
      SortedParts(kept, 1);
      SortedParts(full, n);
      CountsShare(kept[..1], full[..n], full[n..], cutoff);
    }
  }

  /** The starts less than w before now. */
  function Within<T>(s: seq<Mark<T>>, now: int, w: int): set<nat> {
    set i: nat | 0 <= i < |s| && now - s[i].at < w
  }

  lemma {:induction false} CountIsSize<T>(s: seq<Mark<T>>, now: int, w: int)
    ensures CountAfter(s, now - w) == |Within(s, now, w)|
  {
    if s != [] {
      var n := |s| - 1;
      CountIsSize(s[..n], now, w);
      var before := Within(s[..n], now, w);
      if now - s[n].at < w {
        assert Within(s, now, w) == before + {n};
        assert n !in before;
      } else {
        assert Within(s, now, w) == before;
      }
    }
  }

  /** A unit loops when more starts than the threshold lie within the window: as given when they
      are positive, else five minutes and five starts. */
  lemma LoopsIff(l: Ledger, now: int, window: int, threshold: int)
    ensures l.CrashLooping(now, window, threshold) <==>
            |Within(l.starts, now, if window > 0 then window else 5 * 60 * 1_000_000_000)|
            > if threshold > 0 then threshold else 5
  {
    CountIsSize(l.starts, now, Window(window));
  }

  ghost predicate AlwaysAgrees(window: int, threshold: int) {
    forall es: seq<Event>, unit: string, now: int ::
      Kept(es, unit).CrashLooping(now, window, threshold) <==> Full(es, unit).CrashLooping(now, window, threshold)
  }

  /** The trimmed ledger answers the crash-loop question like the whole history, whatever was
      recorded and whatever the clock said, exactly when the threshold is at most forty-eight. */
  lemma AgreesIff(window: int, threshold: int)
    ensures AlwaysAgrees(window, threshold) <==> threshold <= MAX_RETAINED - 2
  {
    hide Kept, Full, CountAfter;
    if threshold <= MAX_RETAINED - 2 {
      forall es: seq<Event>, unit: string, now: int
        ensures Kept(es, unit).CrashLooping(now, window, threshold) <==>
                Full(es, unit).CrashLooping(now, window, threshold)
      {
        KeptStands(es, unit);
        CountsStand(Kept(es, unit).starts, Full(es, unit).starts, now - Window(window));
      }
    } else {
      var es := Burst(threshold + 1) + [Started(Mark(-Window(window), StartInfo(0, "")))];
      BurstLoops(threshold + 1, window);
      assert Kept(es, "").CrashLooping(0, window, threshold) != Full(es, "").CrashLooping(0, window, threshold);
    }
  }

  /** n starts at the same instant. */
  ghost function Burst(n: nat): seq<Event> {
    if n == 0 then [] else Burst(n - 1) + [Started(Mark(0, StartInfo(0, "")))]
  }

  ghost function Same(n: nat): seq<Mark<StartInfo>> {
    seq(n, _ => Mark(0, StartInfo(0, "")))
  }

  lemma {:induction false} BurstFull(n: nat)
    ensures Full(Burst(n), "").starts == Same(n)
  {
    if n > 0 {
      BurstFull(n - 1);
      assert Burst(n)[..|Burst(n)| - 1] == Burst(n - 1);
      assert Same(n - 1) + [Mark(0, StartInfo(0, ""))] == Same(n);
    }
  }

  lemma TrimSame(n: nat, x: Mark<StartInfo>)
    requires n <= MAX_RETAINED
    ensures Trim(Same(n) + [x]) == Same(if n < MAX_RETAINED then n else n - 1) + [x]
  {
  }

  /** One more of the same, trimmed and sorted. */
  lemma SameAgain(n: nat)
    requires n <= MAX_RETAINED
    ensures StableSort(Trim(Same(n) + [Mark(0, StartInfo(0, ""))])) == Same(if n < MAX_RETAINED then n + 1 else n)
  {
    hide StableSort, Trim;
    var k := if n < MAX_RETAINED then n else n - 1;
    TrimSame(n, Mark(0, StartInfo(0, "")));
    assert Same(k) + [Mark(0, StartInfo(0, ""))] == Same(k + 1);
    SortSorted(Same(k + 1));
  }

  lemma {:induction false} BurstKept(n: nat)
    ensures Kept(Burst(n), "").starts == Same(if n <= MAX_RETAINED then n else MAX_RETAINED)
  {
    hide StableSort, Trim, Sorted;
    if n > 0 {
      BurstKept(n - 1);
      assert Burst(n)[..|Burst(n)| - 1] == Burst(n - 1);
      SameAgain(if n <= MAX_RETAINED then n - 1 else MAX_RETAINED);
    }
  }

  /** A mark at the cutoff in front of n later ones. */
  lemma FrontCount(late: Mark<StartInfo>, n: nat)
    requires late.at < 0
    ensures Insert(Same(n), late) == [late] + Same(n)
    ensures CountAfter([late] + Same(n), late.at) == n
  {
    Fronts(Same(n), late, 0);
    CountSplit([late], Same(n), late.at);
    if n > 0 {
      CountSorted(Same(n), late.at);
    }
    CountSorted([late], late.at);
  }

  lemma BurstLoops(n: nat, window: int)
    requires n >= MAX_RETAINED
    ensures var es := Burst(n) + [Started(Mark(-Window(window), StartInfo(0, "")))];
            && CountAfter(Full(es, "").starts, -Window(window)) == n
            && CountAfter(Kept(es, "").starts, -Window(window)) == MAX_RETAINED - 1
  {
    hide Insert, StableSort, CountAfter, Trim;
    BurstKept(n);
    BurstFull(n);
    var late := Mark(-Window(window), StartInfo(0, ""));
    var es := Burst(n) + [Started(late)];
    assert es[..|es| - 1] == Burst(n);
    var rest := Same(MAX_RETAINED - 1);
    TrimSame(MAX_RETAINED, late);
    SortInserts(rest, late);
    FrontCount(late, MAX_RETAINED - 1);
    FrontCount(late, n);
  }

  /** What the ledger says about the last event, in full and not only its time, is what the
      whole history says. */
  lemma LastAgrees(es: seq<Event>, unit: string)
    ensures Kept(es, unit).LastStart() == Full(es, unit).LastStart()
    ensures Kept(es, unit).LastExit() == Full(es, unit).LastExit()
    ensures Kept(es, unit).SelfReportedRunning() <==> Full(es, unit).SelfReportedRunning()
  {
    KeptStands(es, unit);
    if Full(es, unit).starts != [] {
      LastStands(Kept(es, unit).starts, Full(es, unit).starts);
    }
    if Full(es, unit).exits != [] {
      LastStands(Kept(es, unit).exits, Full(es, unit).exits);
    }
  }

  lemma LastStands<T>(kept: seq<Mark<T>>, full: seq<Mark<T>>)
    requires Stands(kept, full) && full != []
    ensures kept != [] && kept[|kept| - 1] == full[|full| - 1]
  {
    if |full| > MAX_RETAINED {
      assert kept[1..][MAX_RETAINED - 2] == full[|full| - (MAX_RETAINED - 1)..][MAX_RETAINED - 2];
    }
  }
}
