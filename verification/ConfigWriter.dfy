/** The optimistic read, merge, verify, last look, rename loop, run against an outside
    writer that may act between any two steps. Model of fileWriter.Apply and applyOnce in
    internal/agent/harness/writer.go and of internal/agent/harness/backup.go. */
module ConfigWriter {
  import opened Names
  import opened Prelude
  import opened TomlRender

  type Bytes = string

  /** A file's content; None when there is no file. */
  type Content = Option<Bytes>

  /** What the procedure is given: the residual tree of a file's bytes, None when they do not
      parse, and any rewrite function at all. */
  datatype Format<!T> = Format(residual: Bytes -> Option<T>, rewrite: Bytes -> Option<Bytes>)
  {
    /** preservationCheck.verify: both sides parse to the same residual tree. */
    ghost predicate Verifies(before: Bytes, after: Bytes) {
      residual(before).Some? && residual(before) == residual(after)
    }

    /** The merge of these bytes may be written: they parse unless blank, and the rewrite keeps
        their residual tree. */
    ghost predicate Merges(before: Bytes, after: Bytes) {
      && (Blank(before) || residual(before).Some?)
      && rewrite(before) == Some(after) && Verifies(before, after)
    }
  }

  /** A missing file reads as empty. */
  function Read(content: Content): Bytes {
    if content.None? then "" else content.value
  }

  datatype Status = Unchanged | Changed | Retry | Failed

  /** What happens while a merge runs: the outside writer's acts, and the merge's own steps. A
      rename remembers the bytes it was computed from. */
  datatype Event =
    | Outside(content: Content)
    | Begin
    | ReadConfig(seen: Bytes)
    | TakeBackup(copy: Content)
    | LastLook(seen: Bytes)
    | Rename(basis: Bytes, written: Bytes)
    | ReadBack(landed: Bytes)
    | Restore(content: Content)
    | Exit(status: Status)

  /** Where an attempt is, and what it holds. Doubtful: what was read back does not verify. */
  datatype Phase =
    | Idle
    | Begun
    | HasRead(before: Bytes)
    | BackedUp(before: Bytes, backup: Content)
    | Looked(before: Bytes, backup: Content, after: Bytes)
    | Landed(before: Bytes, backup: Content)
    | Doubtful(before: Bytes, backup: Content)
    | Verified
    | RolledBack
    | Ended(status: Status)

  datatype State = State(content: Content, phase: Phase, attempts: nat)

  const MAX_MERGE_ATTEMPTS := 5

  /** When the attempt may end, and how. Any system call may fail, so Failed is open wherever
      one is still to come; a rename or a restore may fail after it has happened. */
  ghost predicate MayExit<T>(fmt: Format<T>, st: State, status: Status) {
    match status
    case Unchanged => st.phase.BackedUp? && fmt.Merges(st.phase.before, st.phase.before)
    case Retry =>
      && st.phase.BackedUp? && Read(st.content) != st.phase.before
      && fmt.rewrite(st.phase.before).Some? && fmt.rewrite(st.phase.before).value != st.phase.before
      && fmt.Merges(st.phase.before, fmt.rewrite(st.phase.before).value)
    case Changed => st.phase.Verified?
    case Failed =>
      st.phase.Begun? || st.phase.HasRead? || st.phase.BackedUp? || st.phase.Looked? || st.phase.Landed?
      || st.phase.Doubtful? || st.phase.RolledBack?
  }

  /** The control flow of applyOnce and of the loop around it, the outside writer free at any
      point; None when the event cannot happen now. */
  ghost function Step<T>(fmt: Format<T>, st: State, e: Event): Option<State> {
    match e
    case Outside(c) => Some(st.(content := c))
    case Begin =>
      if st.phase.Idle? || (st.phase == Ended(Retry) && st.attempts <= MAX_MERGE_ATTEMPTS)
      then Some(st.(phase := Begun, attempts := st.attempts + 1)) else None
    case ReadConfig(seen) =>
      if st.phase.Begun? && seen == Read(st.content) then Some(st.(phase := HasRead(seen))) else None
    case TakeBackup(copy) =>
      if st.phase.HasRead? && copy == st.content then Some(st.(phase := BackedUp(st.phase.before, copy))) else None
    case LastLook(seen) =>
      if && st.phase.BackedUp? && seen == Read(st.content) == st.phase.before
         && fmt.rewrite(seen).Some? && fmt.rewrite(seen).value != seen && fmt.Merges(seen, fmt.rewrite(seen).value)
      then Some(st.(phase := Looked(seen, st.phase.backup, fmt.rewrite(seen).value))) else None
    case Rename(basis, written) =>
      if st.phase.Looked? && basis == st.phase.before && written == st.phase.after
      then Some(st.(content := Some(written), phase := Landed(basis, st.phase.backup))) else None
    case ReadBack(landed) =>
      if st.phase.Landed? && st.content == Some(landed)
      then Some(st.(phase := if fmt.Verifies(st.phase.before, landed) then Verified
                             else Doubtful(st.phase.before, st.phase.backup)))
      else None
    case Restore(c) =>
      if st.phase.Doubtful? && c == st.phase.backup then Some(st.(content := c, phase := RolledBack)) else None
    case Exit(status) =>
      if MayExit(fmt, st, status) then Some(st.(phase := Ended(status))) else None
  }

  type Trace = seq<Event>

  /** The state after a trace that starts from the given file. */
  ghost function Exec<T>(fmt: Format<T>, start: Content, t: Trace): Option<State> {
    if t == [] then Some(State(start, Idle, 0))
    else
      var before := Exec(fmt, start, t[..|t| - 1]);
      if before.None? then None else Step(fmt, before.value, t[|t| - 1])
  }

  ghost predicate Runs<T>(fmt: Format<T>, start: Content, t: Trace) {
    Exec(fmt, start, t).Some?
  }

  lemma ExecNext<T>(fmt: Format<T>, start: Content, t: Trace, e: Event)
    ensures Exec(fmt, start, t + [e]) ==
            (var st := Exec(fmt, start, t); if st.None? then None else Step(fmt, st.value, e))
  {
    assert (t + [e])[..|t|] == t;
  }

  /** What an undisturbed merge makes of a file: refused, nothing to do, or rewritten. */
  ghost function Undisturbed<T>(fmt: Format<T>, content: Content): (Status, Content) {
    var before := Read(content);
    var after := fmt.rewrite(before);
    if after.None? || !fmt.Merges(before, after.value) then (Failed, content)
    else if after.value == before then (Unchanged, content)
    else (Changed, after)
  }

  // ---- The procedure ------------------------------------------------------

  class ConfigFile {
    var content: Content
    ghost const start: Content
    ghost var trace: Trace
    /** Whether a system call has failed. */
    ghost var faults: bool

    constructor (content: Content)
      ensures this.content == this.start == content && trace == [] && !faults
    {
      this.content, start, trace, faults := content, content, [], false;
    }

    /** Nobody else has acted since position i. */
    ghost predicate Alone(i: nat)
      reads this
    {
      forall k | i <= k < |trace| :: !trace[k].Outside?
    }

    /** The trace so far is a run, and stands here. */
    ghost predicate At<T>(fmt: Format<T>, phase: Phase, attempts: nat)
      reads this
    {
      Exec(fmt, start, trace) == Some(State(content, phase, attempts))
    }

    /** Anyone else may write, create or delete the file, any number of times. */
    method OutsideActs<T>(ghost fmt: Format<T>, ghost phase: Phase, ghost attempts: nat)
      requires At(fmt, phase, attempts)
      modifies this`content, this`trace
      ensures At(fmt, phase, attempts) && old(trace) <= trace
      ensures Alone(|old(trace)|) ==> content == old(content)
    {
      var n: nat := *;
      while n > 0
        invariant At(fmt, phase, attempts) && old(trace) <= trace
        invariant Alone(|old(trace)|) ==> content == old(content)
      {
        content := *;
        ExecNext(fmt, start, trace, Outside(content));
        trace := trace + [Outside(content)];
        assert trace[|trace| - 1].Outside?;
        n := n - 1;
      }
    }

    /** A step of the merge that leaves the file alone; then the outside writer again. */
    method Note<T>(ghost fmt: Format<T>, ghost e: Event, ghost phase: Phase, ghost next: Phase, ghost attempts: nat)
      requires At(fmt, phase, attempts)
      requires Step(fmt, State(content, phase, attempts), e) == Some(State(content, next, attempts))
      modifies this`content, this`trace
      ensures At(fmt, next, attempts) && old(trace) <= trace
      ensures Alone(|old(trace)|) ==> content == old(content)
    {
      ExecNext(fmt, start, trace, e);
      trace := trace + [e];
      OutsideActs(fmt, next, attempts);
    }

    /** A step that replaces the file; then the outside writer again. */
    method Replace<T>(ghost fmt: Format<T>, ghost e: Event, c: Content, ghost phase: Phase, ghost next: Phase,
                      ghost attempts: nat)
      requires At(fmt, phase, attempts)
      requires Step(fmt, State(content, phase, attempts), e) == Some(State(c, next, attempts))
      modifies this`content, this`trace
      ensures At(fmt, next, attempts) && old(trace) <= trace
      ensures Alone(|old(trace)|) ==> content == c
    {
      ExecNext(fmt, start, trace, e);
      content := c;
      trace := trace + [e];
      OutsideActs(fmt, next, attempts);
    }

    /** The attempt fails where it stands. */
    method Fail<T>(ghost fmt: Format<T>, ghost phase: Phase, ghost attempts: nat)
      requires At(fmt, phase, attempts) && MayExit(fmt, State(content, phase, attempts), Failed)
      modifies this`content, this`trace
      ensures At(fmt, Ended(Failed), attempts) && old(trace) <= trace
      ensures Alone(|old(trace)|) ==> content == old(content)
    {
      Note(fmt, Exit(Failed), phase, Ended(Failed), attempts);
    }

    /** One optimistic merge. Reads, the backup, the chmod, the rename and the restore may each
        fail; a rename or a restore may also be reported as failed after it has happened. */
    method ApplyOnce<T(==)>(fmt: Format<T>, ghost attempts: nat) returns (status: Status)
      requires At(fmt, if attempts == 0 then Idle else Ended(Retry), attempts) && attempts <= MAX_MERGE_ATTEMPTS
      modifies this`content, this`trace, this`faults
      ensures At(fmt, Ended(status), attempts + 1) && old(trace) <= trace && (old(faults) ==> faults)
      ensures !faults && Alone(|old(trace)|) ==> (status, content) == Undisturbed(fmt, old(content))
    {
      hide Exec;
      ghost var n := attempts + 1;
      ghost var p0 := if attempts == 0 then Idle else Ended(Retry);
      ExecNext(fmt, start, trace, Begin);
      trace := trace + [Begin];
      OutsideActs(fmt, Begun, n);
      var readFails: bool := *;
      if readFails {
        faults := true;
        Fail(fmt, Begun, n);
        return Failed;
      }
      var before := Read(content);
      Note(fmt, ReadConfig(before), Begun, HasRead(before), n);
      var backupFails: bool := *;
      if backupFails {
        faults := true;
        Fail(fmt, HasRead(before), n);
        return Failed;
      }
      var backup := content;
      Note(fmt, TakeBackup(backup), HasRead(before), BackedUp(before, backup), n);
      status := Merge(fmt, before, backup, n);
    }

    /** The middle of the attempt: check, rewrite, verify, and look once more. */
    method Merge<T(==)>(fmt: Format<T>, before: Bytes, backup: Content, ghost n: nat) returns (status: Status)
      requires At(fmt, BackedUp(before, backup), n)
      modifies this`content, this`trace, this`faults
      ensures At(fmt, Ended(status), n) && old(trace) <= trace && (old(faults) ==> faults)
      ensures !faults && before == Read(old(content)) && Alone(|old(trace)|) ==>
        (status, content) == Undisturbed(fmt, old(content))
    {
      hide Exec;
      if !Blank(before) && fmt.residual(before).None? {
        Fail(fmt, BackedUp(before, backup), n);
        return Failed;
      }
      var rewritten := fmt.rewrite(before);
      if rewritten.None? {
        Fail(fmt, BackedUp(before, backup), n);
        return Failed;
      }
      var after := rewritten.value;
      if fmt.residual(before).None? || fmt.residual(before) != fmt.residual(after) {
        Fail(fmt, BackedUp(before, backup), n);
        return Failed;
      }
      if before == after {
        var chmodFails: bool := *;
        faults := faults || chmodFails;
        status := if chmodFails then Failed else Unchanged;
        Note(fmt, Exit(status), BackedUp(before, backup), Ended(status), n);
        return;
      }
      var lookFails: bool := *;
      if lookFails {
        faults := true;
        Fail(fmt, BackedUp(before, backup), n);
        return Failed;
      }
      if Read(content) != before {
        Note(fmt, Exit(Retry), BackedUp(before, backup), Ended(Retry), n);
        return Retry;
      }
      Note(fmt, LastLook(before), BackedUp(before, backup), Looked(before, backup, after), n);
      status := Land(fmt, before, after, backup, n);
    }

    /** The second half of the attempt: rename, read back what landed, and put the backup back
        when it does not verify. */
    method Land<T(==)>(fmt: Format<T>, before: Bytes, after: Bytes, backup: Content, ghost n: nat) returns (status: Status)
      requires At(fmt, Looked(before, backup, after), n)
      modifies this`content, this`trace, this`faults
      ensures At(fmt, Ended(status), n) && old(trace) <= trace && (old(faults) ==> faults)
      ensures !faults && fmt.Verifies(before, after) && Alone(|old(trace)|) ==> status == Changed && content == Some(after)
    {
      hide Exec;
      var createFails: bool := *;
      if createFails {
        faults := true;
        Fail(fmt, Looked(before, backup, after), n);
        return Failed;
      }
      Replace(fmt, Rename(before, after), Some(after), Looked(before, backup, after), Landed(before, backup), n);
      var syncOrRereadFails: bool := *;
      faults := faults || syncOrRereadFails;
      if syncOrRereadFails || content.None? {
        Fail(fmt, Landed(before, backup), n);
        return Failed;
      }
      var landed := content.value;
      if fmt.residual(before).Some? && fmt.residual(landed) == fmt.residual(before) {
        Note(fmt, ReadBack(landed), Landed(before, backup), Verified, n);
        Note(fmt, Exit(Changed), Verified, Ended(Changed), n);
        return Changed;
      }
      Note(fmt, ReadBack(landed), Landed(before, backup), Doubtful(before, backup), n);
      RollBack(fmt, before, backup, n);
      status := Failed;
    }

    /** The backup goes back, or does not. */
    method RollBack<T>(ghost fmt: Format<T>, ghost before: Bytes, backup: Content, ghost n: nat)
      requires At(fmt, Doubtful(before, backup), n)
      modifies this`content, this`trace, this`faults
      ensures At(fmt, Ended(Failed), n) && old(trace) <= trace && (old(faults) ==> faults)
    {
      hide Exec;
      var restoreFails: bool := *;
      if restoreFails {
        faults := true;
        Fail(fmt, Doubtful(before, backup), n);
        return;
      }
      Replace(fmt, Restore(backup), backup, Doubtful(before, backup), RolledBack, n);
      Fail(fmt, RolledBack, n);
    }

    /** The whole merge: entries are checked first, and a lost race starts over, at most six
        attempts in all; losing the sixth is a failure. */
    method Apply<T(==)>(fmt: Format<T>, valid: bool) returns (status: Status, ghost last: Status, ghost attempts: nat)
      requires At(fmt, Idle, 0)
      modifies this`content, this`trace, this`faults
      ensures !faults && Alone(|old(trace)|) ==>
        (status, content) == if valid then Undisturbed(fmt, old(content)) else (Failed, old(content))
      ensures old(trace) <= trace && attempts <= MAX_MERGE_ATTEMPTS + 1
      ensures attempts == 0 ==> status == Failed && content == old(content) && trace == old(trace)
      ensures attempts > 0 ==> valid && At(fmt, Ended(last), attempts)
      ensures attempts > 0 ==> status == if last == Retry then Failed else last
      ensures last == Retry ==> attempts == MAX_MERGE_ATTEMPTS + 1
    {
      hide Exec;
      attempts, last := 0, Failed;
      var directoryFails: bool := *;
      faults := faults || (valid && directoryFails);
      if !valid || directoryFails {
        return Failed, Failed, 0;
      }
      var attempt := 0;
      while true
        invariant attempt == attempts <= MAX_MERGE_ATTEMPTS && old(trace) <= trace
        invariant At(fmt, if attempt == 0 then Idle else Ended(Retry), attempts)
        invariant attempt == 0 ==> content == old(content) && trace == old(trace)
        invariant attempt > 0 ==> faults || !Alone(|old(trace)|)
        decreases MAX_MERGE_ATTEMPTS - attempt
      {
        status := ApplyOnce(fmt, attempts);
        last, attempts := status, attempts + 1;
        if status != Retry {
          return;
        }
        if attempt >= MAX_MERGE_ATTEMPTS {
          return Failed, Retry, attempts;
        }
        attempt := attempt + 1;
      }
    }
  }

  // ---- What a run means ---------------------------------------------------

  predicate Changes(e: Event) {
    e.Outside? || e.Rename? || e.Restore?
  }

  predicate OwnWrite(e: Event) {
    e.Rename? || e.Restore?
  }

  /** The file after a trace. */
  function ContentAfter(start: Content, t: Trace): Content {
    if t == [] then start
    else
      match t[|t| - 1]
      case Outside(c) => c
      case Rename(_, written) => Some(written)
      case Restore(c) => c
      case _ => ContentAfter(start, t[..|t| - 1])
  }

  /** The merge writes, and the bytes it replaces are an outside edit it did not take into
      account: not those the rename was computed from, not those the restore puts back. */
  ghost predicate LosesEdit(t: Trace, i: nat, j: nat) {
    && j < i < |t| && t[j].Outside? && (forall k | j < k < i :: !Changes(t[k]))
    && match t[i]
       case Rename(basis, _) => Read(t[j].content) != basis
       case Restore(c) => t[j].content != c
       case _ => false
  }

  /** Position j lies after a last look, with neither a read-back nor an end since. */
  ghost predicate InWindow(t: Trace, j: nat) {
    exists l | 0 <= l < j <= |t| :: t[l].LastLook? && forall k | l < k < j :: !t[k].ReadBack? && !t[k].Exit?
  }

  /** The outside writer stays out between every last look and its read-back. */
  ghost predicate QuietWindow(t: Trace) {
    forall j | 0 <= j < |t| && t[j].Outside? :: !InWindow(t, j)
  }

  /** The run before its last event, and that event as a step. */
  lemma Back<T>(fmt: Format<T>, start: Content, t: Trace)
    requires t != [] && Runs(fmt, start, t)
    ensures Runs(fmt, start, t[..|t| - 1])
    ensures Step(fmt, Exec(fmt, start, t[..|t| - 1]).value, t[|t| - 1]) == Exec(fmt, start, t)
  {
  }

  lemma {:induction false} PrefixRuns<T>(fmt: Format<T>, start: Content, t: Trace, i: nat)
    requires Runs(fmt, start, t) && i <= |t|
    ensures Runs(fmt, start, t[..i])
    ensures i < |t| ==> Step(fmt, Exec(fmt, start, t[..i]).value, t[i]).Some?
    decreases |t| - i
  {
    if i == |t| {
      assert t[..i] == t;
    } else {
      PrefixRuns(fmt, start, t, i + 1);
      assert t[..i + 1][..i] == t[..i] && t[..i + 1][i] == t[i];
      Back(fmt, start, t[..i + 1]);
    }
  }

  lemma {:induction false} ContentIs<T>(fmt: Format<T>, start: Content, t: Trace)
    requires Runs(fmt, start, t)
    ensures Exec(fmt, start, t).value.content == ContentAfter(start, t)
  {
    if t != [] {
      ContentIs(fmt, start, t[..|t| - 1]);
    }
  }

  /** What a phase says about the events since the last look, the rename and the read-back. */
  ghost predicate Since<T>(fmt: Format<T>, start: Content, t: Trace, p: Phase) {
    match p
    case BackedUp(b, k) => exists a: nat :: BackupAt(t, a, k)
    case Looked(b, k, after) =>
      && (exists a: nat :: BackupAt(t, a, k)) && fmt.rewrite(b) == Some(after) && fmt.Merges(b, after)
      && exists l: nat :: LookAt(start, t, l, b)
    case Landed(b, k) => (exists a: nat :: BackupAt(t, a, k)) && exists l: nat, r: nat :: RenameAt(fmt, t, l, r, b)
    case Doubtful(b, k) =>
      && (exists a: nat :: BackupAt(t, a, k))
      && exists l: nat, r: nat, q: nat :: DoubtAt(fmt, start, t, l, r, q, b)
    case Verified => exists r: nat, q: nat :: CheckedAt(fmt, start, t, r, q)
    case Ended(Changed) => exists r: nat, q: nat :: CheckedAt(fmt, start, t, r, q)
    case _ => true
  }

  /** The attempt's backup was taken at a, nothing of the merge's own written since. */
  ghost predicate BackupAt(t: Trace, a: nat, k: Content) {
    && a < |t| && t[a] == TakeBackup(k) && forall i | a < i < |t| :: !t[i].Begin? && !t[i].TakeBackup? && !t[i].Restore?
  }

  /** Since the last look at l, which saw b, only the outside writer has acted. */
  ghost predicate LookAt(start: Content, t: Trace, l: nat, b: Bytes) {
    && l < |t| && t[l] == LastLook(b) && Read(ContentAfter(start, t[..l])) == b
    && forall i | l < i < |t| :: t[i].Outside?
  }

  /** After the last look at l came the rename at r; besides, only outside acts. */
  ghost predicate RenameAt<T>(fmt: Format<T>, t: Trace, l: nat, r: nat, b: Bytes) {
    && l < r < |t| && t[l].LastLook? && t[r].Rename? && t[r].basis == b && fmt.Verifies(b, t[r].written)
    && forall i | l < i < |t| && i != r :: t[i].Outside?
  }

  /** And then the read-back at q, of bytes that do not verify. */
  ghost predicate DoubtAt<T>(fmt: Format<T>, start: Content, t: Trace, l: nat, r: nat, q: nat, b: Bytes) {
    && l < r < q < |t| && t[l].LastLook? && t[r].Rename? && t[r].basis == b && fmt.Verifies(b, t[r].written)
    && t[q].ReadBack? && ContentAfter(start, t[..q]) == Some(t[q].landed) && !fmt.Verifies(b, t[q].landed)
    && forall i | l < i < |t| && i != r && i != q :: t[i].Outside?
  }

  /** After the rename at r the bytes read back at q keep the residual tree of its basis. */
  ghost predicate CheckedAt<T>(fmt: Format<T>, start: Content, t: Trace, r: nat, q: nat) {
    && r < q < |t| && t[r].Rename? && t[q].ReadBack? && fmt.Verifies(t[r].basis, t[q].landed)
    && ContentAfter(start, t[..q]) == Some(t[q].landed)
  }

  lemma {:induction false} PhaseSince<T>(fmt: Format<T>, start: Content, t: Trace)
    requires Runs(fmt, start, t)
    ensures Since(fmt, start, t, Exec(fmt, start, t).value.phase)
  {
    if t != [] {
      var front, e := t[..|t| - 1], t[|t| - 1];
      PhaseSince(fmt, start, front);
      SinceNext(fmt, start, front, e);
      assert front + [e] == t;
    }
  }

  lemma SinceNext<T>(fmt: Format<T>, start: Content, t: Trace, e: Event)
    requires Runs(fmt, start, t) && Runs(fmt, start, t + [e]) && Since(fmt, start, t, Exec(fmt, start, t).value.phase)
    ensures Since(fmt, start, t + [e], Exec(fmt, start, t + [e]).value.phase)
  {
    ExecNext(fmt, start, t, e);
    ContentIs(fmt, start, t);
    var st, t' := Exec(fmt, start, t).value, t + [e];
    var p := Exec(fmt, start, t').value.phase;
    hide Exec;
    BackupNext(t, e, if p.BackedUp? || p.Looked? || p.Landed? || p.Doubtful? then p.backup else None);
    match e
    case Outside(_) => {
      if p.Looked? { LookNext(start, t, e, p.before); }
      if p.Landed? { RenameNext(fmt, t, e, p.before); }
      if p.Doubtful? { DoubtNext(fmt, start, t, e, p.before); }
      CheckedNext(fmt, start, t, e);
    }
    case Exit(_) => CheckedNext(fmt, start, t, e);
    case LastLook(seen) => assert t'[..|t|] == t; assert LookAt(start, t', |t|, seen);
    case Rename(b, _) => {
      var l: nat :| LookAt(start, t, l, b);
      assert RenameAt(fmt, t', l, |t|, b);
    }
    case ReadBack(landed) => {
      var l: nat, r: nat :| RenameAt(fmt, t, l, r, st.phase.before);
      assert t'[..|t|] == t;
      if p.Doubtful? {
        assert DoubtAt(fmt, start, t', l, r, |t|, p.before);
      } else {
        assert CheckedAt(fmt, start, t', r, |t|);
      }
    }
    case _ =>
  }

  lemma BackupNext(t: Trace, e: Event, k: Content)
    ensures e == TakeBackup(k) ==> BackupAt(t + [e], |t|, k)
    ensures !e.Begin? && !e.TakeBackup? && !e.Restore? ==> forall a: nat | BackupAt(t, a, k) :: BackupAt(t + [e], a, k)
  {
  }

  lemma LookNext(start: Content, t: Trace, e: Event, b: Bytes)
    requires e.Outside?
    ensures forall l: nat | LookAt(start, t, l, b) :: LookAt(start, t + [e], l, b)
  {
    forall l: nat | LookAt(start, t, l, b)
      ensures LookAt(start, t + [e], l, b)
    {
      assert (t + [e])[..l] == t[..l];
    }
  }

  lemma RenameNext<T>(fmt: Format<T>, t: Trace, e: Event, b: Bytes)
    requires e.Outside?
    ensures forall l: nat, r: nat | RenameAt(fmt, t, l, r, b) :: RenameAt(fmt, t + [e], l, r, b)
  {
  }

  lemma DoubtNext<T>(fmt: Format<T>, start: Content, t: Trace, e: Event, b: Bytes)
    requires e.Outside?
    ensures forall l: nat, r: nat, q: nat | DoubtAt(fmt, start, t, l, r, q, b) :: DoubtAt(fmt, start, t + [e], l, r, q, b)
  {
    forall l: nat, r: nat, q: nat | DoubtAt(fmt, start, t, l, r, q, b)
      ensures DoubtAt(fmt, start, t + [e], l, r, q, b)
    {
      assert (t + [e])[..q] == t[..q];
    }
  }

  lemma CheckedNext<T>(fmt: Format<T>, start: Content, t: Trace, e: Event)
    ensures forall r: nat, q: nat | CheckedAt(fmt, start, t, r, q) :: CheckedAt(fmt, start, t + [e], r, q)
  {
    forall r: nat, q: nat | CheckedAt(fmt, start, t, r, q)
      ensures CheckedAt(fmt, start, t + [e], r, q)
    {
      assert (t + [e])[..q] == t[..q];
    }
  }

  // ---- Edits kept and lost ------------------------------------------------

  /** With no change from lo on, the file is what it was at lo. */
  lemma {:induction false} Still(start: Content, t: Trace, lo: nat, hi: nat)
    requires lo <= hi <= |t| && forall k | lo <= k < hi :: !Changes(t[k])
    ensures ContentAfter(start, t[..hi]) == ContentAfter(start, t[..lo])
    decreases hi
  {
    if lo < hi {
      assert t[..hi][..hi - 1] == t[..hi - 1];
      Still(start, t, lo, hi - 1);
    }
  }

  lemma AfterOutside(start: Content, t: Trace, j: nat, i: nat)
    requires j < i <= |t| && t[j].Outside? && forall k | j < k < i :: !Changes(t[k])
    ensures ContentAfter(start, t[..i]) == t[j].content
  {
    assert t[..j + 1][..j] == t[..j];
    Still(start, t, j + 1, i);
  }

  /** Either nothing changed from lo on, or some outside act was the last to change the file. */
  lemma {:induction false} LastOutside(start: Content, t: Trace, lo: nat, hi: nat) returns (j: nat)
    requires lo <= hi <= |t| && forall k | lo <= k < hi && Changes(t[k]) :: t[k].Outside?
    ensures j == hi ==> forall k | lo <= k < hi :: !Changes(t[k])
    ensures j != hi ==> lo <= j < hi && t[j].Outside? && forall k | j < k < hi :: !Changes(t[k])
    decreases hi
  {
    if lo == hi {
      return hi;
    }
    if t[hi - 1].Outside? {
      return hi - 1;
    }
    j := LastOutside(start, t, lo, hi - 1);
    if j == hi - 1 {
      j := hi;
    }
  }

  /** The state before an own write, and what it says. */
  lemma BeforeWrite<T>(fmt: Format<T>, start: Content, t: Trace, i: nat)
    requires Runs(fmt, start, t) && i < |t| && OwnWrite(t[i])
    ensures t[i].Rename? ==> fmt.rewrite(t[i].basis) == Some(t[i].written) && fmt.Merges(t[i].basis, t[i].written)
    ensures t[i].Rename? ==> exists l: nat :: LookAt(start, t[..i], l, t[i].basis)
    ensures t[i].Restore? ==> exists a: nat :: BackupAt(t[..i], a, t[i].content)
    ensures t[i].Restore? ==> exists l: nat, r: nat, q: nat, b: Bytes :: DoubtAt(fmt, start, t[..i], l, r, q, b)
  {
    hide Exec;
    PrefixRuns(fmt, start, t, i);
    PhaseSince(fmt, start, t[..i]);
  }

  lemma AfterRename(start: Content, t: Trace, r: nat, q: nat)
    requires r < q <= |t| && t[r].Rename?
    ensures (forall k | r < k < q :: !Changes(t[k])) ==> ContentAfter(start, t[..q]) == Some(t[r].written)
  {
    if forall k | r < k < q :: !Changes(t[k]) {
      assert t[..r + 1][..r] == t[..r];
      Still(start, t, r + 1, q);
    }
  }

  /** A restore follows an outside act between the last look and the read-back. */
  lemma RestoreNeedsOutside<T>(fmt: Format<T>, start: Content, t: Trace, i: nat) returns (j: nat, w: nat)
    requires Runs(fmt, start, t) && i < |t| && t[i].Restore?
    ensures w < i && t[w].Outside? && InWindow(t, w)
    ensures j < i && t[j].Outside? && forall k | j < k < i :: !Changes(t[k])
  {
    hide Exec, Runs;
    BeforeWrite(fmt, start, t, i);
    var u := t[..i];
    var l: nat, r: nat, q: nat, b: Bytes :| DoubtAt(fmt, start, u, l, r, q, b);
    w := LastOutside(start, u, r + 1, q);
    AfterRename(start, u, r, q);
    assert w != q;
    assert forall k | l < k < w :: t[k] == u[k];
    assert t[l] == u[l] && InWindow(t, w);
    j := LastOutside(start, u, r + 1, i);
    assert u[w].Outside?;
  }

  /** Exactly when an own write loses an outside edit. A rename does when the last outside act
      between the last look and it left other bytes than the rename was computed from; a
      restore does when it finds other bytes than the backup it puts back. */
  lemma LosesIff<T>(fmt: Format<T>, start: Content, t: Trace, i: nat)
    requires Runs(fmt, start, t) && i < |t| && OwnWrite(t[i])
    ensures t[i].Rename? ==>
      ((exists j: nat :: LosesEdit(t, i, j)) <==> exists j: nat :: InWindow(t, j) && LosesEdit(t, i, j))
    ensures t[i].Rename? ==>
      ((exists j: nat :: LosesEdit(t, i, j)) <==> Read(ContentAfter(start, t[..i])) != t[i].basis)
    ensures t[i].Restore? ==>
      ((exists j: nat :: LosesEdit(t, i, j)) <==> ContentAfter(start, t[..i]) != t[i].content)
  {
    hide Exec, Runs, InWindow;
    BeforeWrite(fmt, start, t, i);
    forall j: nat | LosesEdit(t, i, j)
      ensures ContentAfter(start, t[..i]) == t[j].content
    {
      AfterOutside(start, t, j, i);
    }
    if t[i].Restore? {
      var j, w := RestoreNeedsOutside(fmt, start, t, i);
      AfterOutside(start, t, j, i);
      assert ContentAfter(start, t[..i]) != t[i].content ==> LosesEdit(t, i, j);
    } else {
      var j := RenameAfterLook(fmt, start, t, i);
      assert Read(ContentAfter(start, t[..i])) != t[i].basis ==> InWindow(t, j) && LosesEdit(t, i, j);
    }
  }

  /** Either a rename replaces exactly the bytes it was computed from, or an outside act in the
      window was the last to change the file. */
  lemma RenameAfterLook<T>(fmt: Format<T>, start: Content, t: Trace, i: nat) returns (j: nat)
    requires Runs(fmt, start, t) && i < |t| && t[i].Rename?
    ensures Read(ContentAfter(start, t[..i])) == t[i].basis ||
            (j < i && t[j].Outside? && InWindow(t, j) && ContentAfter(start, t[..i]) == t[j].content
             && forall k | j < k < i :: !Changes(t[k]))
  {
    hide Exec, Runs;
    BeforeWrite(fmt, start, t, i);
    var u := t[..i];
    var l: nat :| LookAt(start, u, l, t[i].basis);
    j := LastOutside(start, u, l + 1, i);
    assert u[..i] == u;
    if j == i {
      Still(start, u, l, i);
    } else {
      AfterOutside(start, u, j, i);
      assert t[l] == u[l] && forall k | l < k < j :: t[k] == u[k];
      assert InWindow(t, j);
    }
  }

  /** For any rewrite function at all: when the outside writer stays out between the last look
      and the read-back, nothing is ever rolled back, no outside edit is lost, and each rename
      keeps the residual tree of the exact bytes it replaces. */
  lemma QuietApplyPreserves<T>(fmt: Format<T>, start: Content, t: Trace, i: nat, j: nat)
    requires Runs(fmt, start, t) && QuietWindow(t) && i < |t|
    ensures !t[i].Restore? && !LosesEdit(t, i, j)
    ensures t[i].Rename? ==> Read(ContentAfter(start, t[..i])) == t[i].basis
    ensures t[i].Rename? ==> fmt.Verifies(Read(ContentAfter(start, t[..i])), t[i].written)
  {
    hide Exec, Runs, InWindow;
    if t[i].Restore? {
      var j', w := RestoreNeedsOutside(fmt, start, t, i);
      assert false;
    }
    if t[i].Rename? {
      BeforeWrite(fmt, start, t, i);
      var j' := RenameAfterLook(fmt, start, t, i);
      if LosesEdit(t, i, j) {
        AfterOutside(start, t, j, i);
      }
    }
  }

  // ---- Runs that lose an edit ---------------------------------------------

  ghost function UpToLook(basis: Bytes): Trace {
    [Begin] + [ReadConfig(basis)] + [TakeBackup(Some(basis))] + [LastLook(basis)]
  }

  lemma LookReached<T>(fmt: Format<T>, basis: Bytes, written: Bytes)
    requires fmt.Merges(basis, written) && written != basis
    ensures Exec(fmt, Some(basis), UpToLook(basis)) == Some(State(Some(basis), Looked(basis, Some(basis), written), 1))
  {
    var start := Some(basis);
    ExecNext(fmt, start, [], Begin);
    assert [] + [Begin] == [Begin];
    ExecNext(fmt, start, [Begin], ReadConfig(basis));
    ExecNext(fmt, start, [Begin] + [ReadConfig(basis)], TakeBackup(start));
    ExecNext(fmt, start, [Begin] + [ReadConfig(basis)] + [TakeBackup(start)], LastLook(basis));
    hide Exec;
  }

  /** An edit between the last look and the rename is lost by a run that ends well. */
  lemma LoudWindowLoses<T>(fmt: Format<T>, basis: Bytes, written: Bytes, edit: Bytes)
    requires fmt.Merges(basis, written) && written != basis && edit != basis
    ensures var t := UpToLook(basis) + [Outside(Some(edit))] + [Rename(basis, written)] + [ReadBack(written)] + [Exit(Changed)];
      && Exec(fmt, Some(basis), t) == Some(State(Some(written), Ended(Changed), 1))
      && LosesEdit(t, |UpToLook(basis)| + 1, |UpToLook(basis)|)
  {
    var start, t := Some(basis), UpToLook(basis);
    LookReached(fmt, basis, written);
    ExecNext(fmt, start, t, Outside(Some(edit)));
    ExecNext(fmt, start, t + [Outside(Some(edit))], Rename(basis, written));
    ExecNext(fmt, start, t + [Outside(Some(edit))] + [Rename(basis, written)], ReadBack(written));
    ExecNext(fmt, start, t + [Outside(Some(edit))] + [Rename(basis, written)] + [ReadBack(written)], Exit(Changed));
    hide Exec;
  }

  /** And one between the rename and the read-back is wiped by the rollback, though nobody came
      between the last look and the rename. */
  lemma RollbackLoses<T>(fmt: Format<T>, basis: Bytes, written: Bytes, edit: Bytes)
    requires fmt.Merges(basis, written) && written != basis && !fmt.Verifies(basis, edit)
    ensures var t := UpToLook(basis) + [Rename(basis, written)] + [Outside(Some(edit))] + [ReadBack(edit)]
                     + [Restore(Some(basis))] + [Exit(Failed)];
      && Exec(fmt, Some(basis), t) == Some(State(Some(basis), Ended(Failed), 1))
      && LosesEdit(t, |UpToLook(basis)| + 3, |UpToLook(basis)| + 1)
  {
    var start, t := Some(basis), UpToLook(basis);
    LookReached(fmt, basis, written);
    ExecNext(fmt, start, t, Rename(basis, written));
    ExecNext(fmt, start, t + [Rename(basis, written)], Outside(Some(edit)));
    var t2 := t + [Rename(basis, written)] + [Outside(Some(edit))];
    ExecNext(fmt, start, t2, ReadBack(edit));
    ExecNext(fmt, start, t2 + [ReadBack(edit)], Restore(start));
    ExecNext(fmt, start, t2 + [ReadBack(edit)] + [Restore(start)], Exit(Failed));
    hide Exec;
  }

  // ---- How it ends --------------------------------------------------------

  ghost predicate NoWrite(t: Trace) {
    forall i | 0 <= i < |t| :: !OwnWrite(t[i])
  }

  ghost predicate OneRename(t: Trace, r: nat) {
    r < |t| && t[r].Rename? && forall i | 0 <= i < |t| && i != r :: !OwnWrite(t[i])
  }

  /** One rename, and later one restore of the backup its attempt took. */
  ghost predicate RolledBackAt(t: Trace, r: nat, s: nat) {
    && r < s < |t| && t[r].Rename? && t[s].Restore?
    && (exists a: nat :: BackupAt(t[..s], a, t[s].content) && a < r)
    && forall i | 0 <= i < |t| && i != r && i != s :: !OwnWrite(t[i])
  }

  datatype Own = Nothing | Renamed | Restored | Any

  /** What a phase says about the merge's own writes so far. */
  function OwnBy(p: Phase): Own {
    match p
    case Landed(_, _) => Renamed
    case Doubtful(_, _) => Renamed
    case Verified => Renamed
    case Ended(Changed) => Renamed
    case RolledBack => Restored
    case Ended(Failed) => Any
    case _ => Nothing
  }

  ghost predicate Wrote(t: Trace, own: Own) {
    match own
    case Nothing => NoWrite(t)
    case Renamed => exists r: nat :: OneRename(t, r)
    case Restored => exists r: nat, s: nat :: RolledBackAt(t, r, s)
    case Any => NoWrite(t) || (exists r: nat :: OneRename(t, r)) || exists r: nat, s: nat :: RolledBackAt(t, r, s)
  }

  /** What the whole of a run wrote, by how it stands: nothing of its own unless a rename
      happened, at most one rename, and at most one restore, which puts back exactly the backup
      taken in that attempt. */
  lemma {:induction false} OwnWrites<T>(fmt: Format<T>, start: Content, t: Trace)
    requires Runs(fmt, start, t)
    ensures Wrote(t, OwnBy(Exec(fmt, start, t).value.phase))
  {
    if t != [] {
      var front, e := t[..|t| - 1], t[|t| - 1];
      OwnWrites(fmt, start, front);
      assert front + [e] == t;
      OwnWritesNext(fmt, start, front, e);
    }
  }

  lemma OwnByNext<T>(fmt: Format<T>, st: State, e: Event)
    requires Step(fmt, st, e).Some?
    ensures var next := OwnBy(Step(fmt, st, e).value.phase);
            && (e.Rename? ==> OwnBy(st.phase) == Nothing && next == Renamed)
            && (e.Restore? ==> OwnBy(st.phase) == Renamed && next == Restored && st.phase.Doubtful?
                               && e.content == st.phase.backup)
            && (!OwnWrite(e) ==> next == OwnBy(st.phase) || next == Any)
  {
  }

  lemma OwnWritesNext<T>(fmt: Format<T>, start: Content, t: Trace, e: Event)
    requires Runs(fmt, start, t) && Runs(fmt, start, t + [e]) && Wrote(t, OwnBy(Exec(fmt, start, t).value.phase))
    ensures Wrote(t + [e], OwnBy(Exec(fmt, start, t + [e]).value.phase))
  {
    ExecNext(fmt, start, t, e);
    PhaseSince(fmt, start, t);
    var st := Exec(fmt, start, t).value;
    RenameOnce(t, e);
    OwnByNext(fmt, st, e);
    if !OwnWrite(e) {
      WritesStay(t, e);
    } else if e.Restore? {
      RestoreOnce(fmt, start, t, e.content, st.phase.before);
    }
    hide Exec, Step, OwnBy, NoWrite, OneRename, RolledBackAt, DoubtAt, BackupAt;
  }

  lemma RenameOnce(t: Trace, e: Event)
    ensures NoWrite(t) && e.Rename? ==> OneRename(t + [e], |t|)
  {
  }

  lemma RestoreOnce<T>(fmt: Format<T>, start: Content, t: Trace, c: Content, b: Bytes)
    requires exists r: nat :: OneRename(t, r)
    requires exists a: nat :: BackupAt(t, a, c)
    requires exists l: nat, r: nat, q: nat :: DoubtAt(fmt, start, t, l, r, q, b)
    ensures exists r: nat, s: nat :: RolledBackAt(t + [Restore(c)], r, s)
  {
    var t' := t + [Restore(c)];
    var r: nat :| OneRename(t, r);
    var l: nat, r': nat, q: nat :| DoubtAt(fmt, start, t, l, r', q, b);
    var a: nat :| BackupAt(t, a, c);
    assert t'[..|t|] == t;
    assert RolledBackAt(t', r, |t|);
  }

  lemma WritesStay(t: Trace, e: Event)
    requires !OwnWrite(e)
    ensures NoWrite(t) ==> NoWrite(t + [e])
    ensures forall r: nat | OneRename(t, r) :: OneRename(t + [e], r)
    ensures forall r: nat, s: nat | RolledBackAt(t, r, s) :: RolledBackAt(t + [e], r, s)
  {
    forall r: nat, s: nat | RolledBackAt(t, r, s)
      ensures RolledBackAt(t + [e], r, s)
    {
      assert (t + [e])[..s] == t[..s];
    }
  }

  /** How a finished merge leaves the file. Unchanged and a lost race: as the outside writer
      left it. Changed: after its one write, bytes on disk kept the basis's residual tree.
      Failed: as the outside writer left it; or the one rename, then outside acts; or the backup
      put back, then outside acts. */
  lemma Outcome<T>(fmt: Format<T>, start: Content, t: Trace, status: Status)
    requires Runs(fmt, start, t) && Exec(fmt, start, t).value.phase == Ended(status)
    ensures status == Unchanged || status == Retry ==> NoWrite(t)
    ensures status == Changed ==> exists r: nat, q: nat :: OneRename(t, r) && CheckedAt(fmt, start, t, r, q)
    ensures status == Failed ==>
      NoWrite(t) || (exists r: nat :: OneRename(t, r)) || exists r: nat, s: nat :: RolledBackAt(t, r, s)
  {
    OwnWrites(fmt, start, t);
    PhaseSince(fmt, start, t);
    hide Exec, Runs;
    if status == Changed {
      var r: nat :| OneRename(t, r);
      var r': nat, q: nat :| CheckedAt(fmt, start, t, r', q);
      assert r == r';
    }
  }

  // ---- managedNames -------------------------------------------------------

  /** The entry names this run owns, each once and sorted: those written and those retired. */
  method ManagedNames(entries: seq<Entry>, retire: seq<string>) returns (out: seq<string>)
    ensures forall n :: n in out <==> n in retire || exists e <- entries :: e.name == n
    ensures Unique(out) && Sorted(out)
  {
    out := [];
    for i := 0 to |entries|
      invariant forall n :: n in out <==> exists j | 0 <= j < i :: entries[j].name == n
      invariant Unique(out)
    {
      if entries[i].name !in out {
        out := out + [entries[i].name];
      }
    }
    ghost var fromEntries := out;
    for i := 0 to |retire|
      invariant forall n :: n in out <==> n in fromEntries || n in retire[..i]
      invariant Unique(out)
    {
      if retire[i] !in out {
        out := out + [retire[i]];
      }
    }
    SortKeeps(out);
    SortSorts(out);
    ghost var all := out;
    out := SortStrings(out);
    forall n
      ensures n in all <==> n in out
    {
      assert n in Elements(all) <==> n in Elements(out);
    }
  }
}
