/** The agent state directory and the versioned persist step, and the protocol they form
    with a server that keeps rotating. Model of internal/agent/state.go (Load, Save,
    SaveEnrolment) and of PersistEnrolment in internal/agent/enrol.go. */
module Enrolment {
  import opened Prelude

  // ---- state.json ---------------------------------------------------------

  datatype Value = Text(text: string) | Number(number: int) | Raw(json: string)

  datatype Part = VaultPath | Vault | Sync | Gno | Harnesses | Harness | Skills | SkillsHealth

  /** A key of state.json: one of the sixteen the state owns, or one it does not recognise. */
  datatype Key =
    | SchemaVersion | ServerUrl | MachineId | MachineName | Os | CredentialVersion | EnroledAt | RotatedAt
    | Owned(part: Part)
    | Foreign(name: string)

  /** A decoded JSON object: key to value. */
  type FileMap = map<Key, Value>

  /** The state's own fields; parts holds the keys later tasks own. */
  datatype State = State(
    schema: int, serverUrl: string, machineId: string, machineName: string, os: string,
    version: int, enroledAt: int, rotatedAt: Option<int>, parts: FileMap)

  const SCHEMA_VERSION := 1

  function TextAt(f: FileMap, k: Key): string {
    if k in f && f[k].Text? then f[k].text else ""
  }

  function NumberAt(f: FileMap, k: Key): int {
    if k in f && f[k].Number? then f[k].number else 0
  }

  /** What is left once the known keys are deleted. */
  function Unrecognised(f: FileMap): FileMap {
    map k | k in f && k.Foreign? :: f[k]
  }

  function Decode(f: FileMap): State {
    State(NumberAt(f, SchemaVersion), TextAt(f, ServerUrl), TextAt(f, MachineId), TextAt(f, MachineName),
          TextAt(f, Os), NumberAt(f, CredentialVersion), NumberAt(f, EnroledAt),
          if RotatedAt in f && f[RotatedAt].Number? then Some(f[RotatedAt].number) else None,
          map k | k in f && k.Owned? :: f[k])
  }

  function Encode(st: State): FileMap {
    st.parts + map[
      SchemaVersion := Number(st.schema), ServerUrl := Text(st.serverUrl), MachineId := Text(st.machineId),
      MachineName := Text(st.machineName), Os := Text(st.os), CredentialVersion := Number(st.version),
      EnroledAt := Number(st.enroledAt)] +
    if st.rotatedAt.Some? then map[RotatedAt := Number(st.rotatedAt.value)] else map[]
  }

  /** What a save writes: the unrecognised keys, overlaid with the state's own. */
  function Saved(st: State, unknown: FileMap): FileMap {
    unknown + Encode(if st.schema == 0 then st.(schema := SCHEMA_VERSION) else st)
  }

  ghost predicate PartsOk(st: State) {
    forall k | k in st.parts :: k.Owned?
  }

  /** Each own key holds its own field. */
  lemma SavedFields(st: State, unknown: FileMap)
    requires PartsOk(st) && st.schema != 0 && forall k | k in unknown :: k.Foreign?
    ensures var f := Saved(st, unknown);
            && NumberAt(f, SchemaVersion) == st.schema && TextAt(f, ServerUrl) == st.serverUrl
            && TextAt(f, MachineId) == st.machineId && TextAt(f, MachineName) == st.machineName
            && TextAt(f, Os) == st.os && NumberAt(f, CredentialVersion) == st.version
            && NumberAt(f, EnroledAt) == st.enroledAt
  {
    var f := Saved(st, unknown);
    OwnKey(st, unknown, SchemaVersion);
    OwnKey(st, unknown, ServerUrl);
    OwnKey(st, unknown, MachineId);
    OwnKey(st, unknown, MachineName);
    OwnKey(st, unknown, Os);
    OwnKey(st, unknown, CredentialVersion);
    OwnKey(st, unknown, EnroledAt);
    hide Saved;
  }

  /** The value under an own key other than the optional rotation time. */
  function OwnValue(st: State, k: Key): Value
    requires !k.Owned? && !k.Foreign? && !k.RotatedAt?
  {
    match k
    case SchemaVersion => Number(st.schema)
    case ServerUrl => Text(st.serverUrl)
    case MachineId => Text(st.machineId)
    case MachineName => Text(st.machineName)
    case Os => Text(st.os)
    case CredentialVersion => Number(st.version)
    case EnroledAt => Number(st.enroledAt)
  }

  lemma OwnKey(st: State, unknown: FileMap, k: Key)
    requires st.schema != 0 && !k.Owned? && !k.Foreign? && !k.RotatedAt?
    ensures k in Saved(st, unknown) && Saved(st, unknown)[k] == OwnValue(st, k)
  {
  }

  lemma SavedRotation(st: State, unknown: FileMap)
    requires PartsOk(st) && st.schema != 0 && forall k | k in unknown :: k.Foreign?
    ensures Decode(Saved(st, unknown)).rotatedAt == st.rotatedAt
  {
    hide TextAt, NumberAt;
  }

  /** Away from the own keys, a save holds the parts and the unrecognised keys. */
  lemma SavedElsewhere(st: State, unknown: FileMap, k: Key)
    requires PartsOk(st) && forall k | k in unknown :: k.Foreign?
    requires k.Owned? || k.Foreign?
    ensures k in Saved(st, unknown) <==> k in st.parts || k in unknown
    ensures k in st.parts ==> k in Saved(st, unknown) && Saved(st, unknown)[k] == st.parts[k]
    ensures k in unknown ==> k in Saved(st, unknown) && Saved(st, unknown)[k] == unknown[k]
  {
    hide TextAt, NumberAt;
  }

  lemma SavedRest(st: State, unknown: FileMap)
    requires PartsOk(st) && st.schema != 0 && forall k | k in unknown :: k.Foreign?
    ensures Decode(Saved(st, unknown)).parts == st.parts
    ensures Unrecognised(Saved(st, unknown)) == unknown
  {
    hide TextAt, NumberAt, Saved;
    forall k: Key | k.Owned? || k.Foreign?
      ensures k in Saved(st, unknown) <==> k in st.parts || k in unknown
      ensures k in st.parts ==> k in Saved(st, unknown) && Saved(st, unknown)[k] == st.parts[k]
      ensures k in unknown ==> k in Saved(st, unknown) && Saved(st, unknown)[k] == unknown[k]
    {
      SavedElsewhere(st, unknown, k);
    }
  }

  /** Saving and loading gives the state back, and keeps every unrecognised key. */
  lemma SaveLoad(st: State, unknown: FileMap)
    requires PartsOk(st) && st.schema != 0 && forall k | k in unknown :: k.Foreign?
    ensures Decode(Saved(st, unknown)) == st
    ensures Unrecognised(Saved(st, unknown)) == unknown
  {
    SavedFields(st, unknown);
    SavedRotation(st, unknown);
    SavedRest(st, unknown);
    hide Saved, TextAt, NumberAt;
  }

  // ---- The state directory ------------------------------------------------

  datatype Disk = Disk(state: Option<FileMap>, cred: Option<string>)

  datatype EnrolResult = EnrolResult(machineId: string, credential: string, version: int, rotated: bool)

  datatype EnrolIdentity = EnrolIdentity(serverUrl: string, machineName: string, os: string)

  /** The version stored for a machine; none counts as zero. */
  function StoredVersion(d: Disk, machine: string): int {
    if d.state.Some? && Decode(d.state.value).machineId == machine then Decode(d.state.value).version else 0
  }

  predicate Stale(d: Disk, res: EnrolResult) {
    d.state.Some? && Decode(d.state.value).machineId == res.machineId && Decode(d.state.value).version >= res.version
  }

  function Unknown(d: Disk): FileMap {
    if d.state.Some? then Unrecognised(d.state.value) else map[]
  }

  datatype Outcome = Persisted | Refused | HalfWritten

  /** The persist step: refused without a trace, or the credential first and the state after;
      a crash or a failed write in between leaves the credential alone written. */
  ghost predicate Persists(d: Disk, d': Disk, res: EnrolResult, outcome: Outcome) {
    match outcome
    case Refused => d' == d
    case HalfWritten => !Stale(d, res) && d' == d.(cred := Some(res.credential))
    case Persisted =>
      && !Stale(d, res) && d'.cred == Some(res.credential) && d'.state.Some?
      && Decode(d'.state.value).machineId == res.machineId && Decode(d'.state.value).version == res.version
  }

  class Store {
    var disk: Disk
    var unknown: FileMap
    var locked: bool
    /** Whether a write has been reported as failed. */
    ghost var faults: bool

    constructor (disk: Disk)
      ensures this.disk == disk && !locked && !faults
    {
      this.disk, unknown, locked, faults := disk, map[], false, false;
    }

    /** Remembers the keys it does not recognise. */
    method Load() returns (r: Option<State>)
      modifies this`unknown
      ensures r == if disk.state.Some? then Some(Decode(disk.state.value)) else None
      ensures unknown == if disk.state.Some? then Unknown(disk) else old(unknown)
    {
      if disk.state.None? {
        return None;
      }
      unknown := Unrecognised(disk.state.value);
      r := Some(Decode(disk.state.value));
    }

    /** The rename may have happened although the save fails. */
    method Save(st: State) returns (ok: bool)
      modifies this`disk, this`faults
      ensures faults == if ok then old(faults) else true
      ensures disk == old(disk) || disk == old(disk).(state := Some(Saved(st, unknown)))
      ensures ok ==> disk == old(disk).(state := Some(Saved(st, unknown)))
    {
      var createFails: bool := *;
      if createFails {
        faults := true;
        return false;
      }
      var full := if st.schema == 0 then st.(schema := SCHEMA_VERSION) else st;
      disk := disk.(state := Some(unknown + Encode(full)));
      var syncFails: bool := *;
      if syncFails {
        faults := true;
        return false;
      }
      ok := true;
    }

    /** The credential is written first; a failure after its rename leaves it there. */
    method SaveEnrolment(st: State, credential: string) returns (ok: bool)
      modifies this`disk, this`faults
      ensures credential == "" ==> !ok && disk == old(disk)
      ensures credential != "" ==> faults == if ok then old(faults) else true
      ensures ok ==> disk == Disk(Some(Saved(st, unknown)), Some(credential))
      ensures disk in {old(disk), old(disk).(cred := Some(credential)), Disk(Some(Saved(st, unknown)), Some(credential))}
    {
      if credential == "" {
        return false;
      }
      var createFails: bool := *;
      if createFails {
        faults := true;
        return false;
      }
      disk := disk.(cred := Some(credential));
      var syncFails: bool := *;
      if syncFails {
        faults := true;
        return false;
      }
      ok := Save(st);
    }

    /** PersistEnrolment, under the directory lock. A crash is a failure nobody reports; the
        outcome says what reached the disk, which may be everything although it is reported as
        failed. */
    method PersistEnrolment(res: EnrolResult, id: EnrolIdentity, now: int) returns (ok: bool, ghost outcome: Outcome)
      requires !locked && now != 0
      modifies this
      ensures !locked && Persists(old(disk), disk, res, outcome) && (ok ==> outcome == Persisted)
      ensures Stale(old(disk), res) || res.machineId == "" || res.credential == "" ==> outcome == Refused
      ensures !Stale(old(disk), res) && res.machineId != "" && res.credential != "" && !ok ==> faults
      ensures ok ==> faults == old(faults)
      ensures outcome == Persisted ==> Unknown(disk) == Unknown(old(disk))
      ensures outcome == Persisted ==>
        var st := Decode(disk.state.value);
        && st.schema == 1 && st.serverUrl == id.serverUrl && st.machineId == res.machineId
        && st.machineName == id.machineName && st.os == id.os && st.version == res.version
        && match old(disk).state
           case None => st.enroledAt == now && st.rotatedAt == (if res.rotated then Some(now) else None) && st.parts == map[]
           case Some(f) =>
             && st.enroledAt == (if Decode(f).enroledAt == 0 then now else Decode(f).enroledAt)
             && st.rotatedAt == (if res.rotated then Some(now) else Decode(f).rotatedAt)
             && st.parts == Decode(f).parts
    {
      if res.machineId == "" || res.credential == "" {
        return false, Refused;
      }
      locked := true;
      unknown := map[];
      var loaded := Load();
      var st := if loaded.Some? then loaded.value else State(0, "", "", "", "", 0, 0, None, map[]);
      if loaded.Some? && st.machineId == res.machineId && st.version >= res.version {
        locked := false;
        return false, Refused;
      }
      st := st.(schema := SCHEMA_VERSION, serverUrl := id.serverUrl, machineId := res.machineId,
                machineName := id.machineName, os := id.os, version := res.version);
      if st.enroledAt == 0 {
        st := st.(enroledAt := now);
      }
      if res.rotated {
        st := st.(rotatedAt := Some(now));
      }
      SaveLoad(st, unknown);
      ok := SaveEnrolment(st, res.credential);
      outcome := if ok then Persisted else if disk == old(disk) then Refused
                 else if disk.state == old(disk).state then HalfWritten else Persisted;
      locked := false;
    }
  }

  // ---- The protocol -------------------------------------------------------

  /** One machine: the credentials the server has minted so far, newest last, and the disk.
      credVersion is the version of the credential on disk, zero when there is none. */
  datatype World = World(minted: seq<string>, disk: Disk, credVersion: nat)

  /** The server's answer to the version-th rotation; it may arrive late, twice, or never. */
  function Response(w: World, machine: string, version: nat): EnrolResult
    requires 1 <= version <= |w.minted|
  {
    EnrolResult(machine, w.minted[version - 1], version, version > 1)
  }

  ghost predicate Start(w: World, machine: string) {
    w.minted == [] && w.credVersion == 0 && w.disk.cred.None? && StoredVersion(w.disk, machine) == 0
  }

  datatype Event = Rotate(credential: string) | Persist(version: nat, outcome: Outcome)

  ghost predicate Next(w: World, w': World, machine: string, e: Event) {
    match e
    case Rotate(credential) => w' == w.(minted := w.minted + [credential])
    case Persist(version, outcome) =>
      && 1 <= version <= |w.minted|
      && var res := Response(w, machine, version);
      && Persists(w.disk, w'.disk, res, outcome)
      && (Stale(w.disk, res) ==> outcome == Refused)
      && w'.minted == w.minted
      && w'.credVersion == if outcome == Refused then w.credVersion else version
  }

  ghost predicate Run(ws: seq<World>, es: seq<Event>, machine: string) {
    && |ws| == |es| + 1 && Start(ws[0], machine)
    && forall i | 0 <= i < |es| :: Next(ws[i], ws[i + 1], machine, es[i])
  }

  ghost predicate Inv(w: World, machine: string) {
    && 0 <= StoredVersion(w.disk, machine) <= w.credVersion <= |w.minted|
    && w.disk.cred == if w.credVersion == 0 then None else Some(w.minted[w.credVersion - 1])
  }

  lemma {:induction false} RunInv(ws: seq<World>, es: seq<Event>, machine: string, i: nat)
    requires Run(ws, es, machine) && i < |ws|
    ensures Inv(ws[i], machine)
  {
    if i > 0 {
      RunInv(ws, es, machine, i - 1);
      assert Next(ws[i - 1], ws[i], machine, es[i - 1]);
    }
  }

  /** The highest version any completed persist step stored among the first n events. */
  ghost function MaxPersisted(es: seq<Event>, n: nat): nat
    requires n <= |es|
  {
    if n == 0 then 0
    else
      var before := MaxPersisted(es, n - 1);
      match es[n - 1]
      case Persist(v, Persisted) => if v > before then v else before
      case _ => before
  }

  /** Under any interleaving of rotations and late, repeated or reordered responses, crashes
      included: the stored version is the highest ever persisted, and the credential file is
      never older than the state file. */
  lemma {:induction false} StoredIsMax(ws: seq<World>, es: seq<Event>, machine: string, i: nat)
    requires Run(ws, es, machine) && i < |ws|
    ensures StoredVersion(ws[i].disk, machine) == MaxPersisted(es, i)
    ensures ws[i].credVersion >= StoredVersion(ws[i].disk, machine)
  {
    RunInv(ws, es, machine, i);
    if i > 0 {
      StoredIsMax(ws, es, machine, i - 1);
      assert Next(ws[i - 1], ws[i], machine, es[i - 1]);
    }
  }

  /** Once the newest response is persisted, the stored credential is the one the server
      holds, and it stays so until the next rotation. */
  lemma {:induction false} NewestStays(ws: seq<World>, es: seq<Event>, machine: string, i: nat, j: nat)
    requires Run(ws, es, machine) && i < j < |ws|
    requires es[i] == Persist(|ws[i].minted|, Persisted)
    requires forall k | i < k < j :: !es[k].Rotate?
    ensures ws[j].minted == ws[i].minted != [] && ws[j].disk.cred == Some(ws[j].minted[|ws[j].minted| - 1])
    ensures StoredVersion(ws[j].disk, machine) == |ws[j].minted|
    decreases j
  {
    RunInv(ws, es, machine, j);
    assert Next(ws[j - 1], ws[j], machine, es[j - 1]);
    if i + 1 < j {
      NewestStays(ws, es, machine, i, j - 1);
    }
  }

  /** Without a crash between the two writes the two files agree, so the credential never
      goes back either. */
  lemma {:induction false} NoCrashAgree(ws: seq<World>, es: seq<Event>, machine: string, i: nat)
    requires Run(ws, es, machine) && i < |ws|
    requires forall k | 0 <= k < i && es[k].Persist? :: es[k].outcome != HalfWritten
    ensures ws[i].credVersion == StoredVersion(ws[i].disk, machine)
  {
    if i > 0 {
      NoCrashAgree(ws, es, machine, i - 1);
      assert Next(ws[i - 1], ws[i], machine, es[i - 1]);
    }
  }

  predicate Writes(e: Event) {
    e.Persist? && e.outcome != Refused
  }

  /** Event k is the last of the first i that wrote anything. */
  predicate LastWrite(es: seq<Event>, i: nat, k: nat)
    requires i <= |es|
  {
    k < i && Writes(es[k]) && forall j | k < j < i :: !Writes(es[j])
  }

  /** The credential on disk is the one the last write wrote; and if that write completed, its
      version is the stored one. */
  lemma {:induction false} CredentialIsLastWrite(ws: seq<World>, es: seq<Event>, machine: string, i: nat)
    requires Run(ws, es, machine) && i < |ws|
    ensures (forall j | 0 <= j < i :: !Writes(es[j])) ==> ws[i].credVersion == 0
    ensures forall k: nat | LastWrite(es, i, k) ::
      && ws[i].credVersion == es[k].version
      && (es[k].outcome == Persisted ==> StoredVersion(ws[i].disk, machine) == es[k].version)
  {
    if i > 0 {
      CredentialIsLastWrite(ws, es, machine, i - 1);
      assert Next(ws[i - 1], ws[i], machine, es[i - 1]);
      forall k: nat | LastWrite(es, i, k)
        ensures ws[i].credVersion == es[k].version
        ensures es[k].outcome == Persisted ==> StoredVersion(ws[i].disk, machine) == es[k].version
      {
        if k < i - 1 {
          assert LastWrite(es, i - 1, k);
        }
      }
    }
  }

  /** A step takes the credential on disk back to an older version exactly when it writes and
      the last write before it was cut short between its two files with a newer credential. */
  lemma GoesBackIff(ws: seq<World>, es: seq<Event>, machine: string, i: nat)
    requires Run(ws, es, machine) && i < |es|
    ensures ws[i + 1].credVersion < ws[i].credVersion <==>
            Writes(es[i]) && exists k: nat ::
              LastWrite(es, i, k) && es[k].outcome == HalfWritten && es[k].version > es[i].version
  {
    CredentialIsLastWrite(ws, es, machine, i);
    assert Next(ws[i], ws[i + 1], machine, es[i]);
    RunInv(ws, es, machine, i);
    if Writes(es[i]) && ws[i + 1].credVersion < ws[i].credVersion {
      var j := LastOf(es, i);
      assert LastWrite(es, i, j);
    }
  }

  lemma {:induction false} LastOf(es: seq<Event>, i: nat) returns (k: nat)
    requires i <= |es| && exists j :: 0 <= j < i && Writes(es[j])
    ensures LastWrite(es, i, k)
  {
    if Writes(es[i - 1]) {
      k := i - 1;
    } else {
      k := LastOf(es, i - 1);
    }
  }

  /** A state file of the machine with the given version. */
  ghost function FileAt(machine: string, version: int): FileMap {
    Saved(State(SCHEMA_VERSION, "", machine, "", "", version, 1, None, map[]), map[])
  }

  lemma FileAtReads(machine: string, version: int)
    ensures Decode(FileAt(machine, version)).machineId == machine
    ensures Decode(FileAt(machine, version)).version == version
  {
    SaveLoad(State(SCHEMA_VERSION, "", machine, "", "", version, 1, None, map[]), map[]);
  }

  /** It does happen: three rotations, the first persisted, the third half written, then the
      second arriving late. */
  lemma CredentialCanGoBack(machine: string)
    ensures exists ws: seq<World>, es: seq<Event> ::
      Run(ws, es, machine) && |es| == 6 && ws[5].credVersion == 3 && ws[6].credVersion == 2
  {
    hide FileAt, Decode;
    FileAtReads(machine, 1);
    FileAtReads(machine, 2);
    var one, two := FileAt(machine, 1), FileAt(machine, 2);
    var all := ["a", "b", "c"];
    var es := [Rotate("a"), Rotate("b"), Rotate("c"), Persist(1, Persisted), Persist(3, HalfWritten), Persist(2, Persisted)];
    var none := Disk(None, None);
    var ws := [
      World([], none, 0), World(["a"], none, 0), World(["a", "b"], none, 0), World(all, none, 0),
      World(all, Disk(Some(one), Some("a")), 1), World(all, Disk(Some(one), Some("c")), 3),
      World(all, Disk(Some(two), Some("b")), 2)];
    assert Run(ws, es, machine);
  }
}
