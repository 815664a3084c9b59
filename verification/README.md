# Verified model of Homeplane's hard core

This project models the parts of Homeplane where a small amount of branching, stateful code
carries a property over every document, every run or every interleaving, and proves those
properties in Dafny.

- **Merge-only config editors** (`TomlScan`, `TomlHeaders`, `TomlCut`, `TomlRemove`, `TomlRender`,
  `TomlRead`, `TomlTail`, `TomlOpen`, `CodexRewrite`, `CodexFile`, `CodexEntries`, `JsonEdit`,
  `JsonLayout`, `ClaudeFile`, `ClaudeEntries`, `ClaudeMerge`, `ConfigWriter`). The Codex editor is a
  lexer that carries multi-line strings and bracket depth from line to line, finds table spans, cuts
  the managed ones and appends re-rendered blocks. The Claude editor is an order-preserving JSON
  object. What each writes is read back by readers of its own. Both run in an optimistic merge loop
  against an outside writer who may act between any two steps.
- **Control plane and its client protocols** (`ControlStore`, `StoreHistory`, `Enrolment`, `Lockless`,
  `Configure`). Atomic transactions over machines, grants, secrets and an append-only audit log;
  versioned credential rotation with late answers and crashes; superseding grants written into config
  files; what the locks buy, and which runs go wrong without them.
- **Skills linker** (`SkillManifest`, `SkillLinks`, `SharedSkills`). Links, an ownership manifest, a
  crash point after every change, outside hands between any two operations, and harnesses that share
  a directory.
- **Connector authorization** (`Names`, `Pointer`, `Policy`, `Manifest`, `Authorization`, `Verdicts`,
  `LetterBound`, `Broker`). A fail-closed decision, told from the manifest's own declarations, the
  pointer language it reads arguments with, how far a policy binds what is admitted, and
  record-before-forward traces of any number of concurrent calls.
- **Bounded ledger and transactional install** (`RestartLedger`, `Install`).

How the model is put together. Code that changes things step by step is a class or a loop proved
against a specification function or a relation; the properties are lemmas about that function or
relation. A system call that may fail is a nondeterministic branch; a file write may, where the
code allows it, be reported as failed although it happened. Text is a sequence of Unicode scalar
values: the scanners compare ASCII characters only. Decoding a quoted TOML key
(`strconv.Unquote`), lower-casing of non-ASCII characters and a format's residual tree are function
parameters, so the results hold for every such function. Ids and tokens are fresh, hashes stand for
themselves, transactions commit or abort.

## What the proofs found

- The remark at `internal/agent/harness/tomledit.go:116-118` is too strong: a line that looks like a
  comment can close a multi-line string (`AttachedMayClose`), and the span of the table it belongs to
  then ends inside that string (`CutsIntoString`). It happens exactly when a line of the table ends
  inside a multi-line string and only blank and comment-looking lines follow (`CoreOpensIff`). The
  weaker fact that every trimmed line is neutral at top level is enough, and is what the cut relies on
  (`AttachedQuiet`, `CutRescans`).
- A second Claude merge over an untouched file may write again, against
  `internal/agent/harness/writer.go:298-301`: the content is the same (`SecondMergeUnchangedIff`), the
  layout need not be. It is the same exactly when the first layout was indented or the compact text
  does not itself look indented (`LayoutSettlesIff`); a blank second line and a value that spans lines
  break it (`BlankLineUnsettled`). A third write always agrees with the second (`SettlesAfterTwo`).
- A merge can lose an outside edit in exactly two ways (`LosesIff`). The last outside act between the
  last look and the rename left bytes other than those the rename was computed from; the run may then
  report success (`LoudWindowLoses`). Or a rollback finds bytes other than the backup it puts back,
  which needs an outside act between the last look and the read-back (`RestoreNeedsOutside`,
  `RollbackLoses`). With no outside act between last look and read-back neither happens
  (`QuietApplyPreserves`).
- `PersistEnrolment` can take the credential file back to an older credential: a crash between the two
  writes leaves credential 3 beside state version 1, and a late answer 2 is then accepted
  (`CredentialCanGoBack`). A step does so exactly when it writes and the write before it stopped
  between the two files with a newer version (`GoesBackIff`); the state version never goes back.
- Trimming the restart ledger before sorting it is harmless exactly for thresholds up to 48
  (`AgreesIff`); at 49 and above there is a history on which the trimmed ledger disagrees.
- The policy's validation does not notice an allowed list that spells a capability in upper case or
  with blanks, while the engine ignores that spelling (`SpelledOtherwise`). The end-to-end bound is
  therefore stated up to normalisation; it holds to the letter exactly when every default that means a
  known capability means one the list names (`ToTheLetterIff`), and otherwise a grant for an empty
  request admits a call beyond the list (`UnnamedAdmitted`).
- Without the run lock a harness can end configured with a superseded token although nobody revoked or
  edited anything (`UnlockedBreaks`): exactly when the last write that landed was not of the newest
  grant (`MatchesIff`). This concerns callers that pass no lock and the builds in which `Lock` does
  nothing (`internal/agent/lock_other.go:9`), on platforms the installer rejects.
- In the same builds, and on a filesystem that ignores the lock, the version check of `PersistEnrolment`
  is no backstop, against `internal/agent/enrol.go:131-134`: the stored version can go back
  (`UnlockedGoesBack`), exactly when a newer answer was saved between an answer's load and its save
  (`Lockless.GoesBackIff`); and the machine can be left with an older credential than its state records,
  the newer answer refused from then on (`UnlockedDisagrees`, `CredOlderIff`). Under the lock neither
  happens (`LockedForward`).
- Two harnesses that share one skills directory, and have both come to claim a link, can withdraw each
  other's links, and an immediate second run makes the link again (`SharedDirectoryUndoes`, reached from
  an empty machine), so a pruning run is not idempotent there, against
  `internal/agent/skills/link.go:331-334`. What becomes of each path is told from the start of the run
  and its jobs (`EntryAtTurn`, `OwnsToTheEnd`); the second run changes nothing exactly when no harness
  was overtaken by a later one (`SecondRunIff`), which holds without pruning and for separate
  directories (`SecondRunChangesNothing`).

## Model

| member | source | states |
|---|---|---|
| `TomlScan.ScanLineLoop` | internal/agent/harness/tomledit.go:147-206 | one line read by byte index leaves the open multi-line string and the bracket depth that its tokens, escapes and comments determine |
| `TomlScan.TrimAttachedLoop` | internal/agent/harness/tomledit.go:105-136 | a span's end moves back over exactly the trailing run of blank and comment-looking lines, never past its header line |
| `TomlScan.ParseHeaderLoop` | internal/agent/harness/tomledit.go:207-265 | a header line yields its dotted path and whether it is an array of tables, or an error for every malformed shape |
| `TomlScan.ScanTables` | internal/agent/harness/tomledit.go:45-103 | the position loop that patches the last span in place returns the spans of the document's tables, or the same error |
| `TomlHeaders.WrittenHeaderReads` | internal/agent/harness/tomledit.go:207-265 | a header with bare, literal or basic-string segments and any padding reads as its keys, as a table or an array of tables by its brackets, exactly when only padding or a comment follows |
| `TomlRender.LiteralNeutral` | internal/agent/harness/tomledit.go:147-206 | a literal string leaves the scanner state alone, whatever brackets, comment signs or backslashes it holds |
| `TomlCut.Compose` | internal/agent/harness/tomledit.go:45-103 | scanning a document after complete lines that end at top level joins the two layouts |
| `TomlCut.Decompose` | internal/agent/harness/tomledit.go:45-103 | every table of a document that scans is, on its own, a document with exactly that table, ending at top level wherever another follows |
| `TomlCut.AttachedQuiet` | internal/agent/harness/tomledit.go:105-136 | lines trimmed off a span hold no header and leave the state alone when scanned at top level |
| `TomlCut.AttachedMayClose` | internal/agent/harness/tomledit.go:116-118 | a comment-looking line can close a multi-line string, so the remark there does not hold |
| `TomlOpen.CoreOpensIff` | internal/agent/harness/tomledit.go:105-136 | a table's span ends inside a string exactly when some line of the table, its header line at the earliest, ends inside a multi-line string and only blank and comment-looking lines follow |
| `TomlOpen.CutsIntoString` | internal/agent/harness/tomledit.go:116-118 | a document whose span is cut inside a multi-line string |
| `TomlCut.CutRescans` | internal/agent/harness/tomledit.go:312-338 | for every document that scans, the cut text scans again, its headers are exactly the unmanaged ones in their old order, and every seam is at top level |
| `TomlRemove.RemoveTables` | internal/agent/harness/tomledit.go:315-338 | the one-pass removal with coalesced gaps writes the cut of the layout and reports exactly the managed keys, in order |
| `TomlRemove.CutLosesOnlyManaged` | internal/agent/harness/tomledit.go:312-338 | the only characters lost are those of managed spans and of blank gaps between adjacent managed spans; all others survive in order |
| `TomlRender.QuoteReadsBack` | internal/agent/harness/tomledit.go:421-453 | reading a quoted string by the basic-string rules of TOML v1.0.0, section "String", gives every string back and stops right after it |
| `TomlRender.PairNeutral` | internal/agent/harness/tomledit.go:399-407 | a rendered key/value line, for any key and value, leaves the scanner state unchanged and is no header |
| `TomlRender.ArgsNeutral` | internal/agent/harness/tomledit.go:372-380 | a rendered args line leaves the scanner state unchanged for every list of arguments |
| `TomlRender.HeaderReadsBack` | internal/agent/harness/tomledit.go:210-304 | parsing a rendered header returns the path it was rendered from |
| `TomlTail.RepadScans` | internal/agent/harness/tomledit.go:340-353 | trimming a document's end and giving it one blank line keeps it scanning, with the same headers, even when a trailing string or header is cut short |
| `CodexRewrite.RenderEntryLoop` | internal/agent/harness/tomledit.go:361-394 | rendering into a buffer writes the entry's blocks joined by blank lines, or refuses an invalid entry |
| `CodexRewrite.BlockScans` | internal/agent/harness/tomledit.go:361-394 | a rendered block scans to one table with the rendered path |
| `CodexFile.CutTakesBlocks` | internal/agent/harness/writer.go:368-393 | blocks appended to a document without managed tables are exactly what a later cut takes off |
| `CodexFile.RewriteCodex` | internal/agent/harness/writer.go:368-393 | the rewrite loop scans, cuts and appends entry by entry; a document that does not scan and an invalid entry are errors |
| `CodexFile.RewriteHeaders` | internal/agent/harness/writer.go:368-393 | the output's headers are the unmanaged ones in their old order followed by exactly the rendered ones |
| `CodexEntries.EntriesReadBack` | internal/agent/harness/tomledit.go:361-407 | read by the rules of TOML v1.0.0, sections "Key/Value Pair", "String" and "Array", the tables after the kept ones say exactly each entry's url, or command and args, and its headers and environment |
| `CodexEntries.RefusedIff` | internal/agent/harness/writer.go:368-393 | a rewrite is refused exactly when the document does not scan or an entry is invalid |
| `CodexEntries.TextStays` | internal/agent/harness/writer.go:368-393 | the text before the appended tables is what the cut left, but for white space at its end |
| `CodexFile.RewriteIdempotent` | internal/agent/harness/writer.go:368-393 | rewriting the output again with the same entries and managed names returns the same bytes |
| `JsonEdit.JsonObject.Set` | internal/agent/harness/jsonedit.go:83-89 | a known key changes value in place, a new one goes last; nothing else moves |
| `JsonEdit.JsonObject.Delete` | internal/agent/harness/jsonedit.go:90-102 | the key leaves, the others keep order and value, and the answer says whether it was there |
| `JsonEdit.JsonObject.Parse` | internal/agent/harness/jsonedit.go:34-76 | a repeated key keeps its first place and its last value |
| `ClaudeFile.RewriteClaude` | internal/agent/harness/writer.go:262-296 | the in-place edit of the two ordered objects is the rewrite, error cases included |
| `ClaudeFile.RewriteKeepsOrder` | internal/agent/harness/writer.go:262-296 | unmanaged keys keep raw value and relative order at both levels |
| `ClaudeFile.RewriteIdempotent` | internal/agent/harness/writer.go:262-296 | rewriting twice gives the same ordered object |
| `ClaudeFile.RewritePreserves` | internal/agent/harness/preserve.go:55-104 | parse(after) minus managed equals parse(before) minus managed for every document whose container is absent or an object, duplicate keys included |
| `ClaudeEntries.HeldAfter` | internal/agent/harness/writer.go:262-296 | looked up name by name, the container of the result holds the encoding of the last entry of that name, nothing for another managed name, and what it held otherwise; keys beside it hold what they held |
| `ClaudeEntries.ContainerIff` | internal/agent/harness/writer.go:284-295 | the container is in the result exactly when it holds something |
| `ClaudeEntries.EntryReadsBack` | internal/agent/harness/writer.go:298-338 | what the result holds under an entry's name reads back as its transport, URL and headers, or its command, args and environment |
| `ClaudeMerge.CheckNeverRefuses` | internal/agent/harness/preserve.go:80-104 | the Claude rewrite succeeds exactly on blank documents and objects whose container is absent or an object, and the check before the write accepts every result |
| `ClaudeMerge.SecondMergeUnchangedIff` | internal/agent/harness/writer.go:298-301 | a second merge of an untouched file passes the check again, and writes nothing exactly when printing the object over its own text settles |
| `ClaudeMerge.UndisturbedIff` | internal/agent/harness/writer.go:138-207 | an undisturbed Claude merge fails exactly on documents it cannot edit, and otherwise ends with the rewrite in the file, written only when it differs |
| `JsonLayout.DetectIndent` | internal/agent/harness/jsonedit.go:149-167 | the loops find the padding of the second line, nothing for a one-line document, two blanks for a blank one |
| `JsonLayout.LayoutSettlesIff` | internal/agent/harness/jsonedit.go:126-143 | writing an object over its own layout gives the same bytes exactly when that layout was indented or the compact text does not look indented |
| `JsonLayout.SettlesAfterTwo` | internal/agent/harness/jsonedit.go:126-143 | what the second write leaves, a third one leaves alone |
| `JsonLayout.BlankLineUnsettled` | internal/agent/harness/jsonedit.go:149-167 | a document whose first write does not settle |
| `ConfigWriter.ConfigFile.ApplyOnce` | internal/agent/harness/writer.go:138-207 | whatever fails and whatever the outside writer does between any two steps, one attempt is a run of the merge protocol from its start to the exit it reports; with neither, it refuses, finds nothing to do, or leaves the rewrite in the file, as the file's bytes decide |
| `ConfigWriter.BeforeWrite` | internal/agent/harness/writer.go:164-203 | in every run the bytes renamed into place are the verified rewrite of the bytes the last look saw, and a rollback puts back exactly the bytes that attempt backed up, after bytes that did not verify |
| `ConfigWriter.ConfigFile.Apply` | internal/agent/harness/writer.go:81-129 | the retry loop is a run of at most six attempts, fails when the sixth loses its race, does nothing for invalid entries, and undisturbed does what one attempt does |
| `ConfigWriter.QuietApplyPreserves` | internal/agent/harness/writer.go:81-207 | for any rewrite function: with no outside act between last look and read-back nothing is rolled back, no edit is lost, and each rename keeps the residual tree of the exact bytes it replaces |
| `ConfigWriter.LosesIff` | internal/agent/harness/writer.go:181-207 | in every run, a rename loses an outside edit exactly when one came after the last look and left other bytes than the rename's basis; a rollback exactly when it finds other bytes than the backup |
| `ConfigWriter.RestoreNeedsOutside` | internal/agent/harness/writer.go:196-203 | a rollback follows an outside act between the last look and the read-back, and what it replaces is an outside writer's |
| `ConfigWriter.OwnWrites` | internal/agent/harness/backup.go:74-91 | over all attempts together at most one rename and at most one rollback, which puts back that attempt's backup |
| `ConfigWriter.LoudWindowLoses` | internal/agent/harness/writer.go:181-207 | a full run that loses an edit between last look and rename and reports success |
| `ConfigWriter.RollbackLoses` | internal/agent/harness/writer.go:196-203 | a full run whose rollback wipes an edit, with nobody between last look and rename |
| `ConfigWriter.Outcome` | internal/agent/harness/writer.go:138-207 | how each exit leaves the file: no own write when unchanged or out of retries; one rename, its residual tree found kept on disk, when changed; none, one rename, or the backup put back after it, when failed |
| `ConfigWriter.ManagedNames` | internal/agent/harness/writer.go:226-243 | the owned names are those written and those retired, each once and sorted |
| `ControlStore.Store.Enrol` | internal/store/sqlite.go:187-261 | a known node's machine gets the new name, OS, credential hash and next version, an unknown one a machine of that id; each with its row, every other table as it was, or nothing changes |
| `ControlStore.Store.IssueGrant` | internal/store/sqlite.go:314-388 | afterwards exactly the new grant, with what was asked, is active for the pair, the prior one is superseded, both rows are written and every other row is as it was, or nothing changes |
| `ControlStore.Store.RevokeGrant` | internal/store/sqlite.go:411-453 | only an active grant changes, only in its state, and only a change is recorded, with who made it |
| `ControlStore.Store.PutSecret` | internal/store/sqlite.go:665-725 | the secret becomes the new ciphertext at the next generation, only at the generation the caller saw, and nothing else changes |
| `ControlStore.EffectKeeps` | internal/store/sqlite.go:187-725 | every transaction keeps the tables consistent and the log a faithful record of them |
| `ControlStore.LogRebuildsTables` | internal/server/handlers.go:82-106 | in every reachable state, through commits and aborts, replaying the allowed lifecycle rows gives the active grants, the revoked grants and the credential versions; at most one grant per machine and harness is active |
| `ControlStore.RunForward` | internal/store/sqlite.go:314-453 | over any stretch of any run a revoked grant stays revoked, no version or generation goes back and no audit row changes |
| `ControlStore.CasWinsOnce` | internal/store/sqlite.go:652-699 | of two flows that saw the same generation, once one commits the other's compare fails for ever |
| `StoreHistory.SecretIsLast` | internal/store/sqlite.go:665-725 | after any run the secret under a name is the ciphertext of the last committed replacement, its generation their number |
| `StoreHistory.MachineIsLast` | internal/store/sqlite.go:187-261 | after any run a node that enrolled has one machine: the id of its first enrolment, the data of its last, a version that counts them |
| `StoreHistory.GrantIsIssued` | internal/store/sqlite.go:314-453 | after any run each issued grant holds what its issuance said, active until the first transaction that ends it and from then on as that one left it |
| `StoreHistory.OnlyIssued` | internal/store/sqlite.go:314-388 | no grant is there that was not issued |
| `Enrolment.SaveLoad` | internal/agent/state.go:176-236 | saving and loading gives the state back and keeps every unrecognised key |
| `Enrolment.Store.PersistEnrolment` | internal/agent/enrol.go:135-195 | a stale answer is refused without a trace; otherwise credential and state are written in that order, each field from the answer, the identity, the clock or the old state, unrecognised keys kept; it fails only when a write does, which may have landed |
| `Enrolment.StoredIsMax` | internal/agent/enrol.go:135-195 | under any interleaving of rotations, late or repeated answers and crashes the stored version is the highest persisted, and the credential file is never older than the state file |
| `Enrolment.NewestStays` | internal/agent/enrol.go:135-195 | once the newest answer is persisted the stored credential is the one the server holds, until the next rotation |
| `Enrolment.NoCrashAgree` | internal/agent/state.go:258-270 | without a crash between the two writes both files carry the same version |
| `Enrolment.CredentialIsLastWrite` | internal/agent/state.go:258-270 | the credential on disk is the last one written, and its version is the stored one if that write completed |
| `Enrolment.GoesBackIff` | internal/agent/enrol.go:135-195 | a step takes the credential back exactly when it writes and the last write before it stopped between the two files with a newer version |
| `Enrolment.CredentialCanGoBack` | internal/agent/state.go:258-270 | a run in which it goes back from 3 to 2 |
| `Lockless.GoesBackIff` | internal/agent/enrol.go:129-134 | over any interleaving of loads and writes, locked or not, the stored version goes back exactly at a save that a newer answer's save overtook after its load |
| `Lockless.CredOlderIff` | internal/agent/enrol.go:129-134 | the credential file is older than the state exactly when the last credential written is older than the last state written |
| `Lockless.LockedForward` | internal/agent/lock_unix.go:14-23 | with one attempt at a time the stored version never goes back and the credential is never older |
| `Lockless.UnlockedGoesBack` | internal/agent/lock_other.go:5-11 | an unlocked run in which answer 1 replaces answer 2 |
| `Lockless.UnlockedDisagrees` | internal/agent/lock_other.go:5-11 | an unlocked run that ends with credential 1 beside state version 2 and refuses answer 2 |
| `Configure.StepKeeps` | internal/agent/harness/configure.go:80-268 | every event of every process and outsider keeps the lock, grant, phase and config invariants |
| `Configure.ConfigMatchesServer` | internal/agent/harness/configure.go:41-125 | with nobody in a run, a harness whose newest grant ended configured has that grant active unless revoked, and its token in the config unless the file was edited |
| `Configure.UnlockedBreaks` | internal/agent/harness/configure.go:53-62 | without the lock two configured runs can leave a superseded token in the config |
| `Configure.MatchesIff` | internal/agent/harness/configure.go:53-62 | in any run, locked or not, a configured harness nobody revoked or edited has the active grant's token in its config exactly when the last write that landed was of its newest grant |
| `Configure.Configurator.ConfigureOne` | internal/agent/harness/configure.go:159-268 | a harness refused before issuance moves no grant; one that got a grant is configured exactly when the outcome says so, whatever failed after; unhindered it is configured |
| `Configure.Configurator.Configure` | internal/agent/harness/configure.go:80-126 | an unusable engine endpoint, an unknown harness or a lock not obtained asks for no grant; otherwise the outcomes tell what became of each harness's newest grant, and unhindered every harness is configured |
| `Configure.ReportedMatches` | internal/agent/harness/configure.go:68-126 | what a run reports as configured, and did not ask for again, matches the server |
| `SkillManifest.Manifest.Owns` | internal/agent/skills/link.go:229-249 | ours means recorded and still pointing at the recorded target |
| `SkillManifest.Manifest.Record` | internal/agent/skills/link.go:287-295 | one record per harness and path, the last one written |
| `SkillManifest.Manifest.Forget` | internal/agent/skills/link.go:297-306 | exactly that harness's record of that path goes |
| `SkillLinks.Linker.LinkSkill` | internal/agent/skills/link.go:467-535 | links where nothing is, keeps or repoints our own link, skips everything else; no failure harms another path or an entry not ours |
| `SkillLinks.Linker.PruneRecord` | internal/agent/skills/link.go:537-606 | a record is dropped when its link is gone or still ours (and then removed), and kept otherwise |
| `SkillLinks.LinkTells` | internal/agent/skills/link.go:467-535 | the reported action tells what became of the path: skipped, linked, unchanged or repointed |
| `SkillLinks.PruneTells` | internal/agent/skills/link.go:537-606 | and for a record: removed, or skipped because another holds the path |
| `SkillLinks.Linker.ProvisionHarness` | internal/agent/skills/link.go:396-459 | without I/O errors each path of the directory ends as its own start and the profile's wish determine, and the report says so |
| `SkillLinks.Linker.Provision` | internal/agent/skills/link.go:331-465 | with outside hands between any two operations: at every crash point at most one path not touched by them has fallen out of step, and strangers' entries are untouched; other directories and other harnesses' records are as they were; a finished run leaves no path newly out of step; and without faults it is the chain of each harness doing, and reporting, its job |
| `SkillLinks.ApartDone` | internal/agent/skills/link.go:331-465 | harnesses with separate directories each get their job done from the start of the run to its end |
| `SkillLinks.CrashAfter` | internal/agent/skills/link.go:338-351 | a crash in the middle of any link or prune operation costs at most its own path |
| `SkillLinks.StrangersStay` | internal/agent/skills/link.go:229-249 | over any sequence of runs, crashes and outside edits, inside runs too, a real file, an unrecorded link or a link taken over stays as it is until an outside hand touches it |
| `SkillLinks.DriftBound` | internal/agent/skills/link.go:346-351 | besides paths outside hands touched, each interrupted run costs at most one path its record; finished runs cost none |
| `SkillLinks.OwnsExactlyTheWanted` | internal/agent/skills/link.go:537-606 | after a pruning run without I/O errors the owned links are exactly those to the catalog's homes of the assigned, catalogued, not unsupported skills whose path nobody else holds |
| `SharedSkills.EntryAtTurn` | internal/agent/skills/link.go:396-459 | directories shared or not, what each harness meets at a path on its turn, told from the start of the run and the jobs: what was there until one touches it, then the vault's link while it stands, or nothing |
| `SharedSkills.OwnsToTheEnd` | internal/agent/skills/link.go:396-459 | a harness that wants a path owns it when the run ends exactly when, finding it free, whoever prunes the link later is followed by one that wants it, or, finding it held, it claims the link already and that link stands |
| `SharedSkills.SharedDirectoryUndoes` | internal/agent/skills/link.go:331-334 | starting from nothing, runs and one outside removal after which a run withdraws a link another harness wants, and an immediate second run makes it again |
| `SharedSkills.ChangesNothingIff` | internal/agent/skills/link.go:331-465 | a whole run leaves disk and manifest as they were exactly when no job had anything to do |
| `SharedSkills.SecondRunIff` | internal/agent/skills/link.go:331-334 | an immediate second run changes neither disk nor manifest exactly when, in the first, no harness was overtaken by a later one |
| `SharedSkills.SecondRunChangesNothing` | internal/agent/skills/link.go:331-334 | the disk and the manifest after an immediate second run are those after the first: without pruning always, with pruning for separate directories |
| `SharedSkills.SettledIsQuiet` | internal/agent/skills/link.go:333-334 | a run in which no job has anything to do reports every skill whose link is owned unchanged and everything else skipped |
| `SkillLinks.SecondRunIsQuiet` | internal/agent/skills/link.go:333-334 | one harness's turn taken again at once changes none of its paths or records and reports every owned skill unchanged |
| `Pointer.ParsePointer` | internal/server/connectors/extract.go:89-136 | the parsing loops accept and reject what the grammar does |
| `Pointer.ParsePrint` | internal/server/connectors/extract.go:89-136 | parsing undoes printing for every list of keys and bounded indices that starts with a key |
| `Pointer.AcceptedIsWellFormed` | internal/server/connectors/extract.go:89-136 | every accepted pointer parses to such a list |
| `Pointer.Extract` | internal/server/connectors/extract.go:155-186 | the walk finds the scalar the pointer's segments lead to in the decoded document, and nothing on any failure |
| `Pointer.ExtractPrinted` | internal/server/connectors/extract.go:155-186 | a printed pointer finds what its segments lead to |
| `Policy.Validate` | internal/policy/policy.go:80-96 | a policy validates exactly when every default lies within its own allowed set |
| `Policy.Resolve` | internal/policy/policy.go:109-158 | a request gets the default when it names nothing, exactly what it asked for when all is allowed, and otherwise a refusal naming exactly what is not; sorted each time |
| `Policy.NeverBeyondAllowed` | internal/policy/policy.go:109-158 | under a validated policy a grant carries nothing outside its harness's allowed set |
| `Policy.DefaultGrantIs` | internal/policy/policy.go:68-78 | under the default policy a request that names nothing gets exactly read, write and delete for either harness, and no other harness gets anything |
| `Manifest.ValidateConnector` | internal/server/connectors/manifest.go:554-641 | a connector validates exactly when its mappings and exclusions are well-formed and distinct and cover a known inventory exactly |
| `Manifest.Validate` | internal/server/connectors/manifest.go:533-552 | a manifest validates exactly when its version is known, it has connectors, all validate and no provider repeats |
| `Manifest.InventoryAccountedFor` | internal/server/connectors/manifest.go:602-640 | with a known inventory each tool is mapped or excluded, never both, and nothing else is either |
| `Manifest.AppliesLoop` | internal/server/connectors/manifest.go:276-290 | a guard fires unless its argument is read and listed as safe |
| `Verdicts.GuardFiresIff` | internal/server/connectors/manifest.go:276-290 | a guard fires exactly when the decoded arguments do not say one of its safe values at its pointer |
| `Authorization.Register` | internal/server/connectors/engine.go:136-159 | a manifest that does not validate registers nothing; one that does is indexed whole |
| `Authorization.Authorize` | internal/server/connectors/engine.go:187-262 | the decision and its reason, in the order the checks run; the first blocking guard is the one named |
| `Authorization.AdmitsIff` | internal/server/connectors/engine.go:187-262 | a call is admitted exactly when its caller is attributed and one of the manifest's own declarations resolves its class and finds the class's and every fired guard's capability held |
| `Verdicts.EngineVerdict` | internal/server/connectors/engine.go:187-262 | read off the declarations and the decoded arguments: an attributed call to a mapped tool is unresolved exactly when its selector's argument says no declared case, else has the class declared for it, and is refused for that class's capability, for the first unmet fired guard, or admitted; excluded and unmapped tools are refused as such |
| `Verdicts.OutsideVerdict` | internal/server/connectors/engine.go:187-215 | a caller that is not attributed is refused before anything else, an undeclared provider is unknown |
| `Verdicts.ClassResolved` | internal/server/connectors/manifest.go:734-747 | a selector resolves exactly when the argument it points to is a scalar and a declared case, and then to that case's class |
| `Authorization.NeverBeyondPolicy` | internal/server/handlers.go:166-192 | a grant resolved under a validated policy never admits a call whose class or fired guard needs a capability outside its harness's allowed set, both normalised |
| `Authorization.DefaultNeverSends` | internal/policy/policy.go:68-78 | under the default policy no send-class call and no call with a fired send guard is admitted |
| `LetterBound.ToTheLetterIff` | internal/server/handlers.go:166-192 | whatever is requested and whatever manifest is registered, admitted calls need only capabilities the harness's allowed list names, exactly when every default that means a known capability means one the list names |
| `LetterBound.UnnamedAdmitted` | internal/server/handlers.go:166-192 | a default that means an unnamed capability gives a grant, a valid manifest and an admitted call beyond the list |
| `LetterBound.SpelledOtherwise` | internal/policy/policy.go:80-96 | a validated policy with such a default |
| `Authorization.MoreCapabilities` | internal/server/connectors/engine.go:187-262 | more capabilities never turn an admission into a denial |
| `Authorization.GuardsOnlyDeny` | internal/server/connectors/manifest.go:253-260 | guards added anywhere in a manifest never turn a denial into an admission |
| `Broker.Broker.Invoke` | internal/server/connectors/broker.go:70-109 | one call's steps and audit rows follow the record, forward, record order whatever fails and however many other calls run between any two steps; unless an append fails, it is denied exactly when the decision says so |
| `Broker.ForwardFollowsRow` | internal/server/connectors/broker.go:70-87 | in every trace each forwarded call was allowed, follows its own recorded call row and is forwarded once; a denied request never is |
| `Broker.ReturnFollowsRows` | internal/server/connectors/broker.go:87-109 | each successful return follows its own result row and the tool's success; a reported denial follows its recorded row |
| `Broker.ReturnIsOnRecord` | internal/server/connectors/broker.go:87-109 | at the moment of an answer the log holds the row that tells it: a result that did or did not fail, a breach of the declarations, or missing authority |
| `Broker.ForwardIsOnRecord` | internal/server/connectors/audit.go:59-120 | at the moment of a forward the log holds that call's allowed row, and the manifest admits the call |
| `RestartLedger.Tracker.RecordStart` | internal/agent/supervise/restart.go:184-191 | append, trim, then sort; a failure leaves the file as it was |
| `RestartLedger.LoopsIff` | internal/agent/supervise/restart.go:69-91 | a unit loops exactly when more starts than the threshold lie within the window, five minutes and five starts when none is given |
| `RestartLedger.SortIsStable` | internal/agent/supervise/restart.go:221-222 | the sort orders by time, loses nothing and keeps the order within one instant |
| `RestartLedger.KeptStands` | internal/agent/supervise/restart.go:210-242 | although trimming comes before sorting, the newest forty-nine entries are exactly those of the untrimmed ledger, and the totals are exact, whatever the clock does |
| `RestartLedger.AgreesIff` | internal/agent/supervise/restart.go:69-91 | the trimmed ledger always decides a crash loop like the whole history exactly when the threshold is at most 48 |
| `RestartLedger.LastAgrees` | internal/agent/supervise/restart.go:93-126 | last start, last exit and self-reported running are those of the whole history |
| `Install.Machine.Rollback` | internal/agent/gno/engine.go:479-484 | newest first, every path that held a file or nothing and whose restore succeeds gets that back, also when paths coincide |
| `Install.Machine.Install` | internal/agent/gno/engine.go:433-591 | each of the four paths holds its own file, the last written where they coincide, or each recoverable one has its original bytes, mode or absence; refused options write nothing, options that pass fail only when a capture or a write does; no other path is touched |
| `Install.NeverDangling` | internal/agent/gno/engine.go:464-478 | at no point of the install or its rollback is the new descriptor there without the new unit, config and removal plan |

## Left out

- SkillLinks.Linker.Provision: outside edits come between operations, not between the look at a path and the change that follows it. One run at a time holds the state lock; two runs at once are not modelled.
- SharedSkills.EntryAtTurn: takes each harness to come once in a run, as in the default list; a caller's list could repeat one.
- LetterBound.ToTheLetterIff: takes lower-casing to leave its own results alone and to keep white space apart from other characters, as Unicode's does.
- Install.Machine.Install: makes no promise about a destination that is a link or a directory; the gateway token file and the restart ledger it resets are not among its four files.
- RestartLedger.Tracker.RecordStart: does not model two processes recording at once; the code takes no lock there.
- JsonLayout.LayoutSettlesIff: reading a written object back is a relation (no token lost or made, exact texts from a compact one); number and string decoding is not modelled.
- ClaudeMerge.CheckNeverRefuses: how JSON text is read and printed is open; that a printed object reads back is assumed.
- Authorization.NeverBeyondPolicy: states the bound up to normalisation; when it holds to the letter is `LetterBound.ToTheLetterIff`.
- Full TOML semantics such as dotted keys and inline tables: spans, headers and the lexical state are modelled; the residual tree of a file is a parameter.
- The step pipeline (patterns and base64) of artifact extraction: the pointer walk is what authorization uses.
- Writers of the agent's state file other than the persist step: the enrolment results are about the persist steps of one machine, from a directory without a credential for it.
- Key order in rendered pairs: the pairs are given sorted by key.
- The final sort of the skills manifest and the link times in it: no decision depends on them, because each key occurs once.
- Validation of audit details, timestamps and token fingerprints: a row is the fields the lifecycle needs, and an append may fail.
- Stand-alone audit rows of the lifecycle kinds: the handlers write only denials and other events on their own.
- SQL, encryption, hashing and randomness: transactions commit or abort, ids and tokens are fresh.
- Manifest.ValidateConnector: credential, delivery and server sections of a declaration are one flag that says whether they check out.
- The server's credential flow and the connector edge: their state machines are not part of this model.
- Status texts, reports, flag parsing, HTTP, processes and service managers: only success or failure where a core needs it.
