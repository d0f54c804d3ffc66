# Verification of the Universal Project Gateway

This project models the parts of the gateway whose correctness does not follow from reading one function,
and proves what they promise about every input, every run and every interleaving:

- **The durable job store** (`jobs.py`). `Jobs` holds the rows, the transition table and, for every
  transaction, what it does to a row and which events it logs, with every refusal. `JobStore` is the store as
  an object whose methods carry out those transactions on its three tables and state what their callers may rely on;
  `StoreInvariant` is the invariant of the whole store. `Runs` turns transactions into runs: any sequence of them by
  any workers on any jobs. On top stand the lease invariant (`Leases`), fencing and
  disjoint tenures (`Fencing`), the event log as a faithful history (`EventLog`), the finality of cancellation
  (`Cancellation`) and idempotency (`KeyedOperations`). `Timestamps` covers the calendar and the timestamp texts
  that the database compares.
- **The control plane** (`control_plane.py`, with the validation loop of `runner.py` in `Runner`). `ControlPlane` gives
  prepare, validate and publish as programs whose steps interleave around one job, including their failure
  handlers, which read the row again and act with whatever credentials it holds. `ControlPlaneRows` and
  `ControlPlaneProofs` keep one invariant over every step of anybody; `Guarantees` draws the end-to-end results from it,
  `FlaggedCalls` what a cancellation request stops, `KeyedCalls` and `KeyedOutcomes` those about keyed calls, and
  `Counterexamples` holds concrete runs in which a promise of the design fails. `UndisturbedCalls`, `UndisturbedPhases` and
  `CallFailures` say what a call achieves, or leaves behind when it fails, if nobody else moves between its steps. Other jobs
  and hands may write to the source of the project between any two steps.
- **The evidence chain** (`evidence_chain.py`, `evidence.py`, `scripts/verify_gateway.py`). `Json`, `JsonRoundTrip`,
  `JsonShortest`, `JsonLayout`, `JsonGrammar`, `JsonLines` and `JsonPrefix` hold canonical JSON, a full parser with the grammar
  that it decides, and files of lines; `EventChain` and `ChainProofs` the hash chain; `Evidence`, `EvidenceVerify`,
  `EvidenceProofs`, `EvidenceContents` and `EvidenceLedger` the ledger, its verifier, and what stands in its files;
  `StandaloneVerifier`, `ManifestReading` and `TwoVerifiers` the second verifier, the manifests it reads, and how the two
  relate.
- **Trees** (`workspaces.py`, `intelligence.py`). `Trees` has what both walks share, `Workspaces` filtered copies,
  staleness, the exact diff and publishing, `SourceScan`, `ScanLaws` and `SourceScanner` the recursive scan with shared
  budgets and an early stop.

SHA-256 is an unknown function from texts to texts, so tamper evidence reads "equal, or here is a collision".
Clocks, tokens, job identifiers, adapter results and exceptions raised by the outside world are parameters.

## Where the code and its design differ

- *Partial publication is never reported as clean* does not hold. A job whose publication raised after copying
  files can be cancelled or failed. `Guarantees.PartialPublicationReported` says exactly when: since the publication
  entered its phase, the run holds (1) a cancellation request while the job waits for recovery, because such a job is
  cancelled at once (`jobs.py:116-123`, `jobs.py:1114-1132`), or (2) the failure handler of a validate or publish call
  that re-read the row, saw the cancellation flag and copied nothing itself (`control_plane.py:686-706`,
  `control_plane.py:848-861`), or (3) the failure handler of a prepare call (`control_plane.py:328-359`). A handler ends a leased
  job only with the lease the row carries, before its expiry, and a prepare handler only an unflagged one; a job
  in recovery asks for no lease. `Guarantees.RecoverThenCancel` and `Guarantees.LoserCancelsTornPublication` show both ways,
  and `Counterexamples.CancelledAfterPartialCopy` is a run from a new job.
- *Published equals validated* holds only without interference. Staleness is checked before the claim and not again,
  and the check for unrelated changes at the commit does not see what another job of the project has committed
  (`control_plane.py:757-774`, `git_controller.py:145-160`). `Guarantees.PublishedEqualsValidated` is an equivalence, path by path;
  `Counterexamples.ForeignFileCommitted` is a run in which the commit holds another job's file. A commit is modelled as a
  snapshot of the whole source, while the code commits the intended paths and refuses when others are dirty: the
  model allows more commits than the code makes, and both theorems hold of all of them.
- A keyed call can do its work and still be stored as failed: a publication that has committed and completed the job,
  and a validation that has completed it (`control_plane.py:828-877`, `control_plane.py:663-716`). What follows the last
  transition may raise, and the failure handler then fails the operation, so every retry with the key raises.
  `KeyedOutcomes.KeyedCallOutcome` says exactly when: completed if and only if the call did not raise while it recorded its
  result, failed if it did, and still started if failing the operation raised as well.
  `Counterexamples.PublicationStoredAsFailed` and `Counterexamples.ValidationStoredAsFailed` are such runs.
- A transition out of a status that is not leased needs no credentials, so `_transition_owned` with stale
  credentials can still fail or cancel an unleased job. The model follows the code.
- The chain file is read with `splitlines()`, while canonical JSON leaves U+0085, U+2028 and U+2029 as they are. A chain
  is readable exactly if no string in it holds one of them (`JsonPrefix.ReadableExactlyWhenSafe`); otherwise a
  `finalize` that reports success leaves a directory that does not verify
  (`EvidenceLedger.FinalizeEstablishesVerify`; `EvidenceLedger.FinalizedUnverified` is such a history).
- The two payload checks differ on text of several lines that starts like an absolute path
  (`TwoVerifiers.MultiLinePathDivides`), so a finalized directory can satisfy the library and not the standalone verifier
  (`TwoVerifiers.VerifiedButRejected`).
- `create_or_get` accepts any initial status, `record_event` any status and event type, and `update` any intent.
  `Leases.CreateLeaseWhole`, `EventLog.RecordedEventFaithful` and `KeyedOperations.UpdatedIntentConflicts` say what
  each of these does to the invariants; the control plane uses none of them that way.

## Model

| member | source | states |
|---|---|---|
| JsonRoundTrip.LoadsPrinted | src/universal_project_gateway/evidence_chain.py:45-54 | parsing the printed text of any JSON value, compact or indented, gives that value back |
| JsonRoundTrip.PrintInjective | src/universal_project_gateway/evidence_chain.py:45-58 | two values with one canonical text are one value |
| JsonRoundTrip.LastMemberWins | src/universal_project_gateway/evidence.py:618-652 | of several members with one key the parser keeps the last |
| JsonGrammar.LoadsExactly | src/universal_project_gateway/evidence.py:618-652 | a text parses to a value if and only if some document of the grammar of RFC 8259, in any white space and with any escapes, is written as that text and means that value |
| JsonGrammar.FloatForm | src/universal_project_gateway/evidence.py:618-652 | a float is written as a whole number with a fraction, an exponent, or both |
| JsonShortest.CanonicalIsShortest | src/universal_project_gateway/evidence_chain.py:45-54 | no text that parses to a value is shorter than its canonical text: short escapes, no white space, no leading zeros, no member twice |
| JsonShortest.MembersAscend | src/universal_project_gateway/evidence_chain.py:48-54 | the text of an object is its members, joined by commas, in the one ascending order of their keys |
| JsonShortest.UpperCaseIsText | src/universal_project_gateway/evidence_chain.py:48-54 | upper-case letters in a printed string come from the string, so hexadecimal escapes are lower-case |
| JsonLayout.IndentedIsLaidOut | src/universal_project_gateway/evidence.py:176-178 | the indented text is the compact text laid out by a reader of its characters: a line and two blanks per open bracket, a blank after each colon, nothing inside strings and empty brackets |
| JsonLines.PrintChars | src/universal_project_gateway/evidence_chain.py:48-54 | canonical text has no control characters, and its raw line breaks are exactly those of the strings in the value; which escapes it uses is stated by `JsonShortest.CanonicalIsShortest` |
| JsonLines.CanonicalOneLine | src/universal_project_gateway/evidence_chain.py:48-54 | canonical text stays on one line for `splitlines` if and only if no string holds U+0085, U+2028 or U+2029 |
| Text.SplitAfterLines | src/universal_project_gateway/evidence.py:747-752 | appending to a file of break-free lines leaves the earlier lines as they were |
| Text.SplitAtBreak | src/universal_project_gateway/evidence.py:618-652 | the first line break ends a line, and a carriage return takes a newline with it |
| Text.LineBreaks | src/universal_project_gateway/evidence.py:618-652 | the line breaks, by their code points |
| JsonLines.ReadBack | src/universal_project_gateway/evidence.py:618-652 | the chain file reads back as the appended events if and only if they are line-safe |
| JsonLines.ReadExactly | src/universal_project_gateway/evidence.py:618-652 | the chain file is read if and only if every line of it is JSON, also a blank one, and then as the values of its lines |
| JsonPrefix.ProperPrefixIsNotJson | src/universal_project_gateway/evidence.py:618-652 | no proper prefix of a printed event parses, so a broken line is noticed |
| JsonPrefix.ReadableExactlyWhenSafe | src/universal_project_gateway/evidence.py:618-652 | reading gives the appended events when they are line-safe and fails otherwise; it never gives other events |
| EventChain.ErrorsOfEvent | src/universal_project_gateway/evidence_chain.py:129-180 | behind valid events, nothing is reported about an event if and only if it is well formed, hashes correctly and continues the one before |
| EventChain.VerifyEventRecords | src/universal_project_gateway/evidence_chain.py:129-180 | for every line exactly what stands against its event is reported, and nothing if and only if the chain is valid |
| EventChain.ErrorsOfChain | src/universal_project_gateway/evidence_chain.py:129-180 | the reported errors are empty if and only if each event is well formed, hashes correctly and continues the one before |
| EventChain.NormalPayloadIsFinite | src/universal_project_gateway/evidence_chain.py:61-83 | a payload that normalization accepts holds no non-finite number, so it can be hashed |
| EventChain.NormalThroughout | src/universal_project_gateway/evidence_chain.py:61-83 | a payload is normal if and only if nothing in it is a non-finite number or a text of one line that starts like an absolute path |
| EventChain.FiniteThroughout | src/universal_project_gateway/evidence_chain.py:45-58 | a value has a canonical text if and only if nothing in it is infinite or not a number |
| EventChain.SequenceNumbers | src/universal_project_gateway/evidence_chain.py:145-146 | a sequence number is compared as Python compares it: by the whole number that an integer, a truth value or a float stands for |
| EventChain.ComponentForm | src/universal_project_gateway/evidence_chain.py:86-126 | event types and actors are a small letter followed by 1 to 63 small letters, digits and underscores |
| EventChain.AbsoluteForms | src/universal_project_gateway/evidence_chain.py:193-198 | text starts like an absolute path if and only if it is a slash, two backslashes, or a drive letter with a colon and either of them, followed by anything |
| EventChain.CreationRefused | src/universal_project_gateway/evidence_chain.py:86-126 | an event is created if and only if nothing stands against it, and a refusal names something that does |
| ChainProofs.CreatedEvent | src/universal_project_gateway/evidence_chain.py:86-126 | a created event has exactly the event fields, both hashes, and the header it was asked for |
| ChainProofs.AppendKeepsChain | src/universal_project_gateway/evidence_chain.py:86-180 | an event created to continue a valid chain gives a valid chain that ends in its hash |
| ChainProofs.FinalHashDeterminesChain | src/universal_project_gateway/evidence_chain.py:111-180 | two valid chains ending in one hash are equal event for event, or two of their hashed texts collide |
| EvidenceVerify.CheckFiles | src/universal_project_gateway/evidence.py:403-430 | exactly the missing, the unlisted and the changed files are reported, and none if and only if the manifest covers the directory |
| EvidenceVerify.CoverErrorsEmpty | src/universal_project_gateway/evidence.py:403-430 | nothing is reported if and only if the manifest lists exactly the other files with their digests |
| EvidenceVerify.ReadLenient | src/universal_project_gateway/evidence.py:618-652 | with an error list exactly the bad lines are reported and read as null, and the rest as it is |
| EvidenceVerify.AttestationErrorsEmpty | src/universal_project_gateway/evidence.py:520-570 | the attestation is accepted if and only if versions, identity, final hash, digests and signer all match |
| EvidenceVerify.AttestationErrorsStand | src/universal_project_gateway/evidence.py:520-570 | each error about an attestation is reported if and only if its own reason holds |
| EvidenceVerify.Verify | src/universal_project_gateway/evidence.py:366-458 | `verify` reports exactly what is wrong with a directory, error by error, and nothing exactly on sound directories |
| EvidenceProofs.PlanOnSound | src/universal_project_gateway/evidence.py:199-261 | on a sound directory an append refuses an unreadable chain, then a foreign identity, then an event that cannot be created, and nothing else; what it accepts continues the chain |
| EvidenceProofs.SealedVerifies | src/universal_project_gateway/evidence.py:279-518 | a sealed directory verifies if and only if its chain can be read back |
| EvidenceProofs.FinalizeOnSound | src/universal_project_gateway/evidence.py:279-362 | whatever `finalize` does, also when it fails half-way, the chain stays sound; it verifies after success exactly if the new event is line-safe, and never after failure |
| EvidenceProofs.WriteBreaksVerification | src/universal_project_gateway/evidence.py:160-195 | rewriting a file of a verified directory keeps it verified if and only if its digest stays the same |
| EvidenceProofs.AttestationBindsChain | src/universal_project_gateway/evidence.py:463-570 | two verified directories that attest one final hash hold one chain, or a collision |
| EvidenceContents.FinalizeKeeps | src/universal_project_gateway/evidence.py:279-312 | whatever the outcome of `finalize`, each compatibility file that was there keeps its text, the report is the final report, and what was missing gets its default |
| EvidenceContents.FinalizeSnapshot | src/universal_project_gateway/evidence.py:313-518 | a successful `finalize` leaves a final event with the status, success and project it read, an attestation that takes every field from the documents, that event and the digests, and a manifest of all other files |
| EvidenceContents.InferredProject | src/universal_project_gateway/evidence.py:573-587 | the project is named by the report, else the task, else the intent, else the first event, and else unknown |
| EvidenceContents.FinalizeBlames | src/universal_project_gateway/evidence.py:279-362 | `finalize` succeeds if and only if its six documents are objects, the chain is readable and its own, and the final event can be created; its error says which of these fails |
| EvidenceContents.FalseValues | src/universal_project_gateway/evidence.py:320-324 | what counts as false in a report: nothing, zeros, and what is empty |
| EvidenceLedger.ChainOnlyGrows | src/universal_project_gateway/evidence.py:160-362 | in every history the chain file is a valid chain that extends each earlier one byte for byte |
| EvidenceLedger.FilesHoldLastWrites | src/universal_project_gateway/evidence.py:160-362 | in every history each compatibility file holds the text of the last accepted write or report, or the default of the first `finalize` that found nothing |
| EvidenceLedger.AppendInvalidatesUntilFinalize | src/universal_project_gateway/evidence.py:199-261 | after an append nothing verifies until a `finalize` succeeds |
| EvidenceLedger.FinalizeEstablishesVerify | src/universal_project_gateway/evidence.py:279-458 | a history that ends in a successful `finalize` verifies if and only if every appended event is line-safe |
| EvidenceLedger.FinalizedUnverified | src/universal_project_gateway/evidence.py:279-362 | a history of one successful `finalize`, whose report has a line separator in its status, that does not verify |
| EvidenceLedger.Ledger.Write | src/universal_project_gateway/evidence.py:160-195 | accepts documents and logs under allowed names only, changes that one file to the text of the data, and keeps the chain sound |
| EvidenceLedger.Ledger.AppendEvent | src/universal_project_gateway/evidence.py:199-261 | a refusal changes nothing; an append adds one canonical line to the chain file, drops the snapshots, keeps every other file, and leaves nothing that verifies |
| EvidenceLedger.Ledger.FinalizeJob | src/universal_project_gateway/evidence.py:279-362 | keeps what was written, whatever the outcome; succeeds if and only if nothing stands against it, and else says what does; success leaves the full snapshot, and the verification it implies |
| StandaloneVerifier.ParseChainFile | scripts/verify_gateway.py:192-206 | exactly the lines that are no JSON or not the canonical text of what they say are reported |
| StandaloneVerifier.CheckEvents | scripts/verify_gateway.py:208-253 | for every event exactly the reasons that hold against it are reported, and no failure if and only if all events are accepted |
| StandaloneVerifier.VerifyChainFile | scripts/verify_gateway.py:173-260 | exactly what is wrong with the lines and the events is reported, and nothing exactly on accepted chain files |
| StandaloneVerifier.CanonicalThroughout | scripts/verify_gateway.py:84-100 | a payload is canonical if and only if nothing in it is a non-finite number or a text that starts like an absolute path |
| StandaloneVerifier.ComponentsByText | scripts/verify_gateway.py:222-230 | a value names a component if and only if its Python text does, so besides texts only nan and inf |
| StandaloneVerifier.NormalizedIsSafe | scripts/verify_gateway.py:108-119 | a normalized path leads downward, by the parts of the recorded one that are neither empty nor a dot |
| StandaloneVerifier.RefusedPaths | scripts/verify_gateway.py:108-119 | a path is refused if and only if it is blank, absolute, names a drive, climbs, or has no part that counts |
| StandaloneVerifier.EntriesAreSafe | scripts/verify_gateway.py:130-170 | whatever a manifest says, it is read as at least one path below the bundle, each with a lower-case digest, and never as its own |
| ManifestReading.ManifestExactly | scripts/verify_gateway.py:130-170 | a manifest is read as a map if and only if it names SHA-256 in any case and with any dashes and, under `files`, under `checksums` or in itself, as an object or a list, says just that map |
| ManifestReading.CollectExactly | scripts/verify_gateway.py:145-170 | entries are collected if and only if each has a usable path and a digest and no two name one path |
| ManifestReading.DigestExactly | scripts/verify_gateway.py:120-127 | a digest is 64 hexadecimal digits in either case, given by a text or under one of two keys, and is read in small letters |
| TwoVerifiers.CollectPlain | scripts/verify_gateway.py:108-170 | a manifest with plain names and lower-case digests is read as that very map |
| TwoVerifiers.ManifestForms | scripts/verify_gateway.py:130-170 | an object under `files`, one under `checksums`, and a list of one object for each file are read alike |
| TwoVerifiers.BareManifest | scripts/verify_gateway.py:130-170 | and so is the bare object |
| TwoVerifiers.StandaloneAcceptsStrictChains | scripts/verify_gateway.py:211-260 | the standalone verifier accepts an event list if and only if it is a valid chain with regular types, actors, digests and payloads |
| TwoVerifiers.VerifiersAgree | scripts/verify_gateway.py:108-370 | on every directory with a plain manifest the bundle is accepted if and only if the library verifies it and every line of its chain is canonical and every event strict |
| TwoVerifiers.VerifiersAgreeAfterFinalize | scripts/verify_gateway.py:173-370 | after any history that ends in a successful `finalize`, the bundle is accepted if and only if the library verifies it and no payload text starts like an absolute path |
| TwoVerifiers.BreakFreeHistoriesSatisfyBoth | scripts/verify_gateway.py:84-370 | a finalized directory without line breaks in its events satisfies both verifiers |
| TwoVerifiers.MultiLinePathDivides | scripts/verify_gateway.py:84-99 | a text on which the two payload checks differ |
| TwoVerifiers.VerifiedButRejected | scripts/verify_gateway.py:84-370 | a history of one successful `finalize` that the library verifies and the standalone verifier rejects |
| Timestamps.EarlierExactly | src/universal_project_gateway/jobs.py:731-736 | comparing times field by field compares the instants |
| Timestamps.Gregorian | src/universal_project_gateway/jobs.py:200-212 | the calendar is the Gregorian one: the day of the Unix epoch, 97 leap days in 400 years, 24 in the century after 1900, and the first days of the months |
| Timestamps.ParseAfterStamp | src/universal_project_gateway/jobs.py:200-212 | writing a time and reading it back cuts it to its millisecond and changes nothing else |
| Timestamps.StampText | src/universal_project_gateway/jobs.py:211-212 | a time is written with four digits for the year, two for each further field, three for the milliseconds, and the marks of the ISO form between them |
| Timestamps.StampOrder | src/universal_project_gateway/jobs.py:891-907 | timestamp texts sort as the milliseconds they stand for |
| Timestamps.StaleTestsAgree | src/universal_project_gateway/jobs.py:880-907 | the text comparison of `list_stale_leases` selects exactly what `is_lease_stale` calls stale |
| Timestamps.GrantedLease | src/universal_project_gateway/jobs.py:758-760 | a granted lease, as read back, lasts more than its seconds less one millisecond and at most its seconds |
| Leases.ExpiryIsStoredText | src/universal_project_gateway/jobs.py:200-212 | the expiry a modelled row holds is the one its timestamp text reads back as |
| Runner.MarkNotRun | src/universal_project_gateway/runner.py:707-721 | the remaining actions are marked as not run, in order |
| Runner.ExecuteActions | src/universal_project_gateway/runner.py:683-779 | every action has one check in its place, performed ones first, and the loop stops exactly where a cancellation was first observed or something raised |
| Runner.StopsAtFirstCancellation | src/universal_project_gateway/runner.py:698-773 | the loop stops at the first cancellation a poll can report, and without one after the last action |
| Runner.PassedExactly | src/universal_project_gateway/runner.py:604-613 | a validation passes if and only if there are actions, none was cancelled, and each was performed and passed |
| Runner.CountsAddUp | src/universal_project_gateway/runner.py:614-631 | in the summary of a validation no check is counted twice, the passed count reaches the number of actions exactly if all passed, and then nothing else is counted |
| Runner.CountsPositions | src/universal_project_gateway/runner.py:614-631 | each count is the number of checks that it is named for |
| Runner.ExecutionMeans | src/universal_project_gateway/runner.py:683-779 | for every action, by its position, the check says what the adapter reported if it was performed before the stop and that it was not run if not, and each output holds the headed texts that the performed actions wrote to it |
| Runner.RaisesExactly | src/universal_project_gateway/runner.py:683-779 | the loop raises if and only if a heartbeat or an adapter raised before it would have stopped |
| JobStore.JobStore.CreateOrGet | src/universal_project_gateway/jobs.py:564-660 | creates, replays or refuses, each for its reason; a new row is the draft with nothing else in it; earlier rows stay, one event is logged, keys stay unique, and the store stays sound unless the job is created in a leased status |
| JobStore.JobStore.ClaimJob | src/universal_project_gateway/jobs.py:738-833 | succeeds if and only if the job is claimable; then status, lease, attempt and origin are those of the claim, all else is as it was, and one event tells it; a refusal changes nothing and names its reason; soundness is lost only by an empty token |
| JobStore.JobStore.HeartbeatJob | src/universal_project_gateway/jobs.py:835-878 | in a sound store succeeds if and only if worker and token hold the job before its expiry; then the two times of the lease are renewed and nothing else; a refusal names what the credentials lack |
| JobStore.JobStore.TransitionJob | src/universal_project_gateway/jobs.py:975-1082 | in a sound store succeeds if and only if the table allows the move, a leased job is held by these credentials, and a flagged one ends or asks for recovery; each of the six optional columns holds what was given or else what it held, all else stays, the lease is kept in leased statuses and dropped in others, and one event tells the move; a refusal names its reason |
| JobStore.JobStore.RecoverExpired | src/universal_project_gateway/jobs.py:909-973 | succeeds if and only if the job is leased and expired; drops the lease, notes the reason twice and nothing else, and puts a mere claim back to its origin, or cancels it if flagged, and anything further to recovery |
| JobStore.JobStore.CancelJob | src/universal_project_gateway/jobs.py:1084-1136 | only flags a leased job, cancels every other that is not over, leaves a cancelled one alone, refuses completed and failed ones, and logs exactly the request and the move |
| JobStore.JobStore.UpdateJob | src/universal_project_gateway/jobs.py:1370-1424 | sets the named fields and no other, touches no status, lease, attempt or flag, and logs exactly one event if and only if a field is named |
| JobStore.JobStore.RecordJobEvent | src/universal_project_gateway/jobs.py:1138-1172 | changes no row, and keeps a sound store sound if and only if the event tells nothing untrue about the job |
| JobStore.JobStore.BeginOperation | src/universal_project_gateway/jobs.py:1186-1238 | goes ahead if and only if the key is new; a known key is answered with what is stored and changes nothing |
| JobStore.JobStore.FinishOperation | src/universal_project_gateway/jobs.py:1289-1368 | a terminal operation is never written again and is what everybody is answered; a started one takes the given state, and no other operation changes |
| StoreInvariant.PerformKeepsSound | src/universal_project_gateway/jobs.py:471-537 | every transaction of a discreet caller keeps the whole store sound: unique keys, no stray events or operations, and every row with a whole lease or none, a settled flag and a history that tells it |
| StoreInvariant.RunsAreSound | src/universal_project_gateway/jobs.py:471-1424 | in every run of discreet callers the whole store is sound |
| StoreInvariant.EventSound | src/universal_project_gateway/jobs.py:1138-1172 | a recorded event keeps the store sound if and only if it is harmless |
| StoreInvariant.TableByTarget | src/universal_project_gateway/jobs.py:28-96 | the transition table, read by target: what each status can be entered from |
| StoreInvariant.IdentifierForms | src/universal_project_gateway/jobs.py:125-127 | job ids, keys and workers: their lengths, their first character, and the marks they may hold |
| StoreInvariant.OperationForm | src/universal_project_gateway/jobs.py:128 | an operation is named by a small letter followed by up to 63 small letters, digits and underscores |
| KeyedOperations.CreateKeepsUnique | src/universal_project_gateway/jobs.py:594-651 | creating keeps project and key unique |
| Runs.EveryRowSteps | src/universal_project_gateway/jobs.py:564-1368 | every transaction changes each existing row by its own decision or not at all, and its history grows by exactly the events of that decision |
| Runs.NewRows | src/universal_project_gateway/jobs.py:612-649 | a row that was not there before is freshly created, with one event |
| Leases.CreateLeaseWhole | src/universal_project_gateway/jobs.py:564-651 | a created row satisfies the lease invariant if and only if its initial status is not leased |
| Leases.LeasesAlwaysWhole | src/universal_project_gateway/jobs.py:98-115 | in every run a job is in a leased phase exactly when worker, token, expiry, heartbeat and origin are all set, with a safe origin and at least one attempt |
| Leases.OnlyClaimEnters | src/universal_project_gateway/jobs.py:781-815 | only a claim brings an unleased job into a leased phase |
| Leases.WritableXorRecoverable | src/universal_project_gateway/jobs.py:704-736 | at every instant a leased job is writable by its holder or recoverable, never both and never neither |
| Leases.RecoveryUndoesClaim | src/universal_project_gateway/jobs.py:909-973 | recovering an expired claim puts the row back as it was, but for the attempt and the reason, or cancels a flagged job |
| Leases.RecoveryOfStartedWork | src/universal_project_gateway/jobs.py:934-944 | work that entered a phase is never put back: recovery asks for a review |
| Leases.GrantedExpiry | src/universal_project_gateway/jobs.py:758-760 | claims and heartbeats hold the job for more than their seconds less a millisecond and at most their seconds |
| Fencing.LatestClaim | src/universal_project_gateway/jobs.py:738-833 | a leased job is held with the credentials of a claim after which nobody claimed or released it |
| Fencing.LatestClaimantWrites | src/universal_project_gateway/jobs.py:704-736 | every successful leased write uses the credentials of the latest claim, before its expiry, with no release in between |
| Fencing.SupersededNeverWrites | src/universal_project_gateway/jobs.py:704-1068 | with fresh tokens, a superseded or released token never writes again |
| Fencing.ReleasedHow | src/universal_project_gateway/jobs.py:909-1068 | a lease ends by its holder before the expiry or by a recovery not before it |
| Fencing.TenuresDisjoint | src/universal_project_gateway/jobs.py:704-1068 | under a monotone clock the tenures of one job are disjoint in time, with all writes of the first before its end |
| EventLog.LogAlwaysFaithful | src/universal_project_gateway/jobs.py:28-96 | in every run the events of a job connect along the transition table and read back as its status, attempts, cancellation flag and lease expiry |
| EventLog.RecordedEventFaithful | src/universal_project_gateway/jobs.py:1138-1172 | a recorded event keeps the history faithful if and only if it carries no status, claim, cancellation or new expiry |
| EventLog.AlwaysClosed | src/universal_project_gateway/jobs.py:509-537 | events and operations always belong to existing jobs |
| Cancellation.CancellationIsFinal | src/universal_project_gateway/jobs.py:1019-1136 | once flagged a job stays flagged, is never claimed, enters no phase, is never prepared, waiting or completed, and changes status at most three times |
| KeyedOperations.StartsOnce | src/universal_project_gateway/jobs.py:1186-1238 | at most one begin of a keyed operation is told to go ahead |
| KeyedOperations.ResultNeverChanges | src/universal_project_gateway/jobs.py:1289-1368 | the first terminal result is the only one anybody is ever told |
| KeyedOperations.KeyedCallsRepeatResult | src/universal_project_gateway/control_plane.py:190-211 | later calls with the key return that result, or raise the stored code and message, or the defaults where none is stored |
| KeyedOperations.KeysAlwaysUnique | src/universal_project_gateway/jobs.py:594-651 | a project and a key name at most one job |
| KeyedOperations.BindingStays | src/universal_project_gateway/jobs.py:594-651 | a job keeps its project and key for ever |
| KeyedOperations.BoundKeyReplays | src/universal_project_gateway/jobs.py:594-612 | a request with a taken key creates nothing and is replayed exactly if request and intent are the stored ones |
| KeyedOperations.KeyedJobCreatedOnce | src/universal_project_gateway/jobs.py:594-651 | a keyed request creates a job at most once, whatever runs in between |
| KeyedOperations.UpdatedIntentConflicts | src/universal_project_gateway/jobs.py:1370-1424 | after an update of the intent the original request is refused instead of replayed |
| Workspaces.CopyTree | src/universal_project_gateway/workspaces.py:239-306 | the copy is the filtered tree and the omissions grow in walk order |
| Workspaces.CopiedExactly | src/universal_project_gateway/workspaces.py:239-306 | the copy holds exactly the regular files and directories that are neither excluded nor below something excluded, each where it was |
| Workspaces.OmissionsExactly | src/universal_project_gateway/workspaces.py:239-306 | exactly the excluded entries, the links and the special files that the copy comes upon are reported, each with its reason |
| Workspaces.CopyCommutesWithWalk | src/universal_project_gateway/workspaces.py:187-201 | walking the filtered copy gives the filtered walk of the source |
| Workspaces.CopyTwice | src/universal_project_gateway/workspaces.py:187-201 | the second copy changes and omits nothing |
| Workspaces.WalkIsFiltered | src/universal_project_gateway/workspaces.py:495-515 | the filtered walk is the full walk without excluded paths and what lies below them |
| Workspaces.SnapshotIsVisible | src/universal_project_gateway/workspaces.py:389-398 | the filtered snapshot is the visible part of all files |
| Workspaces.NoChangedPaths | src/universal_project_gateway/workspaces.py:353-387 | no path is reported as changed if and only if the recorded and current digests are the same map |
| Workspaces.StaleExactly | src/universal_project_gateway/workspaces.py:353-387 | a source is stale if and only if some digest differs, or both revisions are known and differ |
| Workspaces.ChangedPathsExactly | src/universal_project_gateway/workspaces.py:353-387 | the listed paths are exactly those at which the digests differ, in order |
| Workspaces.Diff | src/universal_project_gateway/workspaces.py:400-438 | the list names every differing path once, in order, rightly labelled and with both digests, and nothing else |
| Workspaces.DiffIsExact | src/universal_project_gateway/workspaces.py:400-438 | the change list names every differing path once, in order, rightly labelled, and nothing else |
| Workspaces.DiffRebuilds | src/universal_project_gateway/workspaces.py:400-438 | applying the diff to the baseline rebuilds the workspace |
| Workspaces.NewWorkspaceUnchanged | src/universal_project_gateway/workspaces.py:155-237 | a new workspace is not stale and its diff is empty |
| Workspaces.PublishedAgrees | src/universal_project_gateway/control_plane.py:792-815 | publishing a diff without deletions onto a source that is not stale makes it agree with the workspace on every visible path, up to collisions, and touches no other path |
| ControlPlaneProofs.ReachableOk | src/universal_project_gateway/control_plane.py:213-877 | every interleaving of prepare, validate, publish, cancellation, recovery, deletion requests and edits keeps the invariant |
| ControlPlaneProofs.OthersKeepStanding | src/universal_project_gateway/control_plane.py:137-172 | what a call may rely on at each of its steps survives every step of the others |
| Guarantees.ValidationStartsOnce | src/universal_project_gateway/control_plane.py:553-716 | for every interleaving of any calls, a job's validation is started at most once |
| Guarantees.CompletedMeansValidated | src/universal_project_gateway/control_plane.py:627-662 | a completed, publishing or re-claimed job stores a summary with exactly one passed check for each mandatory action, of which there is at least one |
| Guarantees.WorkspaceFixedByValidation | src/universal_project_gateway/control_plane.py:464-523 | no gateway operation changes the workspace after validation was entered |
| Guarantees.EveryCopyIsGuarded | src/universal_project_gateway/control_plane.py:792-827 | each copy and each commit of a publication directly follows its heartbeat and its look; what the look saw is stated by `FlaggedCalls.FlaggedPublication`, and what a refused heartbeat does by `CallFailures.RefusedTransaction` |
| FlaggedCalls.FlaggedPublication | src/universal_project_gateway/control_plane.py:792-827 | in every run, from the first world in which a cancellation is requested each publication copies at most one more path, one it already stood before, and commits only if it already stood before the commit |
| FlaggedCalls.FlagStopsWork | src/universal_project_gateway/control_plane.py:244-827 | from then on nothing is claimed, built, entered, started, copied or committed except by a call that has not moved since and stood right before that step |
| UndisturbedCalls.PublishAlone | src/universal_project_gateway/control_plane.py:718-845 | a publication that nothing disturbs copies every changed file onto the source, commits exactly that, leaves the job completed and unleased with its row as it was, and completes its operation |
| UndisturbedPhases.ValidateAlone | src/universal_project_gateway/control_plane.py:553-676 | a validation that nothing disturbs is entered and started once, stores the summary of its execution and the status that follows from it, and completes its operation |
| UndisturbedPhases.JudgeAlone | src/universal_project_gateway/control_plane.py:622-662 | with the flag up in the meantime it stores a summary that did not pass and cancels the job |
| UndisturbedPhases.PrepareAlone | src/universal_project_gateway/control_plane.py:213-327 | a preparation that nothing disturbs makes workspace and baseline of the same files, records the place and the revision, and leaves the job prepared and unleased |
| CallFailures.FailureCleansUp | src/universal_project_gateway/control_plane.py:677-877 | a validate or publish call that fails under a lease ends it: on request the job is cancelled, unless files were copied, and else it waits for recovery; its operation is stored as failed with its error |
| CallFailures.PrepareFailure | src/universal_project_gateway/control_plane.py:328-359 | a failing prepare call fails a leased job that is not flagged and any other that the table lets fail, and leaves the rest alone |
| CallFailures.PrepareCancels | src/universal_project_gateway/control_plane.py:244-306 | a prepare call that sees the flag cancels its job, before it has built anything or after |
| CallFailures.RefusalFailsOperation | src/universal_project_gateway/control_plane.py:586-612 | a publish call whose source differs from what the workspace was made of, or has a known other revision, and a validate call whose job is neither prepared nor completed, change nothing and fail their operation |
| CallFailures.UnreadyPublication | src/universal_project_gateway/control_plane.py:738-751 | publishing a job that is not completed begins its operation, fails it, and does nothing else |
| CallFailures.EditsWhilePrepared | src/universal_project_gateway/control_plane.py:464-523 | a workspace can be edited exactly while its job is prepared or running |
| CallFailures.DeletionSetsAside | src/universal_project_gateway/control_plane.py:525-537 | a deletion request moves a prepared job to waiting for approval, and leaves every other job without a lease alone |
| CallFailures.ValidatedAgain | src/universal_project_gateway/control_plane.py:570-585 | validating a completed job again changes nothing and completes the operation with the stored result |
| CallFailures.RepeatedKeyReturns | src/universal_project_gateway/control_plane.py:190-211 | a call whose key is taken is told what is stored and returns without doing anything |
| CallFailures.RaisingStep | src/universal_project_gateway/control_plane.py:213-877 | an exception does nothing by itself and leads to the failure handler, to failing the operation, or out of the call, by where it was raised |
| CallFailures.RefusedTransaction | src/universal_project_gateway/control_plane.py:213-877 | a transaction that the store refuses, a heartbeat among them, changes nothing and leads to the failure handler |
| Guarantees.CommitHoldsDiff | src/universal_project_gateway/control_plane.py:784-834 | in a commit every path holds what it held at the diff with the validated workspace copied over it, but for what other jobs or hands wrote there since its copy or the diff |
| Guarantees.PublishedEqualsValidated | src/universal_project_gateway/control_plane.py:757-834 | a visible path of any commit agrees with the validated workspace, up to collisions, if and only if nobody else left something different there since its copy or the diff |
| Guarantees.UndisturbedPublication | src/universal_project_gateway/control_plane.py:757-834 | so a path that nobody else wrote to is published exactly as validated |
| Counterexamples.ForeignFileCommitted | src/universal_project_gateway/control_plane.py:757-834 | a run from a new job in which another job publishes between the staleness check and the commit, and the commit holds its file |
| Guarantees.TornPublicationEnds | src/universal_project_gateway/control_plane.py:846-877 | a step ends the job of a publication in its phase as cancelled or failed if and only if it is a cancellation request during recovery, or a failure handler that had the lease in time or found the job in recovery; it completes it only by the last step of the publication itself |
| Guarantees.PartialPublicationReported | src/universal_project_gateway/control_plane.py:784-877 | when a publication has copied files and not finished, raised or not, its job is publishing under its own lease, left for recovery, cancelled or failed; the last two if and only if the run holds such a step since the publication entered its phase |
| Guarantees.RecoverThenCancel | src/universal_project_gateway/control_plane.py:792-877 | recovery after expiry and then a cancellation request leave a cancelled job whose publication raises with files copied |
| Guarantees.OwnStepNeverHides | src/universal_project_gateway/control_plane.py:846-877 | a publication itself never cancels or fails a job after copying a file |
| Guarantees.LoserCancelsTornPublication | src/universal_project_gateway/control_plane.py:846-861 | a publish call that lost the claim cancels the other's partly copied publication |
| Counterexamples.CancelledAfterPartialCopy | src/universal_project_gateway/control_plane.py:792-877 | a run from a new job, by recovery and a cancellation request alone, to a cancelled one with a copied, uncommitted file |
| KeyedCalls.OneCallPerKeyActs | src/universal_project_gateway/control_plane.py:553-877 | of all validate or publish calls with one key at most one ever claims the job, starts a validation or copies a file, in every interleaving |
| KeyedCalls.ToldStandsForGood | src/universal_project_gateway/control_plane.py:190-211 | a call that was answered with a terminal operation was told what is stored under its key, then and in every later world, and never claimed the job |
| KeyedCalls.CompletedOperationPublished | src/universal_project_gateway/control_plane.py:818-845 | a publish operation is stored as completed only if a publication with that key committed and completed the job |
| KeyedOutcomes.KeyedCallOutcome | src/universal_project_gateway/control_plane.py:553-877 | in every interleaving, a keyed call that stored its verdict or finished its publication and has returned left its operation completed if and only if none of its recording steps raised, failed if one did, and started if its handler raised as well |
| Counterexamples.PublicationStoredAsFailed | src/universal_project_gateway/control_plane.py:828-877 | a run from a new job after which a committed, completed and keyed publication is stored as failed |
| Counterexamples.ValidationStoredAsFailed | src/universal_project_gateway/control_plane.py:663-716 | a run from a new job after which a completed and keyed validation is stored as failed |
| SourceScanner.Scanner.Visit | src/universal_project_gateway/intelligence.py:274-358 | the recursive walk with early stop does what the scan of the flat filtered walk does, stays within the budgets, and, on the tree itself: every listed file is one of the walk, with its size, hashed exactly if it fits and then with the digest of its bytes, and else with the reason on record; every omission has its reason; an undisturbed walk reports everything it comes upon |
| SourceScanner.ScanFiles | src/universal_project_gateway/intelligence.py:266-361 | the same for a whole scan from nothing |
| ScanLaws.ScanIsTrue | src/universal_project_gateway/intelligence.py:274-358 | the same for the scan of the flat walk, stated on the tree |
| ScanLaws.NotHashedText | src/universal_project_gateway/intelligence.py:311-333 | what stands for content that was not hashed is the digest of one canonical record of path and size |
| SourceScan.ScannedConcat | src/universal_project_gateway/intelligence.py:274-358 | scanning two stretches one after the other, stopping for good at the limit |
| SourceScan.ScanListsFirstFiles | src/universal_project_gateway/intelligence.py:266-361 | with everything readable exactly the first files of the filtered walk are listed, and the limit is reported exactly when there are more |
| SourceScan.ScanWithinBudget | src/universal_project_gateway/intelligence.py:266-361 | the hashed sizes add up to the reported bytes, within the budget, readable or not |

## Left out

- SQLite, its schema and the migration from version 1: a committed transaction is one step. Migrated rows may lack leases in leased states and are excluded.
- Methods of the store return the row they wrote; the code reads it again after the commit, in a second transaction.
- `update` names its note columns together, as one value; the code names them one by one.
- The creation and update times of rows, the listing of jobs, and event details other than a lease expiry.
- Real files: links inside evidence directories, renames, `fsync`, races between reading and writing one file, and copies that fail in the middle of a file.
- Other jobs of the project appear in `ControlPlane` only as writers of the source, file by file; their commits, branches and checks are not modelled.
- The control plane is a state machine over the steps of its calls, not a class: interleaving is the point. Its world has one job row; `Runs.EveryRowSteps` shows that transactions on other jobs do not touch it.
- Evidence and event records written by control-plane calls appear only as places where a call may raise.
- Git: a commit is one effect. `git_controller.py` with its status parser, branches and staged-set check is not part of this model.
- Pattern matching of paths (`scoped_fs.py`): filters are arbitrary predicates on paths, and the default part filter only has to be weaker than the filter of the copy.
- Patch texts, binary detection and newline normalization of diffs.
- Sandboxes, adapters, subprocesses and timeouts: oracles that answer per action, or raise.
- SHA-256 itself; digests of whole values are digests of their texts.
- Floating-point formatting: a float is its printed token, and two spellings of one number count as two values. Lone surrogates in strings are not modelled.
- Redaction of secrets: documents and payloads arrive redacted. Non-text data given to log and patch files is left out.
- `initialize` and `record_operation` of the ledger, manifest paths with separators in `verify`, and an unhashable `contract_version`, which counts as a rejection.
- Timestamps.ParseAfterStamp: other ISO forms that `datetime.fromisoformat` accepts are not parsed, because the store writes only this form.
- Sorting of the scan's omissions, cache files, and the summaries built from a scan.
