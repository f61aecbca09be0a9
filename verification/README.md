# Nokiy: a verified model

Nokiy coordinates one bounded piece of work at a time: a mission names exit predicates, a packet claims a scope under a
compare-and-swap lease, an executor runs once, its effect is settled, a receipt ends the packet, a continuation carries the
receipt back to the coordinator, and the parent's readback decides what comes next. Around that cycle the repository runs
batches of workers in parallel, delivers their diffs and summaries within byte limits, deploys releases at most once,
recovers a session from two durable logs, and keeps HTTP evidence. This project models the logic of those five parts in Dafny
and proves what they promise.

## Layout

| files | what they hold |
|---|---|
| `Records`, `StoreSpec` | the records and all atomic store operations as functions from store to store and outcome |
| `StoreInvariant`, `StorePreservation` | the inductive invariant and its preservation by every call |
| `StoreRuns`, `StoreTheorems`, `StoreRecovery`, `StoreRelease`, `StoreRejections` | monotonicity and the theorems over reachable stores and whole runs |
| `StoreReceipts`, `StoreRecords`, `StoreProgress` | what receipts and all other records say, and what callers can finish |
| `StoreWitnesses` | runs that reach what the store does not promise |
| `InMemoryStore` | the store as an object whose methods keep the invariant and move exactly as specified |
| `Harness`, `HarnessCycle` | the orchestrator, with arbitrary calls by others while an executor or transport runs |
| `BatchAdmission` | the overlap test, the pairwise admission check, and exactly when an admitted batch is serializable |
| `Text`, `Diff`, `DiffGrammar`, `DiffDelivery`, `MemberDiffs` | the diff printer and parser, what the parser accepts, sharing a byte budget among diffs, and the recorded texts |
| `Summary`, `SummaryEncoding`, `SummaryText`, `SummaryContext`, `SummaryFit` | compaction and expansion, encoded length and text, context deduplication, fitting a summary |
| `Deployment` | the run directory, its stages and its verdicts |
| `RecoveryMerge` | folding the session context and the session feed |
| `HttpEvidence` | the chunked reader and the record validator |

`dafny verify dfyconfig.toml` checks everything.

## Modelling decisions

- SHA-256 over canonical JSON is a free datatype: an identity is the payload it was computed from, and a record may carry
  an identity that does not match its body. Identities are therefore injective, and tampering is expressible.
- A raised violation is an outcome value; a missing key, an exhausted iterator or a failed text check is the outcome
  `Crashed`. The wording of violations is not modelled.
- The 29 dictionaries of the store are grouped into six tables by the part of the cycle they serve.
- One store call is one step, as the store's lock makes it. Executors and transports run without the lock, so the
  orchestrator takes any sequence of calls by others as an input and assumes nothing about it.
- Files, processes, clocks and connections are inputs. In `Deployment` the environment decides the fate of every effect: it
  completes, raises before or after taking place, leaves a torn file, or kills the caller. A second caller racing for the
  directory creation loses it and does nothing else, which is one of those fates.
- Python strings are sequences of characters; bytes are integers below 256.

## What does not hold, and exactly when it does

- A lease is not always releasable: settling a step's effect needs the mission revision to be current (core.py:1769), while
  ending the packet does not. A packet with an unresolved step whose mission was superseded or whose route was disposed
  keeps its lease forever (`StoreRelease.ReleasableExactly`; a run that gets there: `StoreWitnesses.LeaseHeldForever`).
- The store acknowledges a delivery for whatever packet the caller's receipt names, because the receipt is not looked up
  (core.py:2427-2482). `StoreRejections.AuthenticExactly` gives the condition, and the orchestrator always meets it; a run
  that forges an acknowledgement: `StoreWitnesses.ForgedAcknowledgementReached`.
- The orchestrator's `execute` can leave a started packet with neither result nor failure in exactly two cases
  (`Harness.CollaborationHarness.Execute`): a result that comes back while a step is unresolved
  (`StoreWitnesses.ResultDropped`), and a structured failure signal of harness origin whose code an executor may not report
  (`StoreWitnesses.SignalDropped`).
- Admitted members can share a file, because admission does not look below a directory write scope. They do exactly when a
  file has two names, one below a write scope of one member and the other within the other member's reach
  (`BatchAdmission.DisjointExactly`), and a batch is serializable exactly when no two members have such a link
  (`BatchAdmission.SerializableExactly`). `BatchAdmission.HardlinkBelowScopeAdmitted` and `BatchAdmission.AdmittedBatchRaces`
  show an admitted pair and a run of it that no order of running its members explains.
- Having recorded a result is not enough for a successful receipt: an unsettled one may still end as failed
  (`StoreWitnesses.FailedDespiteAttempt`). A receipt says succeeded exactly when the packet has a settled result
  (`StoreReceipts.ReceiptsTell`).
- The diff parser's documentation says that it refuses anything but the format that is written. It also accepts headers
  that are never written (`DiffGrammar.UnwrittenAccepted`), exactly those with numbers that are not plain decimals, a count
  of one, or a nonempty range that starts at zero (`DiffGrammar.WrittenExactly`); everything else is as written
  (`DiffGrammar.AcceptedIsPrinted`).
- A deployment whose terminal was written but whose save then raised is reported as uncertain, although later calls replay
  the terminal as it was meant (`Deployment.RunDirectory.Execute`).
- The recorded numbers of added and removed lines miss lines that start with `++` or `--` (`Diff.CountsExactly`,
  `Diff.AddedLineMissed`).
- Expanding a compacted summary refuses inspection references with any field besides path, digest and size, although
  compaction accepts them and its documentation calls it lossless (`Summary.CompactRoundTrip`, `Summary.ExtraFieldRefused`).
- An HTTP record does not pass the validator exactly when a write failed after part of its chunk reached a file that still
  had room (`HttpEvidence.Observe`, `HttpEvidence.FailedWriteBreaksRecord`). A receipt that was written but not synced is
  answered as unknown, although later reads serve it (`HttpEvidence.ReadEvidence`).

## Model

| member | source | states |
|---|---|---|
| StorePreservation.NextKeepsInv | packages/nokiy/src/codex_collaboration_harness/core.py:1394-2674 | Each of the twenty atomic calls, accepted, rejected or dying halfway, keeps the whole store invariant: leases, effects, steps, recovery, delivery and missions. |
| StorePreservation.ReachableInv | packages/nokiy/src/codex_collaboration_harness/core.py:1357-2674 | Every store that any sequence of calls can reach from an empty one satisfies the invariant. |
| StoreTheorems.EffectsExclusive | packages/nokiy/src/codex_collaboration_harness/core.py:1966-2288 | In every reachable store each receipt is effect-free or settled, no two settled receipts share an effect id, and a packet with a receipt has no unresolved step. |
| StoreTheorems.TerminalForever | packages/nokiy/src/codex_collaboration_harness/core.py:1981-2288 | Whatever is called after a packet got its receipt, it keeps that receipt and the ownership of its effect, its lease stays released, and it never gains a step. |
| StoreTheorems.LeasesExclusive | packages/nokiy/src/codex_collaboration_harness/core.py:1602-2023 | Active leases have pairwise disjoint scopes, a claimed packet's lease is active exactly while it has no receipt, and an item's version is the number of claims ever made on it. |
| StoreTheorems.VersionsFollowClaims | packages/nokiy/src/codex_collaboration_harness/core.py:1602-1638 | A lease claimed later carries a strictly larger version of every item it shares with an earlier one. |
| StoreTheorems.ExecutedOnce | packages/nokiy/src/codex_collaboration_harness/core.py:1659-1669 | Over every run, two accepted execution starts are for different packets. |
| StoreTheorems.RedeliveryNeedsProof | packages/nokiy/src/codex_collaboration_harness/core.py:2295-2554 | Over every run, between two accepted delivery starts of one continuation lies an accepted reconciliation with an absence proof. |
| StoreTheorems.ContinuationForever | packages/nokiy/src/codex_collaboration_harness/core.py:2295-2554 | Over every run a continuation keeps its receipt, destination and turn request, and once acknowledged stays acknowledged. |
| StoreTheorems.AcknowledgedExactlyOnce | packages/nokiy/src/codex_collaboration_harness/core.py:2427-2554 | In every reachable store a continuation is acknowledged if and only if an acknowledgement names it, and then exactly one does. |
| StoreRecovery.RecoveryBounded | packages/nokiy/src/codex_collaboration_harness/core.py:1857-1964 | Consumed recovery budget is the sum of the admitted proposals' budgets and within the packet's budget, and every admitted proposal stays in the packet's scope, effect classes, predicate, delta and destination. |
| StoreRecovery.FingerprintsAdmittedOnce | packages/nokiy/src/codex_collaboration_harness/core.py:1934-1964 | No recovery fingerprint is admitted twice in the whole store. |
| StoreRecovery.RecoveryStepBounded | packages/nokiy/src/codex_collaboration_harness/core.py:1672-1752 | Every recorded recovery step is read-only or reversible and repeats an admitted action that lies inside its packet's scope. |
| StoreRecovery.RecoveryChainsEnd | packages/nokiy/src/codex_collaboration_harness/core.py:1692-1698 | Following recovery parents never goes on for longer than the packet's list of steps, so chains are well founded. |
| StoreRecovery.VerifyAgreesWithPlanner | packages/nokiy/src/codex_collaboration_harness/core.py:2557-2653 | After an accepted or replayed verification the planner's scan rejects exactly on a recheck verdict, names the predicate exactly on route selection, and finds nothing exactly on completion. |
| StoreRecovery.ParentSequenceForward | packages/nokiy/src/codex_collaboration_harness/core.py:2587-2602 | Over every run the stored parent sequence of a mission revision never goes back. |
| StoreRelease.ReleaseClean | packages/nokiy/src/codex_collaboration_harness/core.py:2025-2288 | An active lease whose packet has no unresolved step is released by at most two store calls, even after its mission revision was superseded. |
| StoreRelease.ReleasableExactly | packages/nokiy/src/codex_collaboration_harness/core.py:1761-2163 | An active lease can still be released by some run if and only if its packet has no unresolved step, or its mission revision is current and its route has no disposition; otherwise no run of any length releases it. |
| StoreRejections.RejectionsAtomic | packages/nokiy/src/codex_collaboration_harness/core.py:1981-2288 | In a reachable store a rejected call changes the store if and only if it is one of the three recording rejections of an executor result; no re-check fails after a caller already wrote. |
| StoreRejections.HarnessRunsAuthentic | packages/nokiy/src/codex_collaboration_harness/core.py:2427-2496 | In every run whose acknowledgements carry the stored receipt, each acknowledgement names its receipt's packet and is indexed under it. |
| StoreRejections.AcknowledgedReplays | packages/nokiy/src/codex_collaboration_harness/core.py:2656-2674 | With authentic acknowledgements, every acknowledged continuation replays to its own packet. |
| StoreRejections.ForgedReceiptAcknowledged | packages/nokiy/src/codex_collaboration_harness/core.py:2427-2482 | Counterexample family: any started delivery is acknowledged for any packet when the receipt handed in has the right id. |
| StoreRejections.AuthenticExactly | packages/nokiy/src/codex_collaboration_harness/core.py:2427-2482 | An accepted acknowledgement keeps acknowledgements authentic if and only if the receipt handed in names the packet of the stored receipt. |
| StoreRejections.ForgedAcknowledgementDies | packages/nokiy/src/codex_collaboration_harness/core.py:2557-2573 | Reading the parent back for a stored acknowledgement dies on a missing key exactly when the acknowledged packet was never claimed. |
| StoreReceipts.ReceiptsTell | packages/nokiy/src/codex_collaboration_harness/core.py:1981-2288 | In every reachable store a receipt is blocked if and only if its packet was never started, succeeded if and only if the packet has a settled result, and then with that result's effect, output and predicate flag, and otherwise failed with the code and origin of the recorded failure; only a success has no failure, only a block has no settlement proof. |
| StoreReceipts.ReceiptWritten | packages/nokiy/src/codex_collaboration_harness/core.py:1981-2288 | Over every run each receipt was written by exactly one accepted call, and its status, effect, output, settlement proof, predicate flag and failure are what that call handed in or settled. |
| StoreReceipts.RecordsBound | packages/nokiy/src/codex_collaboration_harness/core.py:2057-2224 | In every reachable store a result comes from its packet's executor under its lease, and a failure has its own identity, its packet's lease and a code its origin may report. |
| StoreRecords.ValidExactly | packages/nokiy/src/codex_collaboration_harness/core.py:1542-1600 | A packet is valid if and only if it has its own identity, belongs to the current revision of its mission, is for the first open predicate, and repeats a route that was not disposed of. |
| StoreRecords.JudgedExactly | packages/nokiy/src/codex_collaboration_harness/core.py:1857-1964 | A new proposal is a duplicate if and only if the same actions were admitted before for the same blocker, admitted if and only if not and it is within authority, budget and safety, and otherwise escalated with exactly the failing conditions; only an admission consumes budget. |
| StoreRecords.ReachableRecorded | packages/nokiy/src/codex_collaboration_harness/core.py:1410-1964 | In every reachable store each blocker, judgement, disposition, supersession and verification is bound to the packet, lease, step, mission revision or readback it was recorded for. |
| StoreRecords.VerifiedReports | packages/nokiy/src/codex_collaboration_harness/core.py:2557-2653 | An accepted verification repeats its readback, the truth it reports is the readback's for the acknowledged packet's predicate, and what comes next is the first indeterminate or else first unsatisfied predicate. |
| StoreProgress.AdmittedActionTaken | packages/nokiy/src/codex_collaboration_harness/core.py:1672-1759 | Every action of an admitted proposal can be recorded as a recovery step while its packet is valid and running. |
| StoreProgress.AttemptSettles | packages/nokiy/src/codex_collaboration_harness/core.py:2245-2288 | An unsettled result is settled by a matching reconciliation, with its proof in the receipt. |
| StoreProgress.FailureSettles | packages/nokiy/src/codex_collaboration_harness/core.py:2107-2164 | A recorded failure is ended by a reconciliation that names its code and no effect of another packet. |
| StoreProgress.AbsenceReopens | packages/nokiy/src/codex_collaboration_harness/core.py:2499-2554 | A proof that an uncertain delivery never took place is accepted, makes it deliverable again and acknowledges nothing. |
| StoreProgress.ConvergenceSettles | packages/nokiy/src/codex_collaboration_harness/core.py:2499-2554 | A proof that it did take place is accepted and acknowledges the stored receipt. |
| StoreProgress.DisposedForever | packages/nokiy/src/codex_collaboration_harness/core.py:1410-1454 | Once a route is disposed of, no run makes a packet on it valid again. |
| ReferenceStore.InMemoryStore.Perform | packages/nokiy/src/codex_collaboration_harness/core.py:169-178 | Each of the twenty atomic calls on the object is exactly the specified step, so every theorem about runs holds of the object. |
| ReferenceStore.InMemoryStore.ValidatePreparedContinuation | packages/nokiy/src/codex_collaboration_harness/core.py:2346-2367 | Accepts if and only if a delivery could be started right now; then the continuation carries the packet's own receipt to the packet's destination. |
| ReferenceStore.InMemoryStore.ValidateResume | packages/nokiy/src/codex_collaboration_harness/core.py:2370-2388 | Accepts if and only if the current prepared continuation is resumed at the destination of its receipt's packet; then its delivery can be started. |
| ReferenceStore.ListReasons | packages/nokiy/src/codex_collaboration_harness/core.py:1890-1932 | The reasons are exactly the conditions that hold, each once and in the source's order, and there is none if and only if the proposal is within the packet's authority and budget and its blocker is safe to retry. |
| Harness.CollaborationHarness.SelectRoute | packages/nokiy/src/codex_collaboration_harness/core.py:2725-2741 | Asking route by route while others call before each question, it returns the best-ranked route of those found open when asked, ties by route id in code point order, and nothing exactly when none was. |
| Harness.CollaborationHarness.Plan | packages/nokiy/src/codex_collaboration_harness/core.py:2712-2756 | Whatever others call between any two of its reads, it returns exactly the packet for the first open predicate, by readback or as declared, the best route found open and the versions it read last, or the right rejection; it reports completion if and only if nothing is open. |
| Harness.StillOpenConsidered | packages/nokiy/src/codex_collaboration_harness/core.py:2725-2741 | Every route that is still open once all were asked is outranked by the selected one, and if none was selected there is none. |
| Harness.UndisturbedPlan | packages/nokiy/src/codex_collaboration_harness/core.py:2712-2756 | Planning that nobody interferes with selects from one store, which is what claiming a planned packet relies on. |
| Harness.PlannedCarriesVersions | packages/nokiy/src/codex_collaboration_harness/core.py:2742-2756 | A planned packet carries the versions that were read last, its context, its mission revision, one of the mission's routes and its own identity. |
| Harness.CurrentVersionsClaim | packages/nokiy/src/codex_collaboration_harness/core.py:1602-1638 | A packet with the current versions was never claimed: claiming it is rejected by validation, by a lease conflict, or not at all. |
| Harness.PlannedPacketClaims | packages/nokiy/src/codex_collaboration_harness/core.py:2712-2771 | Claiming a freshly planned packet succeeds if and only if no active lease shares a scope item, and otherwise reports the lease conflict; it was never claimed before. |
| Harness.CollaborationHarness.Execute | packages/nokiy/src/codex_collaboration_harness/core.py:2800-2903 | The executor is invoked exactly when the start was accepted; whatever others call meanwhile, afterwards the packet has a result, failure or receipt unless the store drops the response in one of two named cases; a failure that was recorded says which code, detail, effect and origin the response had. |
| Harness.CollaborationHarness.ContinueExisting | packages/nokiy/src/codex_collaboration_harness/core.py:2927-2955 | Whatever others call while the transport runs, a delivery this call started is never left started, keeps its identity, and is acknowledged only with the stored receipt. |
| HarnessCycle.HonestCycleCompletes | packages/nokiy/src/codex_collaboration_harness/core.py:2970-2993 | From any invariant store with a free scope, a planned packet is claimed, started, ended with a receipt of exactly its settled result, released, delivered, acknowledged and verified without a rejection, and the planner reads the verdict. |
| StoreWitnesses.LeaseHeldForever | packages/nokiy/src/codex_collaboration_harness/core.py:1761-1770 | Counterexample: a run of five calls from an empty store after which no run of any length releases the lease. |
| StoreWitnesses.ResultDropped | packages/nokiy/src/codex_collaboration_harness/core.py:2167-2180 | Counterexample: a run in which a result returned while a step is unresolved leaves nothing recorded. |
| StoreWitnesses.SignalDropped | packages/nokiy/src/codex_collaboration_harness/core.py:2819-2846 | Counterexample: a run in which a bound signal of harness origin leaves nothing recorded. |
| StoreWitnesses.FailedDespiteAttempt | packages/nokiy/src/codex_collaboration_harness/core.py:2057-2164 | Counterexample: a run that records a result and still ends its packet as failed. |
| StoreWitnesses.ForgedAcknowledgementReached | packages/nokiy/src/codex_collaboration_harness/core.py:2427-2482 | Counterexample: a run that acknowledges a packet nobody claimed, on which every well-formed parent readback dies. |
| BatchAdmission.OverlapIsPairwiseTouch | packages/nokiy/src/codex_collaboration_harness/batch.py:374-391 | The set-based overlap test holds if and only if some pair of paths contains one another or names the same inode. |
| BatchAdmission.CheckAliases | packages/nokiy/src/codex_collaboration_harness/batch.py:358-371 | Passes only when no multiply-linked regular file is written beside a directory that is read, and always then if the written paths can be identified. |
| BatchAdmission.CompatibleExactly | packages/nokiy/src/codex_collaboration_harness/batch.py:358-401 | Two members are compatible if and only if nothing one writes touches what the other reads or writes or its artifact root, and no file with several names is written beside a directory the other reads as a whole. |
| BatchAdmission.Admit | packages/nokiy/src/codex_collaboration_harness/batch.py:1392-1401 | The nested loops admit a batch if and only if every pair of members is compatible and all their paths can be identified. |
| BatchAdmission.DisjointExactly | packages/nokiy/src/codex_collaboration_harness/batch.py:358-401 | Of two compatible members, no file (by inode) that one may write is a file the other may read or write, if and only if no file has two names of which one lies unseen below a write scope and the other within the other member's reach. |
| BatchAdmission.HardlinkBelowScopeAdmitted | packages/nokiy/src/codex_collaboration_harness/batch.py:343-371 | Counterexample to unconditional disjointness: two members that only write their own artifact directories are admitted although a file below one is a hard link to a file the other reads. |
| BatchAdmission.InterleavingsAgree | packages/nokiy/src/codex_collaboration_harness/batch.py:1392-1401 | Two schedules of an admitted batch without hidden links that give each member equally many steps end in the same files and local states. |
| BatchAdmission.AdmittedBatchSerializable | packages/nokiy/src/codex_collaboration_harness/batch.py:1392-1401 | Every interleaving of an admitted batch without hidden links ends exactly where running its members one after another ends, whatever files the members use within their scopes. |
| BatchAdmission.SerializableExactly | packages/nokiy/src/codex_collaboration_harness/batch.py:358-401 | All programs of an admitted batch that stay in their scopes are serializable if and only if no two members have a hidden link. |
| BatchAdmission.HiddenLinkRaces | packages/nokiy/src/codex_collaboration_harness/batch.py:358-401 | Any two members with a hidden link have programs within their scopes of which one interleaving ends like neither order of running them. |
| BatchAdmission.AdmittedBatchRaces | packages/nokiy/src/codex_collaboration_harness/batch.py:343-401 | Counterexample to unconditional serializability: the admitted pair above, two programs and three schedules with equal turns and three different ends. |
| Diff.Unified | packages/nokiy/src/codex_collaboration_harness/batch.py:430-446 | The printing loop's text and counters are the concatenated chunks and the counted lines. |
| Diff.UnifiedPrintsFile | packages/nokiy/src/codex_collaboration_harness/batch.py:430-446 | The printing loop writes the printed file diff, missing final newlines included. |
| Diff.CountsExactly | packages/nokiy/src/codex_collaboration_harness/batch.py:440-444 | The recorded added and removed counts are never too high and are right if and only if no changed line repeats its sign twice at its start. |
| Diff.AddedLineMissed | packages/nokiy/src/codex_collaboration_harness/batch.py:440-444 | Counterexample: a created file whose only line is `++` is recorded with nothing added. |
| Diff.DiffSections | packages/nokiy/src/codex_collaboration_harness/batch.py:545-620 | The three nested loops compute the specified parse, with and without the hunk projection. |
| Diff.SectionsConcatenate | packages/nokiy/src/codex_collaboration_harness/batch.py:545-620 | On any accepted text the sections concatenate back to the text. |
| Diff.ParsedSectionsHaveHunks | packages/nokiy/src/codex_collaboration_harness/batch.py:617-619 | Every section of an accepted text has its two header lines and then a hunk. |
| Diff.DiffRoundTrip | packages/nokiy/src/codex_collaboration_harness/batch.py:430-620 | Parsing a recorded diff of any files gives back exactly their paths, sections, hunk coordinates and both texts, for lines that look like headers and for missing final newlines too. |
| DiffGrammar.AcceptedIsPrinted | packages/nokiy/src/codex_collaboration_harness/batch.py:545-620 | Whatever the exact parser accepts is a list of printed files with distinct paths, each with hunks whose headers give the counts of their edits; sections, coordinates and both texts are theirs. |
| DiffGrammar.HeaderShape | packages/nokiy/src/codex_collaboration_harness/batch.py:523-524 | An accepted hunk header is two ranges, each a number and optionally a count in decimal digits, in their frame. |
| DiffGrammar.WrittenExactly | packages/nokiy/src/codex_collaboration_harness/batch.py:523-577 | An accepted header is one that is ever written if and only if its numbers are plain decimals, a count is given unless it is one, and only an empty range starts at zero. |
| DiffGrammar.UnwrittenAccepted | packages/nokiy/src/codex_collaboration_harness/batch.py:545-577 | Counterexample to the parser's documentation: a header with a count of one is accepted and never written. |
| DiffDelivery.CutSection | packages/nokiy/src/codex_collaboration_harness/batch.py:623-652 | The cut is the longest run of whole hunks within the limit, or of the first hunk's lines, and nothing is kept exactly when the first hunk line does not fit. |
| DiffDelivery.CutLines | packages/nokiy/src/codex_collaboration_harness/batch.py:628-635 | Keeps the longest prefix of whole lines within the limit. |
| DiffDelivery.DeliverSection | packages/nokiy/src/codex_collaboration_harness/batch.py:690-697 | A section goes whole exactly when it fits; otherwise it is cut as above, or dropped exactly when 2 KiB or less remain or not even its first hunk line, or first line of unparsed text, fits. |
| DiffDelivery.DeliverMember | packages/nokiy/src/codex_collaboration_harness/batch.py:687-698 | Never spends more than the share, inlines everything if it fits, inlines a section whole whenever a larger one is whole, and leaves out nothing that would still fit. |
| DiffDelivery.Phase | packages/nokiy/src/codex_collaboration_harness/batch.py:683-698 | Members are served by ascending need, each with its own share as above; shares start at the even split and never decrease, a member that needs no more than the even split gets everything, and if all fits everyone does. |
| DiffDelivery.InlineDiffs | packages/nokiy/src/codex_collaboration_harness/batch.py:655-709 | Never spends more than the budget left after charges, nothing is cut or omitted if all sections fit, and truncation is marked exactly. |
| MemberDiffs.MemberDelivery | packages/nokiy/src/codex_collaboration_harness/batch.py:666-682 | A recorded text becomes sections that concatenate to it, with the paths of its parse and the exact charge of its worst-case manifest. |
| MemberDiffs.ManifestWithinCharge | packages/nokiy/src/codex_collaboration_harness/batch.py:678-708 | The manifest that is written never encodes longer than the one that was charged. |
| MemberDiffs.ShortExactly | packages/nokiy/src/codex_collaboration_harness/batch.py:700-708 | The manifest names exactly the files that are not inlined whole, as partial if some of their lines are and as omitted otherwise. |
| MemberDiffs.DeliverDiffs | packages/nokiy/src/codex_collaboration_harness/batch.py:655-709 | A member not marked truncated carries exactly its recorded text, nothing is truncated if texts and charges fit, and texts with their manifests never add more than the budget unless the charges alone exceed it. |
| Summary.CompactSummary | packages/nokiy/src/codex_collaboration_harness/batch.py:813-847 | The loops compute the specified compact summary of any well-formed version 1 summary. |
| Summary.ExpandSummary | packages/nokiy/src/codex_collaboration_harness/batch.py:850-888 | The loop computes the specified expansion or refusal. |
| Summary.CompactRoundTrip | packages/nokiy/src/codex_collaboration_harness/batch.py:813-888 | Expanding a compacted summary returns the original if and only if every factored reference has exactly a path, a digest and a size; otherwise it is refused. |
| Summary.CompactsExactly | packages/nokiy/src/codex_collaboration_harness/batch.py:813-847 | A shared field becomes a default if and only if all rows agree on it, and only then leaves the rows; so do the coverage and, if every reference lies where its row says, the references' paths; everything else stays. |
| Summary.ExpandsExactly | packages/nokiy/src/codex_collaboration_harness/batch.py:850-888 | A compact summary is expanded if and only if its rules, defaults and rows are valid, and then every field is the member's own, else the default, with coverage and paths put back. |
| Summary.ExtraFieldRefused | packages/nokiy/src/codex_collaboration_harness/batch.py:813-888 | Counterexample: a well-formed summary that compacts but whose expansion is refused. |
| SummaryEncoding.Measure | packages/nokiy/src/codex_collaboration_harness/batch.py:979-981 | Walking a value yields the length of its ASCII JSON encoding. |
| SummaryText.EncodedLength | packages/nokiy/src/codex_collaboration_harness/batch.py:979-981 | Whatever the order of its fields, the ASCII JSON text of a value has exactly the measured length; every value has such a text. |
| SummaryText.CostIsLength | packages/nokiy/src/codex_collaboration_harness/batch.py:529-531 | The cost of a text is the length of its escaped characters. |
| SummaryContext.DeduplicateContexts | packages/nokiy/src/codex_collaboration_harness/batch.py:891-953 | Exactly the contexts of a row's receipts are replaced whose row has a complete and bound diff, whose files are bound and have all their hunks in it, and whose replacement encodes shorter. |
| SummaryContext.DeduplicatedRestores | packages/nokiy/src/codex_collaboration_harness/batch.py:891-953 | A deduplicated row is never longer, and with the parse of its own inline diff it reads back to the original row if that held no reference yet. |
| SummaryContext.ReplacedIsRecorded | packages/nokiy/src/codex_collaboration_harness/batch.py:891-953 | A context is only replaced against a complete inline diff with the recorded digest and size, and each of its files is the recorded change of that path. |
| SummaryFit.WithTextsSize | packages/nokiy/src/codex_collaboration_harness/batch.py:1007-1022 | Writing texts and flags into a summary changes its encoded length by exactly their difference. |
| SummaryFit.FitTexts | packages/nokiy/src/codex_collaboration_harness/batch.py:1007-1028 | The running size is exact at every iteration, every shortened text is a marked prefix, no text is cut while a larger one is whole, and it stays too large if and only if giving up all texts would not be enough. |
| SummaryFit.DropOptional | packages/nokiy/src/codex_collaboration_harness/batch.py:993-1006 | Optional parts are given up in order, each only while the encoded summary that still holds it is too long. |
| SummaryFit.StageExactly | packages/nokiy/src/codex_collaboration_harness/batch.py:956-1006 | Giving up parts removes exactly the verifier's file texts, then the final replies and postimage contexts, then the previews, then the deliveries, and nothing else. |
| SummaryFit.FitSummary | packages/nokiy/src/codex_collaboration_harness/batch.py:977-1028 | With all rows deduplicated first, the returned summary's encoding is within the limit, it is reported too large if and only if giving up every part and text would not be enough, and no text is shortened while an optional part remains. |
| SummaryFit.ChosenReadsBack | packages/nokiy/src/codex_collaboration_harness/batch.py:977-992 | Before a part is given up, what is to be fitted is no longer than the original, expands to the deduplicated summary unless a factored reference is refused, and every row of that reads back to its original. |
| Deployment.RunDirectory.StartAndSpawn | packages/nokiy/src/codex_collaboration_harness/deployment.py:176-188 | A command is spawned at most once and only after its start record exists. |
| Deployment.RunDirectory.RunStages | packages/nokiy/src/codex_collaboration_harness/deployment.py:158-218 | Without a blocker all three stages ran once, in order, with exit 0, clean scope and matching attestations. |
| Deployment.RunDirectory.RunCloseout | packages/nokiy/src/codex_collaboration_harness/deployment.py:221-253 | The closeout is spawned at most once and verified only if it succeeded with its receipt and its result is durable. |
| Deployment.RunDirectory.Replay | packages/nokiy/src/codex_collaboration_harness/deployment.py:256-270 | An existing directory answers with its own complete terminal of the same plan and otherwise refuses, running nothing. |
| Deployment.RunDirectory.Execute | packages/nokiy/src/codex_collaboration_harness/deployment.py:319-392 | Over any calls and crash points: an existing directory is only read; the terminal says verified, closeout blocked, blocked before the effect or uncertain exactly as the course of the deployment, the start record of the apply stage and a lost report make it, and claims no command that did not run well; a terminal saved whole is what every later call replays, and a smooth environment ends verified. |
| Deployment.RunDirectory.ExecuteTwice | packages/nokiy/src/codex_collaboration_harness/deployment.py:319-330 | A second call for the same plan replays the first call's terminal unless that was uncertain. |
| Deployment.RunDirectory.ExecuteCloseout | packages/nokiy/src/codex_collaboration_harness/deployment.py:273-316 | The same for the standalone closeout: verified only if it ran well, uncertain exactly when it was started without being verified, blocked exactly when it was not started, and replayed by later calls. |
| RecoveryMerge.Recover | packages/nokiy/src/codex_collaboration_harness/durable_recovery.py:616-789 | The loop computes the specified fold of both logs, other kinds of records included, or refuses them. |
| RecoveryMerge.PostimageReported | packages/nokiy/src/codex_collaboration_harness/durable_recovery.py:778-789 | A log with usage and other records between its commands is accepted and reports the postimage read after the edit. |
| RecoveryMerge.RecordCompletion | packages/nokiy/src/codex_collaboration_harness/durable_recovery.py:704-789 | Recording one completion is the specified effect on commands, edits and postimages. |
| RecoveryMerge.MergeIndexed | packages/nokiy/src/codex_collaboration_harness/durable_recovery.py:640-702 | Every accepted log lists each command at most once and completes only declared commands. |
| RecoveryMerge.AcceptedExactly | packages/nokiy/src/codex_collaboration_harness/durable_recovery.py:616-789 | A log is accepted if and only if each event is acceptable after the events before it: declared once, settled as declared, repeated only by the feed and unchanged, reported consistently, and within the limits. |
| RecoveryMerge.MergeLists | packages/nokiy/src/codex_collaboration_harness/durable_recovery.py:676-789 | An accepted log lists one row per first denial or recorded completion of a command, in order, with that event's number and source and exactly what its receipt proves, and every change of every settled patch under its own command. |
| RecoveryMerge.ListingExactly | packages/nokiy/src/codex_collaboration_harness/durable_recovery.py:676-707 | The listed events are exactly the first denials and recorded completions of their commands. |
| RecoveryMerge.PostimagesExactly | packages/nokiy/src/codex_collaboration_harness/durable_recovery.py:744-789 | A postimage is reported if and only if its path was read in the context after an edit and nothing taken in later outdates the read. |
| RecoveryMerge.ReplaysChangeNothing | packages/nokiy/src/codex_collaboration_harness/durable_recovery.py:649-702 | Command events the log already holds, delivered again by the feed under any numbers, in any number and order and at any point, change neither the result nor acceptance. |
| RecoveryMerge.PostimagesFresh | packages/nokiy/src/codex_collaboration_harness/durable_recovery.py:744-789 | Every reported postimage was read in the context after every edit of its path, which has no feed edit, and no unproven patch or edit of it was taken in later. |
| HttpEvidence.DecoderAcceptsGrammar | packages/switchboard/src/nokiy-http-evidence.py:278-306 | The incremental decoder ends valid if and only if the bytes are well-formed UTF-8 by the grammar in section 4 of RFC 3629. |
| HttpEvidence.ReadBody | packages/switchboard/src/nokiy-http-evidence.py:270-292 | Without a fault the body is the first min(n, 1 MiB) bytes of the stream and oversize is reported exactly when there are more. |
| HttpEvidence.Observe | packages/switchboard/src/nokiy-http-evidence.py:230-314 | An observation that returns has recorded and filed what is specified; without a fault it is complete if and only if the stream fits, the status is valid and the header is absent or denotes the stream's length in decimal, and each issue is reported exactly in its case; its record passes the validator if and only if no failing write left bytes in a file that still had room. One that raises leaves no record. |
| HttpEvidence.FailedWriteBreaksRecord | packages/switchboard/src/nokiy-http-evidence.py:276-279 | Counterexample: a full chunk of 64 KiB whose write failed after 4096 bytes reached the file. |
| HttpEvidence.Cached | packages/switchboard/src/nokiy-http-evidence.py:155-214 | The validator serves a receipt if and only if it belongs to the request, every body is what its record says, nothing else is in the directory, and its summary fields follow. |
| HttpEvidence.ReceiptDetermines | packages/switchboard/src/nokiy-http-evidence.py:155-214 | A receipt that is served belongs to one request and determines every file of its directory: no body can be changed, added or removed. |
| HttpEvidence.ServedBodies | packages/switchboard/src/nokiy-http-evidence.py:155-214 | Each body of a served receipt is the recorded bytes of its URL, and is readable as a source if and only if it is complete and valid text. |
| HttpEvidence.ReadableExactly | packages/switchboard/src/nokiy-http-evidence.py:129-135 | Exactly the bodies of complete, valid text are listed as readable. |
| HttpEvidence.ReadEvidence | packages/switchboard/src/nokiy-http-evidence.py:317-366 | A fresh read is served if and only if no observation raised, no failing write left bytes behind and the receipt was written and synced; later reads serve that receipt without the network if and only if it was written at all and the bodies are intact. |
| ReferenceStore.InMemoryStore.constructor | packages/nokiy/src/codex_collaboration_harness/core.py:1360-1392 | A new store has the empty value and satisfies the invariant. |
| ReferenceStore.InMemoryStore.RegisterMission | packages/nokiy/src/codex_collaboration_harness/core.py:1395-1407 | Keeps the invariant and takes the object exactly where the specification goes. Only a newer revision replaces a mission. |
| ReferenceStore.InMemoryStore.RecordRouteDisposition | packages/nokiy/src/codex_collaboration_harness/core.py:1410-1448 | Keeps the invariant and takes the object exactly where the specification goes. One terminal disposition per current route. |
| ReferenceStore.InMemoryStore.RecordMissionSupersession | packages/nokiy/src/codex_collaboration_harness/core.py:1457-1506 | Keeps the invariant and takes the object exactly where the specification goes. Binds old evidence to the current mission. |
| ReferenceStore.InMemoryStore.Claim | packages/nokiy/src/codex_collaboration_harness/core.py:1602-1638 | Keeps the invariant and takes the object exactly where the specification goes. Bumps the versions and enters the lease in all three indexes. |
| ReferenceStore.InMemoryStore.BeginExecution | packages/nokiy/src/codex_collaboration_harness/core.py:1659-1669 | Keeps the invariant and takes the object exactly where the specification goes. Starts a held, never started, non-terminal packet. |
| ReferenceStore.InMemoryStore.RecordStepAttempt | packages/nokiy/src/codex_collaboration_harness/core.py:1672-1752 | Keeps the invariant and takes the object exactly where the specification goes. Recovery binding and step effect ownership included. |
| ReferenceStore.InMemoryStore.ReconcileStepEffect | packages/nokiy/src/codex_collaboration_harness/core.py:1761-1798 | Keeps the invariant and takes the object exactly where the specification goes. Resolves only the exact unsettled effect, once. |
| ReferenceStore.InMemoryStore.RecordBlocker | packages/nokiy/src/codex_collaboration_harness/core.py:1801-1854 | Keeps the invariant and takes the object exactly where the specification goes. Checked against the effective state of its step. |
| ReferenceStore.InMemoryStore.AdmitRecovery | packages/nokiy/src/codex_collaboration_harness/core.py:1857-1964 | Keeps the invariant and takes the object exactly where the specification goes. Duplicate fingerprints, reasons, consumed budget. |
| ReferenceStore.InMemoryStore.PersistTerminal | packages/nokiy/src/codex_collaboration_harness/core.py:1981-2023 | Keeps the invariant and takes the object exactly where the specification goes. From any state in which one packet is being closed. |
| ReferenceStore.InMemoryStore.TerminalizePreExecution | packages/nokiy/src/codex_collaboration_harness/core.py:2026-2055 | Keeps the invariant and takes the object exactly where the specification goes. A blocked receipt without an effect. |
| ReferenceStore.InMemoryStore.RecordExecutionFailure | packages/nokiy/src/codex_collaboration_harness/core.py:2057-2100 | Keeps the invariant and takes the object exactly where the specification goes. One failure per packet. |
| ReferenceStore.InMemoryStore.ReconcileFailure | packages/nokiy/src/codex_collaboration_harness/core.py:2107-2164 | Keeps the invariant and takes the object exactly where the specification goes. Settled ownership, or giving an effect back. |
| ReferenceStore.InMemoryStore.RecordExecution | packages/nokiy/src/codex_collaboration_harness/core.py:2167-2243 | Keeps the invariant and takes the object exactly where the specification goes. Including the writes made before a rejection. |
| ReferenceStore.InMemoryStore.ReconcileEffect | packages/nokiy/src/codex_collaboration_harness/core.py:2245-2288 | Keeps the invariant and takes the object exactly where the specification goes. Without executing again. |
| ReferenceStore.InMemoryStore.BeginDelivery | packages/nokiy/src/codex_collaboration_harness/core.py:2391-2407 | Keeps the invariant and takes the object exactly where the specification goes. Only the current prepared continuation with its stored receipt. |
| ReferenceStore.InMemoryStore.MarkDeliveryUnsettled | packages/nokiy/src/codex_collaboration_harness/core.py:2410-2425 | Keeps the invariant and takes the object exactly where the specification goes. Only the exact started delivery. |
| ReferenceStore.InMemoryStore.AcknowledgeDelivery | packages/nokiy/src/codex_collaboration_harness/core.py:2427-2482 | Keeps the invariant and takes the object exactly where the specification goes. With the receipt the caller hands in. |
| ReferenceStore.InMemoryStore.ReconcileContinuation | packages/nokiy/src/codex_collaboration_harness/core.py:2499-2554 | Keeps the invariant and takes the object exactly where the specification goes. Prepared again, or acknowledged. |
| ReferenceStore.InMemoryStore.VerifyMission | packages/nokiy/src/codex_collaboration_harness/core.py:2557-2653 | Keeps the invariant and takes the object exactly where the specification goes. Snapshot order, verdict, replayed verification. |
| ReferenceStore.InMemoryStore.PrepareContinuation | packages/nokiy/src/codex_collaboration_harness/core.py:2295-2336 | The same, and it never dies on a missing key. |
| ReferenceStore.InMemoryStore.ValidatePacket | packages/nokiy/src/codex_collaboration_harness/core.py:1542-1599 | Returns the specified verdict, with the scans of the mission as loops. |
| ReferenceStore.InMemoryStore.ValidateActiveClaim | packages/nokiy/src/codex_collaboration_harness/core.py:1641-1656 | Accepts exactly the holder of the active lease, with or without the current-mission requirement. |
| ReferenceStore.InMemoryStore.FirstFalse | packages/nokiy/src/codex_collaboration_harness/core.py:1513-1540 | Returns predicate i if and only if it is the first that is not satisfied, by the readback of the revision if there is one and as declared otherwise; nothing if and only if all are satisfied; and is rejected if and only if a truth is indeterminate. |
| ReferenceStore.InMemoryStore.AnyOpenStep | packages/nokiy/src/codex_collaboration_harness/core.py:1966-1979 | The scan finds an unresolved step if and only if one exists, and never meets a missing key. |

## Left out

- Command lines, request shape checks, path admission, prompts, provider traffic and subprocess plumbing: mostly one-branch checks.
- The file-backed Rust runtime, persona tables, release preparation and verification scripts: hashing and template work.
- Source navigation and file change evidence extraction: tied to Python syntax trees and JSON shapes.
- Failure and receipt lookups by packet, counters and the store snapshot: one-line reads.
- Text non-emptiness checks of record constructors are modelled only where an operation repeats them; sorted scopes are reduced to scopes without repetition; several evidence fields of a blocker are one field and its confidence is dropped.
- ReferenceStore.InMemoryStore.Perform: like all methods of the store, works on six table records instead of 29 separate dictionaries; the re-entrant lock itself is not modelled.
- Harness.CollaborationHarness.Execute: the detail text of a packet ended because its start was rejected is empty, because violation texts are not modelled.
- BatchAdmission.Admit: which refusal comes first is not modelled.
- BatchAdmission.DisjointExactly: assumes truthful link counts, directories with one name, and that members make no links while they run.
- Diff.Unified: which hunks a diff has is the differ's choice and an input; only the printed form is modelled.
- Diff.DiffSections: decimal digits are those of Unicode 14.
- MemberDiffs.DeliverDiffs: reading the recorded diff file and checking its digest are not modelled, nor the other fields of the rows.
- Summary.CompactSummary: field names are a datatype with one constructor for all names the code does not know, numbers are integers, and the path of a member file is any function of root, request and name.
- SummaryContext.DeduplicateContexts: SHA-256 of the diff is any function of it; deliveries, receipt lists and entries of them that are not of the expected shape are left alone, where the source raises.
- SummaryFit.FitSummary: the same holds for the lists whose optional parts it drops.
- Deployment.RunDirectory.Execute: plan loading, freshness, lease and file identity checks, attestations and receipts are answers of the environment; signal handling is one such answer.
- RecoveryMerge.Recover: checks of a single record, policy denial recognition and receipt files are flags of the event; which models were observed and the token counts are not modelled.
- HttpEvidence.Observe: time stamps are not modelled, SHA-256 of the body is the body, and whether an observation raises is an input.
- HttpEvidence.ReadEvidence: locking, directory identity, the size limit of the receipt file and its JSON form are not modelled.
- Database reading, file descriptors, symbolic links, flushing to disk, process groups and signals: replaced by the inputs above.
