# Verification of the process execution system

This project models the stateful core of the process execution system in Dafny and proves what its
code promises. `dafny verify dfyconfig.toml` checks all of it.

## What is modelled

**The patch engine** (`Seek`, `Codex`, `CodexParser`, `CodexPrinter`, `Replace`, `Files`, `Plan`,
`Patch`, `Mutations`). A Codex patch is parsed into sections, and every section is planned against a
view of the files that no write has touched yet. Hunks are found by four tiers of looseness and
spliced from the back; text replacements are found, sorted and replaced from the back. The steps
are then committed one by one under looks at the files, and a receipt reports them. A disk is a map
from resolved paths to contents. Its calls fail at will unless it is `reliable`, a call that fails
may still have taken effect, and another writer changes the files between any two calls unless it is
`quiet`; what it does is laid down beforehand and may be anything. Every change made for a run is an
event, with what the last look at the file found and what the change replaced; an event that is not
`ours` is a planned content that a write found already there. What the first look of each write
found is logged. SHA-256 is an injective constructor.

**Request recovery** (`Recovery`, `RecoverySafety`, `RecoveryRuns`, `StoredResponse`). One state
holds the job rows and the outbox, the gateway's session, the daemon's receipts and tasks, and the
queues between them. Each database transaction and each turn of an event loop is a step, and so are
disconnects on either side, messages lost from the end of a queue whose sender is gone, restarts of
the gateway and of the daemon, crashes between a commit and the message after it, revocation,
expiry and the clock. A run is any sequence of steps, and the theorems are about every run from the
initial state. The daemon's table is the one of `Receipts`.

**Receipt accounting** (`Receipts`), **the output journal** (`Journal`), **the run spool**
(`Spool`), **the registry and its listing** (`Registry`, `Listing`), **webhook leases**
(`Webhooks`) and **Windows argument quoting** (`WindowsQuote`) are each a class or loop as in the
source, proved against a specification on values, with the promises proved about that
specification. `Errors`, `Output`, `Sorting`, `Text` and `Wrappers` hold what several modules share.

Five promises are not true of the code as they read; for each there is an input and the exact
condition. Updated files are not normalised to LF, as a comment has it (patch.rs line 894): a CR
stays in every line that no hunk takes, and in every new line that has one (`Codex.CrSurvives`).
Reading a rewritten file back loses one blank line at its end (`Codex.AppliedReadsBack`). An old
text that is accepted as unique may occur twice when it overlaps itself
(`Replace.UniqueUnlessBordered`). An exact receipt may claim a change that another writer made
between the last look and the write (`Patch.ExactUnlessForestalled`), and the hash it gives for the
contents before a change is that of the last look, not of what another writer may have left since
(`Patch.RecordedBefores`). The model follows the code.

## Model

| member | source | states |
|---|---|---|
| `Seek.Run` | packages/process-execution-core/src/filesystem/patch.rs:951-988 | the loops of `seek` compute the tier-by-tier search, with its work limit as an error; `SeekMeaning` and `SeekWork` say what that search finds and charges |
| `Seek.LineTiersNest` | packages/process-execution-core/src/filesystem/patch.rs:976-981 | a pair of lines that matches at one tier matches at the next looser one |
| `Seek.TiersNest` | packages/process-execution-core/src/filesystem/patch.rs:963-984 | a window that matches at one tier matches at every looser one |
| `Seek.SeekMeaning` | packages/process-execution-core/src/filesystem/patch.rs:951-988 | a search that does not exhaust its work returns the leftmost window of the strictest tier that has any match in range; `None` if and only if no window in range matches at the loosest tier; the work stays within the limit |
| `Seek.BestIsUnique` | packages/process-execution-core/src/filesystem/patch.rs:963-986 | that description fits one window and one tier only |
| `Seek.SeekWork` | packages/process-execution-core/src/filesystem/patch.rs:951-988 | for every search over lines the work is exactly one pattern length for each window looked at: all windows of the tiers stricter than that of the match and those up to the match, or all windows of the four tiers; a pattern longer than the file costs nothing |
| `Codex.LocateMeaning` | packages/process-execution-core/src/filesystem/patch.rs:900-940 | each hunk that is located is an insertion at end of file, or new lines for the leftmost window of the strictest tier that matches its old lines from its cursor on, tried with and then without a trailing empty line, behind its anchor if it has one |
| `Codex.LocateInOrder` | packages/process-execution-core/src/filesystem/patch.rs:900-940 | in hunk order the ranges lie in the file and never run backwards, and each carries the new lines of its hunk |
| `Codex.SortMovesInsertionsBack` | packages/process-execution-core/src/filesystem/patch.rs:941 | the stable sort leaves the ranges inside the file in hunk order and puts the insertions at its end behind them, in hunk order |
| `Codex.SpliceBackwards` | packages/process-execution-core/src/filesystem/patch.rs:942-944 | splicing from the back equals one forward pass that copies the lines between the ranges and writes the new lines of each |
| `Codex.Apply` | packages/process-execution-core/src/filesystem/patch.rs:895-949 | `apply_codex` fails exactly when some hunk cannot be located in order, with that error, and otherwise gives the one forward rewrite of the original lines, closed by the final LF |
| `Codex.LinesConserved` | packages/process-execution-core/src/filesystem/patch.rs:941-944 | the rewritten file has the original lines minus those the hunks remove plus those they add |
| `Codex.AppliedReadsBack` | packages/process-execution-core/src/filesystem/patch.rs:895-949 | read again, the result has the rewritten lines if and only if these do not end in a blank line; otherwise exactly that one is gone |
| `CodexParser.ParsedUpdateReadsBack` | packages/process-execution-core/src/filesystem/patch.rs:790-949 | so it is for every update that a parsed patch asks for, whatever the file: hunk lines hold no LF |
| `Codex.TrailingBlankLineIsLost` | packages/process-execution-core/src/filesystem/patch.rs:895-949 | an input for which a line is lost: replacing "a" by "b" in "a\n\n" gives "b\n" |
| `Codex.RewrittenMembers` | packages/process-execution-core/src/filesystem/patch.rs:941-944 | the lines of the rewritten file are exactly the original lines that no hunk takes and the new lines of the hunks |
| `Codex.CrSurvives` | packages/process-execution-core/src/filesystem/patch.rs:894-949 | the result has a CR if and only if an original line that no hunk takes, or a new line, has one: endings are not normalised |
| `Codex.NoCrNoneAfter` | packages/process-execution-core/src/filesystem/patch.rs:894-949 | a file and hunks without CR give a result without CR |
| `Codex.UntouchedCrIsKept` | packages/process-execution-core/src/filesystem/patch.rs:894-949 | an input whose CR stays: adding a line to "a\r\nb\n" |
| `CodexParser.ParseSection` | packages/process-execution-core/src/filesystem/patch.rs:803-889 | one turn of the section loop reads one section and advances the line index by at least one, on every input |
| `CodexParser.ParseCodex` | packages/process-execution-core/src/filesystem/patch.rs:790-892 | the loops of `parse_codex` compute the section grammar `Parse`, which `PrintThenParse` inverts, with the source's errors |
| `CodexPrinter.PrintThenParse` | packages/process-execution-core/src/filesystem/patch.rs:790-892 | printing any list of well-formed sections canonically and parsing the text gives the same list |
| `Replace.LocateEdits` | packages/process-execution-core/src/filesystem/patch.rs:1020-1050 | the search loop stops at the first edit that is empty, over the work limit, not found or found again after its first match, and otherwise gives the range and the normalised new text of each |
| `Replace.FindOverlap` | packages/process-execution-core/src/filesystem/patch.rs:1051-1054 | after sorting by start, no overlap between neighbours means that no two ranges overlap, and an overlap that is reported is one |
| `Replace.ReplaceBackwards` | packages/process-execution-core/src/filesystem/patch.rs:1055-1058 | replacing range by range from the back equals the simultaneous substitution over the set of ranges |
| `Replace.Apply` | packages/process-execution-core/src/filesystem/patch.rs:1005-1072 | `apply_replacements` succeeds if and only if every edit is found once, the ranges are disjoint and the text changes; the result is the simultaneous substitution in the text's own line endings and with its byte order mark; each error is explained |
| `Replace.OrderDoesNotMatter` | packages/process-execution-core/src/filesystem/patch.rs:1021-1058 | any rearrangement of the edits succeeds equally and with the same text |
| `Replace.OutputEndings` | packages/process-execution-core/src/filesystem/patch.rs:1062-1071 | the byte order mark is kept; the endings are all CR LF when the first one was and otherwise there is no CR; normalised again the output is the substituted text |
| `Replace.AcceptedMeaning` | packages/process-execution-core/src/filesystem/patch.rs:1036-1043 | an old text is accepted if and only if it has a leftmost match that every other match overlaps |
| `Replace.UniqueUnlessBordered` | packages/process-execution-core/src/filesystem/patch.rs:1036-1043 | acceptance means a single occurrence in every file if and only if no proper suffix of the old text is a prefix of it |
| `Replace.OverlapIsAccepted` | packages/process-execution-core/src/filesystem/patch.rs:1036-1043 | an input for which two occurrences are accepted: "aa" in "aaa" |
| `Files.Disk.ReadOptional` | packages/process-execution-core/src/filesystem/patch.rs:507-513 | a missing file is an answer, a file over the limit and a failing call are errors |
| `Files.Disk.Verify` | packages/process-execution-core/src/filesystem/patch.rs:495-505 | success means the path holds exactly what is expected, or nothing when nothing is; without failures and other writers it succeeds whenever that is so |
| `Files.Disk.WriteThrough` | packages/process-execution-core/src/filesystem.rs:321-343 | the file is replaced only behind a second look that meets the precondition, whatever is there when the rename comes; a temporary file stays behind only when its removal fails |
| `Files.Disk.WriteFileAt` | packages/process-execution-core/src/filesystem.rs:274-351 | what the first look finds decides: the data already there is done, and a claimed change exactly when the precondition was another; a failed precondition means nothing was written; otherwise success means this call wrote the data behind a second look that met the precondition, and after an error it may have |
| `Plan.PlanState.Resolve` | packages/process-execution-core/src/filesystem/patch.rs:517-592 | two spellings of one target are refused, and only that or a path that does not resolve, with its error |
| `Plan.PlanState.Look` | packages/process-execution-core/src/filesystem/patch.rs:594-618 | a path is read the first time only, and what is found is both its original and its current contents; the limits are exact |
| `Plan.PlanState.Transform` | packages/process-execution-core/src/filesystem/patch.rs:671-682 | new text comes from the engines alone: it is exactly what they make of the current text, and it fails exactly when the file is missing, is not UTF-8 or they refuse |
| `Plan.PlanState.PlanSection` | packages/process-execution-core/src/filesystem/patch.rs:620-757 | a planned step does what its section asks for, fits the view before it and advances the view; without failures and other writers a section is planned if and only if `CanPlan` holds of it |
| `Plan.AdvanceSimulates` | packages/process-execution-core/src/filesystem/patch.rs:268-277 | after any number of planned sections, taking the steps in order from the originals passes every check and ends in the current contents of the view |
| `Plan.SimulateGrow` | packages/process-execution-core/src/filesystem/patch.rs:600-616 | paths brought into the view later do not disturb the steps planned before |
| `Patch.PlanningSimulatesCommitting` | packages/process-execution-core/src/filesystem/patch.rs:280-357 | planning simulates committing: from the files the plan was made from, every step finds what it expects, every viewed path ends with the plan's current contents and no other path is touched, with repeated paths and moves onto existing files |
| `Patch.PatchReceipt.Fail` | packages/process-execution-core/src/filesystem/patch.rs:110-123 | an error makes the receipt rejected when it has no changes and none is uncertain, and partial otherwise |
| `Patch.CommitStep` | packages/process-execution-core/src/filesystem/patch.rs:299-327 | one step under any failures and any other writer: done means exactly its claimed changes; after a failure at most one more change than the destination of a move; a failed precondition means none; before each change of its own the last look at the file found the contents that the record names |
| `Patch.CommitNext` | packages/process-execution-core/src/filesystem/patch.rs:287-356 | one turn of the commit loop: the record added covers what was done, including the destination of a move whose source is still there; the changes not its own are exactly those its first look found made; overtaken by another writer between the last look and the write, the step counts as done |
| `Patch.CommitSteps` | packages/process-execution-core/src/filesystem/patch.rs:286-357 | the commit loop keeps the receipt honest, accounts for every change that another writer made for it, and without another writer keeps the files where the plan has them after the committed steps |
| `Patch.ReceiptIsHonest` | packages/process-execution-core/src/filesystem/patch.rs:286-357 | `Applied` if and only if every step was committed, with one record each; `Rejected` only if this run changed no file; exact records are exactly the changes in order, inexact ones miss at most one |
| `Patch.ExactUnlessForestalled` | packages/process-execution-core/src/filesystem.rs:291-299 | what an exact receipt claims is what the run changed itself and what the first looks of its writes found changed already; so it lists the run's own changes, in order, if and only if no first look found the planned contents where others had been planned from, destinations of moves included |
| `Patch.AnotherWritersChangeIsClaimed` | packages/process-execution-core/src/filesystem/patch.rs:287-356 | a run for which such a claim is made, whatever the contents: no call fails, another writer is faster, and the step is committed with an exact record while the run has changed nothing |
| `Patch.RecordedBefores` | packages/process-execution-core/src/filesystem.rs:321-343 | the hash before each change of the run's own, in an exact receipt, is that of what the last look at the file found; all of them are those of what was replaced if and only if nobody wrote between a last look and its change |
| `Patch.AnotherWritersContentsAreLost` | packages/process-execution-core/src/filesystem/patch.rs:287-356 | a run for which such a hash is wrong, whatever the contents: no call fails, another writer comes behind the second look, and its contents are replaced under an exact record that names others |
| `Patch.VerifyAll` | packages/process-execution-core/src/filesystem/patch.rs:278-285 | success means every viewed path held its original contents at its own look, and without another writer that all of them do; without failures either it does succeed |
| `Patch.ItemsMeaning` | packages/process-execution-core/src/filesystem/patch.rs:215-267 | a request that is read has 1 to 32 files and at most 256 edits, at least one for each file, no update without hunks, no hunk without lines and no replacement list without edits; and exactly when each error comes, a patch without sections getting that of one with too many |
| `Patch.Execute` | packages/process-execution-core/src/filesystem/patch.rs:213-366 | the whole run: the receipt is honest for the plan made; an exact one lists the run's own changes if and only if no write was forestalled, and what they replaced if and only if nobody wrote in between; a request that was not planned changed nothing; without another writer the files follow the plan; when no call fails either, a request is planned if and only if its sections can be one after the other, and then every viewed path ends as planned and no other changes |
| `Mutations.FileMutationRegistry.ApplyPatch` | packages/process-execution-core/src/filesystem/patch.rs:150-210 | a known mutation identifier is answered from the registry, or refused for other arguments, without touching a file; a new one is carried out once, with all that `Execute` promises of the run and its receipt, and remembered; entries are never changed |
| `RecoverySafety.FinishKeeps` | apps/execution-gateway/src/jobs.rs:430-487 | settling a job, with its outbox row in the same transaction, keeps the protocol invariant |
| `RecoverySafety.RespondKeeps` | apps/execution-gateway/src/jobs.rs:599-638 | storing a response settles the job, as unknown when its recovery window has expired, and keeps the invariant |
| `RecoverySafety.AcceptKeeps` | apps/execution-gateway/src/jobs.rs:700-705 | recording an acceptance keeps the invariant |
| `RecoverySafety.WindowsKeep` | apps/execution-gateway/src/jobs.rs:659-677 | starting the recovery windows, at a disconnect or at a restart, keeps the invariant |
| `RecoverySafety.ConnectKeeps` | apps/execution-gateway/src/jobs.rs:679-698 | reconnecting takes up every job in flight of this generation and marks all others for settlement |
| `RecoverySafety.DispatchKeeps` | apps/execution-gateway/src/jobs.rs:553-597 | a dispatch takes a queued job that has never been dispatched, within the places left, whether or not its request then reaches the daemon |
| `RecoverySafety.GatewayTakesKeeps` | apps/execution-gateway/src/connections.rs:303-331 | each message of the daemon is taken by the gateway with the invariant kept: the result is committed before the acknowledgement, and a crash in between is covered |
| `RecoverySafety.RevokeOneKeeps` | apps/execution-gateway/src/connections.rs:194-200 | a revoked session settles its pending jobs as unknown |
| `RecoverySafety.HousekeepKeeps` | apps/execution-gateway/src/jobs.rs:716-740 | dispatch timeouts and expired windows settle their jobs with the invariant kept |
| `RecoverySafety.AcceptRequestKeeps` | apps/process-execution-host-daemon/src/connection.rs:286-341 | a request the daemon takes gets a receipt and a task together, or an answer without either |
| `RecoverySafety.ReceiptMessageOk` | apps/process-execution-host-daemon/src/connection.rs:343-359 | what the daemon says about a receipt is true: a response is one it made, and what it calls missing was settled or never carried out |
| `RecoverySafety.DaemonTakesKeeps` | apps/process-execution-host-daemon/src/connection.rs:218-271 | each message of the gateway is taken by the daemon with the invariant kept |
| `RecoverySafety.CompleteKeeps` | apps/process-execution-host-daemon/src/connection.rs:314-318 | a finished task finds its pending receipt, and its response is one the daemon made under its generation |
| `RecoverySafety.StepKeepsInv` | apps/execution-gateway/src/connections.rs:209-343 | every step of either side, of the network or of the clock keeps the protocol invariant |
| `RecoveryRuns.AtMostOnce` | apps/execution-gateway/src/jobs.rs:552-597 | in every run each job's request reaches the dispatcher at most once |
| `RecoveryRuns.ResponsesAreGenuine` | apps/execution-gateway/src/jobs.rs:599-638 | in every run a stored response is one the daemon produced for that job in its pinned generation |
| `RecoveryRuns.AcceptedWasRun` | apps/execution-gateway/src/jobs.rs:700-705 | in every run a job that the gateway records as accepted was carried out, once |
| `RecoveryRuns.AcceptedIsHeld` | apps/process-execution-host-daemon/src/connection.rs:286-341 | in every run an unsettled job that was carried out, and so every job that the gateway records as accepted, has its receipt at the daemon while its generation lives |
| `RecoveryRuns.RecoverIsAnswered` | apps/process-execution-host-daemon/src/connection.rs:249-254 | asking to recover such a job is answered by its acceptance or its response |
| `RecoveryRuns.MissingWasNeverRun` | apps/execution-gateway/src/connections.rs:324-329 | a job settled as `receipt_missing` was never carried out and never will be |
| `RecoveryRuns.ReleasedOnlyWhenSettled` | apps/execution-gateway/src/connections.rs:313-318 | between any two points of a run in one generation, a receipt is released only if its job is settled |
| `RecoveryRuns.InFlightIsBounded` | apps/execution-gateway/src/connections.rs:290-302 | in every run at most 32 ordinary and 36 jobs in all are in flight, and a ready session waits for each of them |
| `RecoveryRuns.OutboxOnce` | apps/execution-gateway/src/jobs.rs:466-486 | in every run a job settled under a callback has exactly one outbox row, with its result, and any other job has none |
| `RecoveryRuns.RowsOnlyMoveForward` | apps/execution-gateway/src/jobs.rs:430-744 | between any two points of a run: a settled row never changes, a pinned generation never changes, and from an expired window a job only becomes unknown |
| `RecoveryRuns.NoJobHangs` | apps/execution-gateway/src/jobs.rs:659-744 | in every reachable state without a session each job in flight has a recovery window of at most 24 hours running, and housekeeping after its end settles it as unknown |
| `RecoveryRuns.ARunCompletes` | apps/execution-gateway/src/connections.rs:209-343 | the protocol is not stuck: a run exists in which a response is stored and acknowledged |
| `StoredResponse.StripKeepsTheRest` | apps/execution-gateway/src/jobs.rs:640-657 | the stored response has a value at a path exactly when the response has one and the path does not go through the command of an execution, and every scalar kept is unchanged |
| `StoredResponse.StripTwice` | apps/execution-gateway/src/jobs.rs:640-657 | stripping is idempotent |
| `Receipts.Receipts.Accept` | apps/process-execution-host-daemon/src/receipts.rs:30-50 | a new identifier gets a pending receipt and a reservation; a known one is recognised or refused by its fingerprint; a full table refuses, and nothing else changes |
| `Receipts.Receipts.Complete` | apps/process-execution-host-daemon/src/receipts.rs:52-60 | the response is stored and the reservation replaced by its length, without underflow |
| `Receipts.Receipts.NextResponse` | apps/process-execution-host-daemon/src/receipts.rs:70-78 | any completed receipt not sent yet, and none only when there is none |
| `Receipts.Receipts.Acknowledge` | apps/process-execution-host-daemon/src/receipts.rs:80-85 | a completed receipt is released with its charge; a pending one is not |
| `Receipts.AtMost32Pending` | apps/process-execution-host-daemon/src/receipts.rs:7-8 | 256 MiB of reservations hold at most 32 pending receipts |
| `Receipts.RunKeepsInv` | apps/process-execution-host-daemon/src/receipts.rs:30-85 | in every reachable state the accounting is exact and bounded, at most 128 receipts and 32 pending ones exist, and every running task finds its pending receipt |
| `Receipts.ReceiptsSurvive` | apps/process-execution-host-daemon/src/receipts.rs:22-24 | no receipt is dropped before it is acknowledged, and a stored response is never replaced |
| `Receipts.PendingReceiptsSurvive` | apps/process-execution-host-daemon/src/receipts.rs:80-85 | acknowledging a request that still runs releases nothing |
| `Receipts.AcknowledgeReleases` | apps/process-execution-host-daemon/src/receipts.rs:80-85 | an acknowledgement gives back exactly what the response was charged |
| `Journal.Journal.Append` | packages/process-execution-core/src/journal.rs:27-41 | appending and trimming leave exactly the newest `capacity` bytes of the full history |
| `Journal.CollectedIs` | packages/process-execution-core/src/journal.rs:66-89 | the walk over the chunks takes exactly what the history has in the range asked for |
| `Journal.Journal.Read` | packages/process-execution-core/src/journal.rs:43-105 | a read returns exactly the tagged history from the later of cursor and retained start to the next cursor; a gap is reported if and only if requested bytes were discarded; `has_more` implies `OutputLimit`; foreign and future cursors are refused |
| `Journal.ReadersLoseNothingUnreported` | packages/process-execution-core/src/journal.rs:27-105 | across every interleaving of appends and reads a reader that sees no gap has exactly the history up to its cursor, and gaps are reported exactly when bytes are missing |
| `Journal.NewReaderCollectsHistory` | packages/process-execution-core/src/journal.rs:43-105 | a reader without a cursor collects the history prefix if and only if it never sees a gap |
| `Journal.RepeatedReadsDrain` | packages/process-execution-core/src/journal.rs:43-105 | enough reads of a journal that no longer changes return everything retained |
| `Spool.OutputSpool.Append` | packages/process-execution-core/src/session.rs:99-123 | any partial or failed writes leave the file a prefix of the capture with its length and digest, all of it unless a call on the file failed or wrote nothing; only then the spool fails, and it is not written to again |
| `Spool.OutputSpool.AppendTail` | packages/process-execution-core/src/session.rs:125-144 | the tail is the end of the history, min(captured, capacity) tagged bytes of it |
| `Spool.OutputSpool.Preview` | packages/process-execution-core/src/session.rs:160-175 | the preview is the last `limit` bytes of the tail |
| `Spool.OutputSpool.RunResult` | packages/process-execution-core/src/session.rs:280-304 | complete implies that the file is the whole capture, and not truncated implies that the preview is |
| `Registry.Registry.Cleanup` | packages/process-execution-core/src/runtime.rs:814-847 | exactly the entries whose retention has ended are dropped, with their keys in every index |
| `Registry.Registry.AdmitStart` | packages/process-execution-core/src/runtime.rs:213-289 | a known start with the same arguments is always found again and one with other arguments always refused as a conflict, also while shutting down or at capacity; only a new one is refused for these, or admitted under the next sequence within the limits; nothing else changes |
| `Registry.Registry.AdmitRun` | packages/process-execution-core/src/runtime.rs:363-442 | the same for runs; only a new run can fail for its spool file, and a termination that came first is consumed by the run it names |
| `Registry.Registry.ListExecutions` | packages/process-execution-core/src/runtime.rs:680-742 | a page is the scan of the table after expiry up to the snapshot bound, its cursor continues after its last execution, and bad cursors are refused exactly |
| `Registry.RemoveKeepsIndexed` | packages/process-execution-core/src/runtime.rs:836-846 | removing an entry leaves the indexes naming exactly the live entries |
| `Registry.InsertKeepsIndexed` | packages/process-execution-core/src/runtime.rs:266-280 | inserting one does too |
| `Registry.UnknownIds` | packages/process-execution-core/src/runtime.rs:219-228 | an identifier that is in no index belongs to no entry |
| `Registry.FollowCursors` | packages/process-execution-core/src/runtime.rs:680-742 | a client that follows the cursors with any page sizes, while anybody admits, ends, expires or shuts down in between, is never refused, comes to a last page, and its pages are those of `Listing.PagesCoverTheSnapshot` |
| `Listing.ScanAscends` | packages/process-execution-core/src/runtime.rs:706-730 | a page ascends within its range, has at most `limit` entries, all matching, and has more only when it is full |
| `Listing.ScanSkipsNothing` | packages/process-execution-core/src/runtime.rs:706-730 | a matching entry in range is on the page or after its last one |
| `Listing.PagesCoverTheSnapshot` | packages/process-execution-core/src/runtime.rs:680-742 | following the cursors while the table changes: nothing comes twice, nothing accepted after the first page comes at all, and what stays and matches throughout comes exactly once |
| `Webhooks.Delivery.ClaimNext` | apps/execution-gateway/src/webhooks.rs:173-212 | a claim closes what a lost lease left open and opens the next numbered attempt under a new lease, or gives the delivery up after 8 attempts or a day |
| `Webhooks.Delivery.Finalize` | apps/execution-gateway/src/webhooks.rs:315-344 | an outcome is recorded only under a lease in force, on the attempt that was claimed; a stale or expired lease changes nothing |
| `Webhooks.Delivery.Redeliver` | apps/execution-gateway/src/webhooks.rs:130-154 | a new cycle starts after the last attempt, only when the previous one has ended |
| `Webhooks.RunKeepsInv` | apps/execution-gateway/src/webhooks.rs:173-344 | in every run a lease exists exactly while delivering, attempts are numbered 1 to n, the only unfinished one is the last and exists exactly while delivering, each cycle makes at most 8, and an outcome once written stays |
| `Webhooks.StaleClaimsStayStale` | apps/execution-gateway/src/webhooks.rs:315-321 | a claim whose lease is gone never finalizes anything again |
| `WindowsQuote.Quote` | packages/process-execution-core/src/backend/windows/native.rs:352-383 | the loop of `quote` computes the quoted form that `QuotedParses` reads back, and refuses NUL |
| `WindowsQuote.BodyParses` | packages/process-execution-core/src/backend/windows/native.rs:365-382 | inside quotes the parser recovers any pending run of backslashes and the rest of the argument |
| `WindowsQuote.QuotedParses` | packages/process-execution-core/src/backend/windows/native.rs:352-383 | one quoted argument reads back as itself wherever it stands in the line |
| `WindowsQuote.JoinedParses` | packages/process-execution-core/src/backend/windows/native.rs:176-194 | every argument list, with empty arguments and runs of backslashes, is read back unchanged |
| `WindowsQuote.AppendArguments` | packages/process-execution-core/src/backend/windows/native.rs:176-194 | the argument loop builds a line that names exactly the given arguments, and fails exactly when one holds NUL |

## Left out

- Codex.Apply: counts positions in lines and characters, not bytes; a file is a text or bytes that are not UTF-8.
- Plan.PlanState.Resolve: takes the target of every path and whether it is a symbolic link as given; path resolution, directories, permissions and hard links are not part of this model.
- Files.Disk.WriteFileAt: only the conditional mode that patches use; overwriting through symbolic links and the other file operations are not modelled.
- Patch.PlanningSimulatesCommitting: the files are a flat map, so that a plan in which one path lies below another is not excluded: after adding `d/x`, adding `d` would meet a directory at its second check (filesystem.rs:434-438) and stop there.
- Patch.Execute: says which plans are made (`Plan.CanPlanAll`) and what they do, not which error code a section that cannot be planned gets.
- Mutations.FileMutationRegistry.ApplyPatch: the size of the encoded request is a parameter, and a panic of the worker thread is not modelled.
- Receipt display: the diff text, byte counts, first changed line and messages.
- RecoveryRuns.AtMostOnce: sessions of peers that did not negotiate recovery; their dispatched work only becomes unknown.
- RecoveryRuns.ResponsesAreGenuine: keeps the response whole; what `strip_execution_commands` takes out of it is the subject of `StoredResponse`, and which responses report success is a parameter.
- RecoverySafety.DispatchKeeps: which queued job goes first; any may.
- RecoverySafety.AcceptRequestKeeps: whether the daemon is busy is arbitrary; heartbeats, full output queues and timeouts are disconnects that may happen at any time.
- Recovery event loops: `connections.rs` and `connection.rs` are steps on values rather than classes, so that both sides and the network can be interleaved freely.
- Journal.Journal.Append: offsets do not wrap at 64 bits, nor do the other counters.
- Spool.OutputSpool.Append: expects no append after `finalize`, as the session joins its readers first.
- Registry.Registry.AdmitRun: whether the spool file can be created is a parameter; launching, observing and terminating sessions are not modelled.
- Webhooks.Delivery.Finalize: the jitter is any value in its range; sending the callback, signatures and secrets are not modelled.
- WindowsQuote.AppendArguments: the quoting of the executable and of `cmd /c` tails, which follow other rules.
- HTTP, JSON decoding, SQL text, TLS, WebSocket framing, users, keys and machines.
- Batches, configuration checks, waiting for job completion, shells and environment snapshots, process control.
