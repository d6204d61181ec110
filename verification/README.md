# Verification of the LLM file gateway

A Dafny 4.11 project beside the gateway. It models how uploaded files live and die
in the gateway (upload, conversion with retries, reading, deletion, expiry, crash and
restart) and the algorithms around that life cycle (paging, work queue, text of HTML
documents, expansion of inference requests, request slots, converter registry,
conversion output, expiry arithmetic), and proves properties of the model for all
inputs, all runs and all interleavings.

`dafny verify dfyconfig.toml` checks everything.

## How it is organised

**The file life cycle** is a state machine.

- `Rows` has the file rows and the SQL statements as functions on a map of rows.
- `World` is the state: rows, directories, the process memory (queue, timers, the tables
  `conversions`, `leases`, `deleting`, `retryCount`) and a program counter for each upload,
  worker, reader and deletion. Their number is not bounded.
- `Actions` has one predicate for each atomic step: a critical section, a store call or a
  file-system call. `Protocol` lets any enabled step of any actor happen at any time,
  among them a crash.
- `Invariant` is the inductive invariant in twenty-one parts, `Moves` and the `Keep...` modules
  prove that every step keeps every part, `Safety` lifts this to runs.
- `Jobs`, `Retries`, `Outcomes`, `Files`, `Deletion`, `Answers`, `Visibility`, `TableSteps` and
  `Recovery` draw the conclusions about what happens in every run; `Progress`, `Processing`,
  `Requests` and `RestartPath` about what can be brought about in steps of which none fails.
  `Stranding` is a concrete run in which a file is left without a job.
- `Tables`, `Store`, `WorkQueue` and `Recovery` hold the same operations as classes with
  methods and loops; `TableSteps` shows that the step model changes its tables exactly as
  the methods do. `FileNames` justifies that file IDs are numbers in the model.

The heart of the safety proof is a fact the code never states: a file never has two live
jobs. The history variable `owner` names the one place where the job of a file can be,
which makes that fact inductive. Only then is the single entry of `conversions` enough
for a deletion to wait for.

**The algorithms** are in `Paging` and `Listing`, `WorkQueue`, `Html`, `Payload`, `Documents`
and `Inference`, `Slots`, `Registry`, `Conversion`, and `Expiry`. Code that updates variables
in loops is a method with loops, proved against a function; what the code is for is then
proved about that function, against a second description where there is one: pages
against one sorted list, extracted text against the text nodes of the tree, expanded
content against in-place replacement, selected images against the first ones of the
manifest, occupancy against the requests in progress.

## Assumptions of the model

- A store call that returns an error changed nothing. Disk writes are durable in
  program order. File IDs are fresh. Requests are served only after `Run` has returned
  (`cmd/llm-file-gateway/main.go:90-98`).
- A cancelled context shows as an error return, which the model may choose at any call.
  Cancelling a conversion is therefore not a step of its own.
- `os.RemoveAll` may fail and leave any part of a directory; the file is then recorded as
  torn. Its row is marked by then, except for a failed upload, which has no row.
- The janitor is any number of deletion attempts, each with its own record of an
  `Expired` query. One janitor goroutine with one list of records is a special case.
- The bounded and the unbounded queue look the same to the workers: an enqueue happens
  at some time or is dropped when its context is done.
- No waiter exists for the `done` channel of a deletion marker, so closing it has no effect
  in the step model.
- The clock never goes back. Timers fire at any time. Backoff delays are counted, not
  waited for.
- History variables (`History` in `World`) are observations. No guard reads them.

## Steps of the protocol

Each predicate of module `Actions` and the lines of `internal/files/service.go` it stands
for.

| predicate | lines |
|---|---|
| `Run`, `Resubmit` | 140-165 |
| `Interrupt`, `CloseLifecycle` | 169-178 |
| `ReconcileDir` | 183-231 |
| `CreateDir`, `WriteSource`, `AddRow`, `CleanupDir`, `SubmitJob` | 243-321, 546-550 |
| `FindFile`, `OpenFile` | 381-460 |
| `AcquireLease`, `ReleaseLease` | 466-498 |
| `Take`, `Quit` | 563-580 |
| `BeginConversion`, `EndConversion`, `SignalDone` | 582-616 |
| `LookupRow`, `ClaimStatus`, `StartConvert` | 698-731 |
| `ConvertWrites`, `ConvertReturns`, `PublishStatus`, `RejectFile` | 724-766 |
| `HandleErr`, `GiveUpJob`, `FileActive`, `ForgetRetries` | 641-690, 757-766 |
| `BumpRetry`, `ArmTimer`, `FireTimer` | 553-560, 692-694 |
| `FindVictim`, `FindExpired` | 329-336, 785-791 |
| `BeginDeletion`, `EndDeletion`, `MarkRow` | 337-348, 522-542, 792-807 |
| `LookForConversion`, `CheckActive`, `ConversionDone` | 621-636 |
| `LookForLease`, `CheckRefs`, `LeaseDone` | 502-517 |
| `DeleteDir`, `DeleteRow` | 351-357, 810-816 |

`Boot` is `cmd/llm-file-gateway/main.go:57-61`.

## What the code does not give

- Paging skips nothing and repeats nothing only while each cursor row is physically in the
  table or nothing that matches lies before it. Otherwise the next page starts again from the
  top: `Paging.RemovedCursorRepeats` shows it, `Paging.ContinuesExactlyWhen` says exactly
  when.
- A requested lifetime is kept exactly up to 9223372036 seconds and never beyond
  (`Expiry.LifetimeAsRequested`). Without a configured lifetime a larger request is
  accepted, and the largest one makes a file that never expires
  (`Expiry.HugeRequestNeverExpires`).
- A row with a negative expiry that has passed would be neither visible nor collected
  (`Visibility.SeenOrCollected`). `Create` never writes one.
- Not every pending file has a job. A store error inside `markFailed` or `fileActive` leaves
  it without one until the next start: `Stranding.StoreErrorsStrand` is a run in which that
  happens, and `Jobs.ExactlyOneJob` says that it happens to exactly the files that met such
  an error.

## Model

| member | source | states |
|---|---|---|
| `Safety.RunKeepsInv` | internal/files/service.go:38-74 | the invariant of the service holds in every state of every run: any interleaving of uploads, workers, retries, readers, deletions, crashes and restarts |
| `Safety.NextKeepsInv` | internal/files/service.go:38-74 | each single step of any actor keeps every part of the invariant |
| `Jobs.AtMostOneJob` | internal/files/service.go:546-591 | in every run a file has at most one live job among creator, backlog, queue, timers and workers, and none of these holds it twice |
| `Jobs.ExactlyOneJob` | internal/files/service.go:140-165 | while the service is up, a visible file that is uploaded or processing has a job that can still settle it if and only if no store error in markFailed or fileActive stranded it, and never a second one |
| `Stranding.StoreErrorsStrand` | internal/files/service.go:659-676 | a concrete run of 14 steps, with one upload and two failed lookups, after which the uploaded, visible file has no job anywhere while the service is up |
| `Jobs.RetriesAreBounded` | internal/files/service.go:641-694 | within one process Convert is called at most 4 times for a job, the count stays at most 3, after n retries the delays sum to 2^n - 1 seconds, and a count is kept only while a job exists |
| `Outcomes.EachStepIsRecorded` | internal/files/service.go:698-779 | in every run the row of a file after any step is the one an independent description says: processing after a claim, processed with its own manifest and no error after a conversion that ended well, failed with its message after a failure, marked with the time by its deletion, gone by its removal; every other step leaves it, and a marked row gets no status |
| `Outcomes.RecordedIsThere` | internal/files/service.go:724-750 | a row appears only as that of a new upload whose source is written, and becomes processed only when its directory holds a complete manifest |
| `Processing.ProcessedExactlyWhen` | internal/files/service.go:563-779 | at any moment at which the service is up and has a worker, a visible pending file that was not stranded can come to be processed with a complete manifest in steps of which none fails, if and only if no worker has settled that it will not: no converter, an error no retry can mend, or three retries made |
| `Retries.RetryNeedsRetryableError` | internal/files/service.go:641-676 | each retry that is added goes back, with nothing else done by that worker in between, to a failed call whose error is worth a retry, to handleErr for that error with fewer than 3 retries counted, and to a fileActive that found the file unmarked; it adds one |
| `Retries.GivenUpForCause` | internal/files/service.go:641-658 | a worker gives a file up only when Convert returned an error that no retry can mend, or for an error worth a retry when three retries were counted |
| `Retries.RetryIsMade` | internal/files/service.go:653-668 | after an error worth a retry with fewer than three counted, the worker asks whether the file is there, and if it is told so its next two steps add exactly one retry and arm a timer for the job |
| `Retries.DismissedForGood` | internal/files/service.go:641-690 | once handleErr decides against a retry (no error, an error not worth one, three retries made, or the file gone), no later step of the process adds one, and the worker's own next steps drop the count and leave no job of the file anywhere |
| `Jobs.StatusesSettle` | internal/store/store.go:249-262 | over any stretch of any run, restarts included, a terminal status with its manifest and error never changes, a marked row never changes but for its tenant, a removed row never returns, and directory, purpose, creation time and expiry are fixed |
| `Files.DirectoryChanges` | internal/files/service.go:328-360 | from a state that satisfies the invariant, any step that changes a directory finds no lease and no running Convert for the file, or is that Convert writing artifacts while nobody reads the manifest |
| `Files.RemovalIsSafe` | internal/files/service.go:785-825 | the same for every step of every run; a directory disappears only when no reader has a lease and no Convert runs for the file |
| `Files.ReadsAreStable` | internal/files/service.go:412-435 | from the moment a reader has read the manifest or opened the source until it releases, what it sees of the directory does not change, whatever else happens |
| `Files.ReadersFindEverything` | internal/files/service.go:442-460 | a reader of a manifest finds the manifest and every artifact it names, a reader of the source finds the source |
| `Files.AlwaysConsistent` | internal/files/service.go:183-231 | crash consistency: at every moment of every run each row that is not marked has its source, and each such processed row has a manifest whose parts all exist |
| `Files.NoForgottenDirectory` | internal/files/service.go:254-311 | while the service runs every directory belongs to a row, to an upload in progress, or to a failed upload whose removal failed |
| `Deletion.OneDeleter` | internal/files/service.go:519-542 | at most one call is between beginDeletion and endDeletion of a file |
| `Deletion.RowRemovedOnce` | internal/store/store.go:284-294 | at most one step of a whole run removes the row of a file |
| `Deletion.AckedOnce` | internal/files/service.go:354-360 | Delete returns true at most once for a file in a whole run with any number of concurrent calls, janitor passes and restarts |
| `Deletion.AckedIsForGood` | internal/files/service.go:323-327 | after Delete has returned true, row and directory are gone for the rest of the run |
| `Answers.RemovalIsAcknowledged` | internal/files/service.go:351-360 | a Delete call that removes the row returns true when it ends, in every run, unless the process ends first |
| `Answers.AcknowledgedMeansRemoved` | internal/files/service.go:351-360 | a Delete call that returns true has itself removed the row, earlier in the same process |
| `Deletion.DebtNeverGrows` | internal/files/service.go:500-517 | while a deletion waits, no new lease and no new conversion of the file adds to what it waits for |
| `Deletion.WaitComesNearer` | internal/files/service.go:485-517 | no step of any actor moves the end of a wait further away |
| `Deletion.NoDebtEndsWait` | internal/files/service.go:618-636 | when nothing is owed any more the waiting call can go on |
| `Deletion.AwaitedStepsShortenWait` | internal/files/service.go:603-616 | in every run each step of the worker that owes the signal, but for Convert's own writing, and each release of a lease on the file strictly shortens the wait |
| `Deletion.DueStepsAreEnabled` | internal/files/service.go:698-766 | such a step can be taken whenever it is due, whether the store call or the conversion in it succeeds or fails |
| `Deletion.WaitIsNeverStuck` | internal/files/service.go:618-636 | from every moment of every run there is a continuation without a single failed call after which the wait is over: no deadlock |
| `Progress.DeletionCanFinish` | internal/files/service.go:323-360 | from every moment of every run each Delete call or janitor deletion, wherever it stands, can come to its end in steps of which none fails, with row and directory of the file gone, and the answer true for a Delete call, unless there was nothing for it to remove; no other deletion moves |
| `Requests.UploadCanSucceed` | internal/files/service.go:243-321 | whenever requests are accepted an upload with a new ID can end with its row as requested, its source and its job in the queue, without a failing call |
| `Requests.ReadCanSucceed` | internal/files/service.go:381-460 | and a visible file that is not being deleted can be read: its source, or its manifest with all artifacts |
| `Requests.DeleteCanSucceed` | internal/files/service.go:323-360 | and deleted, with the answer true and nothing left |
| `Visibility.SeenOrCollected` | internal/store/store.go:306-309 | a row is never both visible and collectable, and is one of the two exactly if it is marked, its expiry is not negative, or its expiry lies ahead |
| `Visibility.EveryRowIsSeenOrCollected` | internal/store/store.go:130-133 | in every run each row is at every moment exactly one of visible and collectable |
| `Visibility.HiddenForGood` | internal/store/store.go:128-142 | a file that was inserted and is not visible never becomes visible again |
| `TableSteps.LeasesFollow` | internal/files/service.go:466-498 | every step of the model changes the lease table as AcquireLease or ReleaseLease does, or not at all |
| `TableSteps.TablesFollow` | internal/files/service.go:522-616 | the same for deletion markers, conversions and retry counts |
| `TableSteps.LeasesAreCounted` | internal/files/service.go:85-93 | in every run the reference count is the number of releases owed, a lease is in the table exactly while it is positive, and its channel is closed exactly when it is zero again |
| `TableSteps.NoReaderAfterTheWait` | internal/files/service.go:502-517 | when waitForLease has returned no reader holds a lease on the file, until endDeletion drops the marker |
| `Tables.LeaseTable.AcquireLease` | internal/files/service.go:466-483 | refused under a marker; otherwise one more reader of the entry, or a fresh entry with one; one more release is owed and the accounting holds |
| `Tables.LeaseTable.ReleaseLease` | internal/files/service.go:487-498 | one release less is owed; the channel is closed, once, and the entry dropped exactly when none is left |
| `Tables.AcquiredIsAccounted` | internal/files/service.go:471-479 | taking a lease keeps the accounting: count equals releases owed, in the map iff positive, closed iff zero |
| `Tables.ReleasedIsAccounted` | internal/files/service.go:490-494 | giving a lease back keeps the accounting, and the channel is closed iff nothing is owed on it |
| `Tables.DeletionTable.BeginDeletion` | internal/files/service.go:522-531 | claims the file iff nobody has; otherwise changes nothing |
| `Tables.DeletionTable.EndDeletion` | internal/files/service.go:535-542 | removes the caller's own marker and no other |
| `Tables.ConversionTable.BeginConversion` | internal/files/service.go:595-601 | registers a fresh, active object, overwriting any entry of the file |
| `Tables.ConversionTable.Unregister` | internal/files/service.go:605-611 | drops the entry only if it is still the caller's |
| `Tables.ConversionTable.Signal` | internal/files/service.go:612-615 | makes the object inactive and closes its channel, which was open |
| `Tables.RetryTable.Increment` | internal/files/service.go:553-556 | one retry more for the file, no other count changes |
| `Recovery.AlwaysRecoverable` | internal/files/service.go:180-182 | at every moment of every run, so after any crash, each row has its own directory, present unless the row is marked |
| `Recovery.Service.ReconcileStorage` | internal/files/service.go:183-231 | leaves exactly the directories that some row names, unchanged |
| `Recovery.Service.RemoveOrphans` | internal/files/service.go:216-228 | of one tenant's directories exactly those no row names are removed |
| `Recovery.Service.DeleteExpired` | internal/files/service.go:785-825 | without faults, removes exactly the collectable rows and their directories |
| `Recovery.Service.Restart` | cmd/llm-file-gateway/main.go:57-92 | tenant consolidation, reconciliation and one janitor pass without faults leave the visible rows, and directories that are exactly those of the rows |
| `RestartPath.RestartIsAPath` | cmd/llm-file-gateway/main.go:57-92 | after a crash at any moment of any run the steps of the protocol lead, without a failing call, to a running service with the given workers, whose rows are the visible ones and whose directories are exactly theirs, unchanged |
| `Store.FileStore.Get` | internal/store/store.go:130-142 | finds a row iff it is the tenant's, not marked and not past its expiry |
| `Store.FileStore.List` | internal/store/store.go:199-243 | the listed rows are the tenant's, unmarked, unexpired, of the purpose if one is given, behind the cursor and in order, newest first when descending; a row of that kind that is missing comes after all of them, and then the limit is reached |
| `Store.ListedCanBeFetched` | internal/store/store.go:128-142 | a listed file is found by Get for the same tenant and is not among the expired ones |
| `Store.FileStore.UpdateStatus` | internal/store/store.go:249-262 | changes status, manifest and error of a row that is not marked and reports whether there was one |
| `Store.FileStore.ConsolidateTenants` | internal/store/store.go:75-80 | moves every row to the shared tenant and changes nothing else |
| `Paging.Sorted` | internal/store/store.go:227-228 | the rows of a set in strict order of creation time and ID, each once |
| `Paging.SortedIsUnique` | internal/store/store.go:195-198 | there is one such order, so what a page contains is determined |
| `Paging.PagesAreTheList` | internal/server/server.go:254-273 | from any place in the order the pages put together are the rest of the sorted list, has_more is true exactly while rows remain, such pages are full, and there are ceil(N/limit) of them, at least one |
| `Paging.PagingRefinesSorting` | internal/server/server.go:236-274 | on a fixed table a client that follows last_id gets the sorted list of matching files cut into these pages |
| `Paging.WalkEnds` | internal/server/server.go:259-262 | following last_id while has_more comes to an end |
| `Paging.PagingUnderChange` | internal/store/store.go:214-226 | while rows are added, marked, expired or removed between pages, no file is listed twice and every file that matched throughout is listed once, if for each cursor its row still exists for the tenant or nothing at or before its place matches |
| `Paging.ByPlaceExactlyWhen` | internal/store/store.go:214-226 | on changing tables, all pages of a client follow the places of its cursors if and only if that condition holds at every page |
| `Paging.ContinuesExactlyWhen` | internal/store/store.go:217-225 | a page continues after the place of its cursor iff the cursor's row exists for the tenant or nothing at or before that place matches; a missing cursor starts from the top |
| `Paging.RemovedCursorRepeats` | internal/store/store.go:217-225 | a concrete walk in which the first file is listed twice because the cursor row was removed |
| `Listing.ListFiles` | internal/server/server.go:230-274 | the request is refused exactly when the limit is not a number or out of range or the order is unknown; otherwise the answer is the page, with first_id and last_id; it lists the rows that may be seen, in order, and has_more is true if one of them is missing |
| `Listing.PagingDuringARun` | internal/server/server.go:253-273 | the result on changing tables for every run of the service, whose steps keep creation times fixed |
| `FileNames.NamesKeepOrder` | internal/files/service.go:827-834 | comparing generated IDs as text is comparing their numbers, and distinct numbers have distinct IDs |
| `FileNames.ManagedMeansNamed` | internal/files/service.go:233-239 | the managed lower-case directory names are exactly the IDs that can be generated |
| `WorkQueue.UnboundedQueue.Add` | internal/workqueue/queue.go:58-70 | with a live context appends the item and closes every channel handed out so far; otherwise changes nothing |
| `WorkQueue.UnboundedQueue.Poll` | internal/workqueue/queue.go:74-84 | takes the first item, or returns a channel that is open |
| `WorkQueue.NothingLost` | internal/workqueue/queue.go:58-92 | in every interleaving delivered items followed by stored items are the added items in order, and while items are stored no consumer waits on an open channel |
| `WorkQueue.WaitingConsumerIsServed` | internal/workqueue/queue.go:83-90 | a waiting consumer gets the first stored item by its own next steps |
| `WorkQueue.StuckMeansEmpty` | internal/workqueue/queue.go:83-90 | a consumer on an open channel waits for the current one, and everything added was delivered |
| `WorkQueue.BoundedNeverOverflows` | internal/workqueue/queue.go:25-46 | the bounded queue keeps the order and never holds more than its capacity |
| `Html.Walk` | internal/converter/extractor/html.go:34-52 | the recursive walk appends to the builder exactly the text of the subtree |
| `Html.VisibleText` | internal/converter/extractor/html.go:21-60 | the method returns the normalised text of the walk |
| `Html.WalkConserves` | internal/converter/extractor/html.go:36-51 | without white space, the walk yields the text nodes that no hidden element contains, in document order |
| `Html.PruningChangesNothing` | internal/converter/extractor/html.go:38-47 | cutting out what hidden elements contain does not change the walk |
| `Html.FieldsOfJoin` | internal/converter/extractor/html.go:55 | splitting joined words gives the words back |
| `Html.SplitOfJoin` | internal/converter/extractor/html.go:54 | splitting joined lines gives the lines back |
| `Html.JoinOfSplit` | internal/converter/extractor/html.go:59 | joining split lines gives the text back |
| `Html.NormalizeIsIdempotent` | internal/converter/extractor/html.go:53-59 | normalising twice is normalising once |
| `Html.BlockStandsAlone` | internal/converter/extractor/html.go:36-51 | the words inside a visible block element are on lines of their own, apart from what comes before and after it |
| `Html.NormalizeKeepsWordLines` | internal/converter/extractor/html.go:53-59 | normalisation keeps every word a word, on its line |
| `Html.VisibleTextIsConserved` | internal/converter/extractor/html.go:18-60 | for every tree the ink of the result is that of the visible text nodes in order, hidden subtrees do not matter, words and lines are those of the walk, and the result is in normal form |
| `Payload.FindFileReference` | internal/server/inference.go:129-156 | the scan finds a file part iff there is one in the content of some item |
| `Documents.DocumentParts` | internal/server/document.go:141-189 | the loop builds the parts of the manifest's first document, or fails iff a file it opens is missing |
| `Documents.DocumentIsComplete` | internal/server/document.go:146-188 | the parts are, artifact by artifact, its text if it is not empty and its image if there is one and fewer than MaxDocumentPages came before; a text part has the whole text between tags that name the file and the page, an image part the media type and the encoded image; none is a file part |
| `Documents.TextIsReadBack` | internal/server/document.go:154-165 | equal parts of an artifact come from equal texts |
| `Inference.Server.PrepareDocument` | internal/server/document.go:32-124 | refused unless exactly one source is named; otherwise the document of that source, or the error of the first call that fails; a lease is owed iff an uploaded file was resolved |
| `Inference.Server.ConvertInline` | internal/server/document.go:53-123 | whichever of the calls fails, a request directory that exists afterwards is fresh and on the clean-up list |
| `Inference.Server.ExpandPart` | internal/server/inference.go:191-204 | a file part becomes the parts of its document, and no lease is left, on every path |
| `Inference.Server.ExpandResponses` | internal/server/inference.go:162-208 | the loops compute the expansion, with the leases as before and all directories on the clean-up list |
| `Inference.Server.ExpandChat` | internal/server/inference.go:214-261 | the same for Chat Completions |
| `Inference.Server.HandleInference` | internal/server/inference.go:81-125 | the reply as a function of payload and answers; leases and request directories are as before, on success and on every error |
| `Inference.ContentIsReplaced` | internal/server/inference.go:183-205 | the new content is the old one with each file part replaced by the document of the source that this part names, as answered at its own turn |
| `Inference.ContentHasNoFilePart` | internal/server/inference.go:184-203 | no file part is left in it, and expansion is reported iff there was one |
| `Inference.ExpansionIsInPlace` | internal/server/inference.go:158-208 | expansion is reported iff there was a file reference, none is left, items keep their order and fields, each file part is replaced in its place by the document of its own source and every other part kept |
| `Inference.ForwardedIsExpanded` | internal/server/inference.go:98-124 | a request without a file reference is sent as it is; otherwise the instruction comes first, followed by the caller's own instructions or by the messages, the items are the expanded ones, no other field changes, and no file reference is left |
| `Inference.ForwardedExactlyWhen` | internal/server/inference.go:81-125 | a request with file references is forwarded iff the model is right, each file part names one usable source whose calls all succeed, and the client is still there |
| `Inference.SourceIsNamed` | internal/server/document.go:36-74 | the source is taken from the only one of file_id, file_data and file_url that is a non-empty text, and there is none if that is not one field |
| `Inference.RefusedByItsFields` | internal/server/inference.go:231-243 | a chat file that is no object or has a file_url is refused, and so are no or several sources and data without a filename |
| `Slots.Serve` | internal/server/server.go:78-119 | a request runs iff there is a slot, and alone leaves the occupancy as it was, whatever it writes |
| `Slots.SlotWriter.WriteHeader` | internal/server/server.go:106-112 | a final status frees the slot unless it is free already; an interim one does not |
| `Slots.SlotWriter.Write` | internal/server/server.go:114-119 | writing a body sends a final status first, so the slot is free afterwards |
| `Slots.SlotWriter.Release` | internal/server/server.go:90 | frees one slot at the first call and none later |
| `Slots.SlotsAreCounted` | internal/server/server.go:84-94 | in every interleaving the occupancy is the number of admitted requests without final status that have not returned, it stays within the limit, and each request frees one slot |
| `Slots.NeverBlocks` | internal/server/server.go:90-91 | a release that has still to free its slot finds one occupied |
| `Slots.CanGoOn` | internal/server/server.go:78-119 | so an admitted request can always go on and return, and a new one is always answered |
| `Slots.TurnedAwayWhenFull` | internal/server/server.go:84-89 | a request is turned away exactly while the limit is reached |
| `Slots.FreedByItsCalls` | internal/server/server.go:106-119 | in every interleaving a final status or a body takes the slot from the request that held it; an interim status changes nothing |
| `Registry.Registry.Register` | internal/converter/registry.go:81-94 | accepted iff the extension is valid, the factory not nil and the normalised extension free |
| `Registry.Registry.Unregister` | internal/converter/registry.go:97-104 | removes the normalised extension iff it is there |
| `Registry.Registry.Find` | internal/converter/registry.go:126-136 | finds the factory of the normalised extension iff it is registered |
| `Registry.Registry.Merge` | internal/converter/registry.go:108-122 | for every order of iteration: success iff all normalised extensions are valid, free and distinct; the result is the disjoint union; a failure leaves the receiver unchanged |
| `Registry.JoinsIsUnique` | internal/converter/registry.go:106-107 | there is one such union, so the result does not depend on the order |
| `Conversion.Folder.Convert` | internal/converter/util.go:74-96 | with a fault possible in every call: it succeeds exactly when the text fits its limit, every page image is there when its digest is taken, and no call fails; then the manifest is whole, lists the right parts and each part names a file that holds its block or the text of its page; a text over the limit changes nothing; after any other failure nothing is left if the last call, one of the clean-up, went through, and in particular after a single failing call that is not one of the first removal |
| `Conversion.Folder.ConvertText` | internal/converter/converter.go:109-124 | succeeds exactly when its calls do; then each text block is in the file its part names, and there is no other file |
| `Conversion.Folder.ConvertImage` | internal/converter/converter.go:128-147 | succeeds exactly when its calls do; then image and empty text are written and the manifest names them |
| `Conversion.Folder.ConvertRendered` | internal/converter/converter.go:23-88 | succeeds exactly when no call fails and every page image is there in time; then every page image and page text the manifest names is there, whatever the renderer left |
| `Conversion.Folder.RemoveOutput` | internal/converter/util.go:118-127 | succeeds exactly when its calls do, and then neither artifacts nor manifest are left; a manifest is never changed, only removed |
| `Conversion.Folder.WriteResult` | internal/converter/util.go:131-146 | succeeds exactly when its calls do, and then the manifest lists exactly the given parts |
| `Conversion.PartNamesDiffer` | internal/converter/converter.go:116 | different part numbers have different file names, also beyond four digits |
| `Conversion.WithinTextLimit` | internal/converter/util.go:58-70 | accepted iff there is no limit or the characters of all blocks together do not exceed it |
| `Expiry.LifetimeOf` | internal/server/server.go:187-219 | a request is refused iff anchor or seconds are out of range; the lifetime is the 64-bit product |
| `Expiry.AcceptedExactly` | internal/server/server.go:206-217 | only the anchor created_at is accepted; with a configured lifetime of a second or more the seconds may be 1 up to it, included, without one 1 or more |
| `Expiry.ExpiryIsNeverNegative` | internal/files/service.go:296-301 | Create writes no negative expiry: zero for a lifetime that is not positive, whole seconds from now otherwise |
| `Expiry.LifetimeAsRequested` | internal/server/server.go:206-219 | a file lives exactly as long as asked iff that is at most floor((2^63 - 1) / 10^9) seconds |
| `Expiry.ConfiguredLimitProtects` | internal/server/server.go:207-208 | with a configured lifetime of a second or more every accepted request is kept exactly |
| `Expiry.HugeRequestNeverExpires` | internal/server/server.go:218 | without one the largest request is accepted and never expires |

## Left out

- Upstream proxying, server-sent events, header copying and HTTP routing: plumbing around library clients.
- Download of `file_url` references and address filtering; an inline document is an arbitrary answer.
- Rendering, image decoding, hashing, base64, HTML and CSV parsing, JSON coding: their results are arbitrary inputs.
- SQL text, indexes, the WAL and schema migration: the store is an atomic map of rows with a clock.
- Configuration, logging, error formatting, file modes and symbolic links.
- The per-format converters: one converter that may succeed, fail or be cut short stands for all of them. The context checks around a text conversion are left out with them.
- Names in the data directory that are not lower-case file IDs: the model's disk has managed directories only.
- Authentication: the tenant of a request is an input. The checks of the polling loop in `Resolve` before its last read are not steps, since they change nothing.
- Real time: poll intervals, jitter, the janitor's period and the length of a backoff.
- Reading a file that was completely deleted between the lookup and the lease: the step model allows it, as the code does, and the reader finds no manifest and releases.
- Files.ReadersFindEverything: artifacts are promised only for a file of which no `RemoveAll` failed half way; a manifest that was read stays in any case.
- Jobs.ExactlyOneJob: says nothing after the service was told to stop, when jobs may be dropped.
- Retries.DismissedForGood: speaks of one process; after a crash the pending file is enqueued again, as the code does.
- Processing.ProcessedExactlyWhen: the file can come to be processed; that the converter succeeds is a choice of the path.
- Progress.DeletionCanFinish: a path exists; that it is taken is up to the scheduler and to the calls in it.
- RestartPath.RestartIsAPath: the clock stands still on the path, and the pending files wait in the backlog meanwhile.
- Deletion.DueStepsAreEnabled: says that steps can be taken, not that the scheduler takes them.
- Jobs.RetriesAreBounded: counts within one process; a restart starts the count again, as the code does.
- Expiry.ExpiryIsNeverNegative: the clock is taken to be between 1970 and the last second whose expiry fits in 64 bits.
- Tables.LeaseTable.AcquireLease: the tables are separate objects here; that one mutex guards them together is what makes each method one step.
- Conversion.Folder.ConvertRendered: pages are taken to be named within the output directory; when two pages have one name the later text replaces the earlier.
- Inference.Server.HandleInference: on an error the partly rewritten payload is dropped, as in the code, and not described. Removing a request directory is taken to succeed; the code logs a failure.
- Inference.Server.ConvertInline: decoding, downloading and the size limit are one call, `Fetch`. A cancelled context shows as the error of the next call.
- Slots.SlotWriter.WriteHeader: of what reaches the client the model has the statuses and that a body follows, not the bytes; a server without a limit, which calls the handler directly, is not modelled.
- Slots.SlotsAreCounted: sending the final status and freeing the slot (`internal/server/server.go:106-112`) are one step; a status that is sent while the slot is still held is not a state of its own.
- Store.FileStore.List: the cursor query and the page query (`internal/store/store.go:217-229`) see one table; a change between the two is not modelled.
