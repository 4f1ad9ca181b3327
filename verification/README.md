# Verification of mayfly

Dafny models of mayfly's stateful cores, with proofs of the properties they exist
for. Each model takes its branches, limits, error cases and constants from the
source files cited below; what a model leaves out is listed at the end. Run
`dafny verify dfyconfig.toml` to check everything.

## What is modelled

**Resource lifecycle** (`Tables`, `Backup`, `Lifecycle*`, `Expiry`, `Progress`,
`Completion`, `OwnWrites`, `Catalog`, `ResourceLifecycle`). A durable job backs up,
erases and restores a chat or wiki. The code between two awaits is one atomic event. The durable state
(record, job, object list, receipts, content tables), the live file bucket and the
write-once archive store are separate, and a run is any sequence of steps, answers,
errors, crashes, requests, ticks, cancels, policy edits and the passing of time.
`LifecycleInvariant.Inv` holds in every run, and so does `LifecycleReady.Ready`, which
says that the steps still to come have what they need; the promises are lemmas about
reachable states. A job *left alone* makes its running step's next event each time:
a put writes its own blob where nothing is stored yet, a call takes effect and then
answers. Content writes keep the schema: its tables, the one wiki row, and live files
that attachment rows name. SHA-256 is injective, the clock never goes back, rowids are
at least 0, job ids are never reused, and a bucket call that fails, or is cut off by a
crash, either took effect before that or never does.

**Browser session** (`Session*`, `BrowserSession`). One page session against the
Go server's compare-and-swap log, with other writers, lost answers, overlapping
deliveries, renames and channel deletion. A request is taken by the server at most
once, nonces are fresh, and the channel is one incarnation. `Honest` says which
answers the Go server can give for which outcome of a post; `SessionHonesty` asks
what other refusals would do.

**Wiki page tree** (`WikiTree*`, `Navigation*`, `WikiPages`). Creates, moves,
deletions and restorations of pages; previous and next page against a depth-first
walk of the whole tree.

**ZIP export** (`Export`, `Crc`, `Zip*`, `Links*`, `LinkWriter`). The export slot while others
edit the wiki, cancel or wait too long; the streaming writer and its
announced size against a reader that starts from the end record and goes by the
flags, methods, sizes and extra lengths it finds; the table-driven CRC against the
bit-by-bit register; the link rewriter, the references it collects and the relative
paths it writes. Regular expressions of the rewriter enter as matchers with a position
and a length, and `encodeURIComponent` as a function that turns a name into a name
without a slash and can be undone.

**Creation journal and reports** (`Journal*`, `CreationGate`, `Windows*`,
`ReportStore`, `Reporting`). A creation noted in one object and carried out in another,
replayed after crashes; the two reports that count recorded creations in windows; and
both together, on the same rows and clock.

**Log and long polls** (`EventLog`, `LongPoll*`). Bounded reads and the append of the
Go store; polls that subscribe, read and sleep while others commit and notify.

**Sections** (`Texts`, `Sections`, `Splitter`). The passage splitter of the search
index, over UTF-16 code units.

## Properties that do not hold unconditionally

Each has an input that shows it and the exact condition under which it holds.

- *With nothing in flight the waiter map names only existing channels.* A poll that
  subscribes after its channel was deleted, and whose read then fails in storage,
  leaves an entry (`LongPollResults.StorageErrorLeavesEntry`). For each channel id the
  property holds if and only if every such failing read is followed by a notification or
  creation of the id (`LongPollResults.WaitersNameExistingChannels`).
- *Every creation that took place is recorded or pending, and what is discarded never
  takes place.* A request that outlives the gate's wait for it can arrive after its row
  was discarded (`JournalResults.LateRequestEscapes`). From a state where a creation is
  discarded and not born it can still take place if and only if another request for it
  is on its way to a chat whose id is not reserved (`JournalResults.EscapesExactly`,
  `JournalResults.DiscardIsFinalExactly`). Over a whole run the journal is exact about a
  creation if and only if no such request arrives and no refusal of it is heard after
  another request has created the chat (`JournalResults.JournalIsExact`); no run in which
  requests end with the gate's wait has either (`JournalResults.PromptIsExact`).
- *All events a session gets committed carry one name.* This rests on the Go server.
  If a post that is committed, or can still be, is answered with a refusal while no
  name is locked, a second name follows in some continuation, and otherwise the refusal
  keeps the invariant (`SessionHonesty.RefusalSplitsExactly`). The celld server commits
  first and then polls, and refuses when the resource has become unavailable meanwhile
  (celld/native/worker.ts:308), so it does give such refusals
  (`SessionHonesty.CelldSplits`, `SessionHonesty.CelldSplitsFirstPost`).
- *A backup left alone ends.* One that meets a finished attachment without its file stops
  there (`OwnWrites.MissingFileStopsBackup`). It ends if and only if every finished attachment it is
  still to read has its file with the recorded size, provided nobody else has written
  under its archive keys (`OwnWrites.OwnBackupCompletes`); restores and erases always end
  (`Completion.RestoreCompletes`, `Completion.EraseCompletes`).

## Model

| member | source | states |
|---|---|---|
| `Tables.ListingExact` | celld/native/management-lifecycle.ts:181 | the rows listed after a cursor are ascending and are each row of the table above it exactly once |
| `Tables.SelectSplits` | celld/native/management-lifecycle.ts:265-267 | a limited page followed by the listing from its last rowid is the whole listing, and the cursor advances |
| `Tables.ListingRestores` | celld/native/management-lifecycle.ts:326-331 | inserting a table's listing into an empty table gives the table back |
| `Backup.ChunkCount` | celld/native/management-lifecycle.ts:176-180 | the packing loop takes at least one row, stays within 2 MiB beyond the first, and could not take one more |
| `Backup.ChunkAdvances` | celld/native/management-lifecycle.ts:172-185 | each chunk is the next stretch of the table as the backup keeps it; an empty chunk means nothing is left |
| `Backup.WrittenIsSnapshot` | celld/native/management-lifecycle.ts:315-338 | writing all objects of a complete backup gives the rows of the snapshot |
| `Backup.ArchiveKept` | celld/native/management-storage.ts:49-61 | a verified backup stays one in a store where keys are only added |
| `LifecycleSteps.StartKept` | celld/native/management-lifecycle.ts:260-309 | a step up to its first await keeps the invariant |
| `LifecycleSteps.LandKept` | celld/native/management-lifecycle.ts:300-335 | a bucket effect, even of an abandoned step, keeps the invariant |
| `LifecycleSteps.ResumeKept` | celld/native/management-lifecycle.ts:163-169 | a step after any answer, verified or not, live or abandoned, keeps the invariant |
| `LifecycleTheorems.EventKept` | celld/native/management-lifecycle.ts:356-400 | so does every event that can happen |
| `LifecycleTheorems.RunKept` | celld/native/management-lifecycle.ts:224-259 | the invariant holds after every run, with crashes, failures and cancels at any await |
| `LifecycleResults.VerifiedBeforeErase` | celld/native/management-lifecycle.ts:282-303 | an archive-delete job is in stage erase only if its manifest and every object it lists are in the store with the recorded hashes and hold all content frozen when the job began |
| `LifecycleResults.RestoreGivesBack` | celld/native/management-lifecycle.ts:304-352 | a restore that finishes leaves the resource active and paused with exactly the rows and files of its archive |
| `LifecycleResults.BackupRoundTrip` | celld/native/management-lifecycle.ts:260-355 | backup, erase and restore, whatever happens between, leave exactly the original rows and ready files, unfinished attachments dropped and attachment bytes recomputed |
| `LifecycleResults.CancelBeforeErase` | celld/native/management-lifecycle.ts:130-144 | a cancel before erase leaves live content as frozen, the resource active, and a cancelled expiry paused |
| `LifecycleResults.CancelInVerify` | celld/native/management-lifecycle.ts:145 | a cancel in restore-verify leaves the resource deleted and empty |
| `LifecycleResults.CancelInWrite` | celld/native/management-lifecycle.ts:146-158 | a later cancel turns the restore into an erase under a new id, and every file put or still in flight is named by a row that erase works through |
| `LifecycleResults.DeletedLeavesNothing` | celld/native/management-lifecycle.ts:295-303 | a completed deletion leaves no row and no live file |
| `LifecycleResults.AbandonedStepIsInert` | celld/native/management-lifecycle.ts:38-40 | an abandoned step never changes a durable table |
| `LifecycleResults.AbandonedStaysAbandoned` | celld/native/management-lifecycle.ts:146-154 | no event revives an abandoned step |
| `Expiry.JobExactlyWhenBusy` | celld/native/management-lifecycle.ts:118-127 | a job exists exactly when the state is neither active nor deleted |
| `Expiry.TickStartsExpiry` | celld/native/management-lifecycle.ts:113-117 | so a due tick never throws: it starts the expiry its policy asks for |
| `Expiry.ExpiryNotDodged` | celld/native/management-lifecycle.ts:61-70 | past the deadline no event changes content, policy or activity before the expiry begins, except a cancel that pauses expiry |
| `Expiry.OverdueRuns` | celld/native/management-lifecycle.ts:356-382 | over runs: without a cancel an overdue resource stays untouched until it has begun to expire |
| `Progress.JobsProgress` | celld/native/management-lifecycle.ts:239-244 | every step that does not fail ends its job in the state it was for, or decreases stage rank, tables, rows or objects left |
| `LifecycleReady.EventReady` | celld/native/management-lifecycle.ts:260-355 | every event keeps what later steps need: chunks that have rows, file objects with the bytes their file had, room for every table of a manifest, and a live step's own checks |
| `Completion.StuckMeans` | celld/native/management-lifecycle.ts:260-352 | a step left alone fails exactly at a file that is missing or has the wrong size, or at an archive key that holds something else; every other check passes |
| `Completion.ChunkIsBetween` | celld/native/management-lifecycle.ts:343-346 | the rows a chunk is compared with during the check are exactly its own |
| `Completion.RestoreCompletes` | celld/native/management-lifecycle.ts:304-352 | every reachable restore, left alone, ends with the resource active and the rows and files of its archive back |
| `Completion.EraseCompletes` | celld/native/management-lifecycle.ts:295-303 | every reachable erase, left alone, ends with the resource deleted and no row or live file left |
| `OwnWrites.EventTidy` | celld/native/management-lifecycle.ts:163-169 | while only the running steps write archive keys, no event leaves a backup's next key taken by anything but the object due there |
| `OwnWrites.BackupCompletes` | celld/native/management-lifecycle.ts:260-294 | a backup left alone ends active or deleted with a complete verified archive of its content, or is stuck at an unreadable file or a key somebody else wrote; without the latter it ends exactly if every file still to be read is there with its size |
| `OwnWrites.OwnBackupCompletes` | celld/native/management-lifecycle.ts:224-294 | so in every run where archive keys are written by the resource's own steps only, a backup left alone ends if and only if its files can be read |
| `OwnWrites.MissingFileStopsBackup` | celld/native/management-lifecycle.ts:273-277 | a backup of a wiki with a finished attachment whose file is missing stops at an unreadable file |
| `Catalog.EventMoves` | celld/native/management-lifecycle.ts:32-37 | every lifecycle event leaves the record as it is or saves a new version and marks it dirty |
| `Catalog.MovesKept` | celld/native/management-lifecycle.ts:88-112 | the replica invariant survives delayed, duplicated, reordered and lost registrations |
| `Catalog.CatalogIsReplica` | celld/native/management.ts:40-45 | the catalog holds some past value of the record at its version, never a newer one, and the current one when dirty is 0 |
| `ResourceLifecycles.ResourceLifecycle.Begin` | celld/native/management-lifecycle.ts:118-127 | `begin` starts the job it is asked for, or refuses and changes nothing, and keeps the lifecycle invariant |
| `ResourceLifecycles.ResourceLifecycle.BeginByAdmin` | celld/native/management-lifecycle.ts:388-398 | a due expiry goes first, a restore takes the receipt of the archive it names, and the invariant is kept |
| `ResourceLifecycles.ResourceLifecycle.Tick` | celld/native/management-lifecycle.ts:114-117 | an overdue resource is expiring afterwards, anything else is untouched, and the invariant is kept |
| `ResourceLifecycles.ResourceLifecycle.Mutate` | celld/native/management-lifecycle.ts:62-70 | a content write is accepted exactly when the resource is available, counts as activity, and keeps the invariant |
| `ResourceLifecycles.ResourceLifecycle.EditPolicy` | celld/native/management-lifecycle.ts:374-382 | a policy edit needs an available resource and the current policy version, starts an expiry it makes due, and keeps the invariant |
| `ResourceLifecycles.ResourceLifecycle.Cancel` | celld/native/management-lifecycle.ts:130-158 | `cancel` refuses once the erase has begun, leaves the content of a cancelled backup as the job found it, and keeps the invariant |
| `ResourceLifecycles.ResourceLifecycle.Fail` | celld/native/management-lifecycle.ts:245-255 | a throwing step is counted only against its own job, and keeps the invariant |
| `ResourceLifecycles.ResourceLifecycle.ReadChunk` | celld/native/management-lifecycle.ts:172-185 | the chunk read is the one `ChunkAdvances` speaks of |
| `ResourceLifecycles.ResourceLifecycle.StartStep` | celld/native/management-lifecycle.ts:260-305 | a step up to its first await, as specified, keeps the invariant |
| `ResourceLifecycles.ResourceLifecycle.AnswerPut` | celld/native/management-lifecycle.ts:163-169 | an object is recorded only if it reads back verified and its job is live, and the invariant is kept |
| `ResourceLifecycles.ResourceLifecycle.AnswerFile` | celld/native/management-lifecycle.ts:273-277 | a missing attachment or a wrong size throws, and the invariant is kept |
| `ResourceLifecycles.ResourceLifecycle.AnswerRecorded` | celld/native/management-lifecycle.ts:278-280 | an attachment changed during its backup throws, and the invariant is kept |
| `ResourceLifecycles.ResourceLifecycle.AnswerManifest` | celld/native/management-lifecycle.ts:285-294 | a receipt is noted only for a verified manifest of a live job, and then names a complete verified archive of the content |
| `ResourceLifecycles.ResourceLifecycle.AnswerErased` | celld/native/management-lifecycle.ts:300 | a row goes only after its file and only for a live job, and the invariant is kept |
| `ResourceLifecycles.ResourceLifecycle.AnswerManifestRead` | celld/native/management-lifecycle.ts:305-341 | if a restore ends here the rows and files of its archive are back; the invariant is kept |
| `ResourceLifecycles.ResourceLifecycle.AnswerObject` | celld/native/management-lifecycle.ts:319-346 | an object is counted, written, put or compared as specified, and the invariant is kept |
| `ResourceLifecycles.ResourceLifecycle.AnswerFileCheck` | celld/native/management-lifecycle.ts:348-351 | a restored file is accepted only with the recorded hash, and the invariant is kept |
| `ResourceLifecycles.ResourceLifecycle.AnswerFilePut` | celld/native/management-lifecycle.ts:335-337 | a file put moves a live job on, and the invariant is kept |
| `ResourceLifecycles.ResourceLifecycle.Meanwhile` | celld/native/management-lifecycle.ts:300-335 | a bucket call landing, the archive store growing, time passing and a crash make the model transition and keep the invariant |
| `SessionSteps.EventKept` | srv/browser/session.js:22-76 | every event of session and server keeps the session invariant |
| `SessionSteps.CommitKept` | srv/store.go:305-317 | a commit keeps the ledger, the one name and the evidence for the new own event |
| `SessionSteps.RejectedKept` | srv/browser/session.js:66-68 | evidence is dropped only for a post that can no longer commit, or once the channel is gone |
| `SessionResults.OneSessionOneName` | srv/browser/session.js:15-26 | all events one session ever gets committed carry the same sender name, and a locked name is that name |
| `SessionResults.DeliveredOwnLocks` | srv/browser/session.js:22-26 | a delivered own event has locked its name |
| `SessionResults.EachCallCommitsOnce` | srv/browser/session.js:44-77 | each `append` call commits at most one event over all its retries |
| `SessionResults.ReturnedMeansCommitted` | srv/api.go:247-307 | a call that returned normally committed one |
| `SessionResults.DeliveredPrefix` | srv/browser/session.js:27-43 | what was presented is the log from its first event through `last`, once each and in order |
| `SessionResults.OnlyGrows` | srv/store.go:272-318 | the log only grows and nothing presented is taken back |
| `SessionHonesty.SafeToRefuse` | srv/browser/session.js:66-68 | dropping the evidence of a post that can no longer commit keeps the session invariant |
| `SessionHonesty.RefusalSplitsExactly` | srv/browser/session.js:66-68 | in every reachable state a refusal lets two names follow if and only if the channel lives, no name is locked, and the post is committed or can commit next |
| `SessionHonesty.CelldSplits` | celld/native/worker.ts:290-308 | a server that commits, then polls and refuses when the resource is no longer available, can, wherever an unlocked session waits for the answer to a committed post, make it send under a second name |
| `SessionHonesty.CelldSplitsFirstPost` | celld/native/worker.ts:290-308 | and so already for the first post on an empty channel |
| `BrowserSessions.BrowserSession.SetName` | srv/browser/session.js:6-11 | a rename is refused while locked, pending or stopped; session and server keep their invariant, one name for all own events |
| `BrowserSessions.BrowserSession.LockName` | srv/browser/session.js:15-21 | locks once and drops the evidence |
| `BrowserSessions.BrowserSession.FindOwn` | srv/browser/session.js:23 | finds the first attempt an event matches |
| `BrowserSessions.BrowserSession.Deliver` | srv/browser/session.js:27-42 | queues a page behind the deliveries before it |
| `BrowserSessions.BrowserSession.Polled` | srv/browser/session.js:27-42 | so for the answer of a poll made at an earlier cursor, which keeps the invariant |
| `BrowserSessions.BrowserSession.StartDelivery` | srv/browser/session.js:28-30 | the next page is taken up once the one before it is done, and the invariant is kept |
| `BrowserSessions.BrowserSession.StepDelivery` | srv/browser/session.js:31-34 | the delivery loop up to its next open observes every event, and keeps the invariant |
| `BrowserSessions.BrowserSession.OpenedEvent` | srv/browser/session.js:35-36 | the cursor advances only past an event that opened, and the invariant is kept |
| `BrowserSessions.BrowserSession.OpenThrew` | srv/browser/session.js:41 | a failed open drops its page only, and the invariant is kept |
| `BrowserSessions.BrowserSession.Append` | srv/browser/session.js:44-50 | a new call waits for the deliveries queued before it, and the invariant is kept |
| `BrowserSessions.BrowserSession.StartSeal` | srv/browser/session.js:51-53 | fixes cursor and sender, and keeps the invariant |
| `BrowserSessions.BrowserSession.Post` | srv/browser/session.js:54-58 | notes the attempt before posting, or starts over under a name locked meanwhile, and keeps the invariant |
| `BrowserSessions.BrowserSession.Answered` | srv/browser/session.js:59-73 | for every answer the server can give, the call ends, waits for a page or keeps its evidence, and the invariant is kept |
| `BrowserSessions.BrowserSession.PageDone` | srv/browser/session.js:69-75 | retries up to 50 times after a conflict page, and keeps the invariant |
| `BrowserSessions.BrowserSession.ChannelGone` | srv/browser/session.js:12-14 | a session that finds its channel gone drops its evidence, and the invariant is kept |
| `WikiTreeProofs.BelowIsDepth` | celld/native/wiki.ts:112-114 | the recursive query returns the depth of the deepest live page below, which is reached |
| `WikiTreeProofs.SaveKeepsForest` | celld/native/wiki.ts:106-137 | a save that passes its checks keeps the forest, the moved subtree included |
| `WikiTreeProofs.HandleKeepsForest` | celld/native/wiki.ts:264-275 | so does every create, update and deletion, accepted or refused |
| `WikiTreeProofs.RunKeepsForest` | celld/native/wiki.ts:327-342 | so does every sequence of them |
| `WikiTreeProofs.ForestMeans` | celld/native/wiki.ts:106-116 | in a forest every live page's parent is live, no page is its own ancestor, none has more than 32, and deleted pages have no live children |
| `WikiTreeProofs.UnmovedFits` | celld/native/wiki.ts:327-341 | saving a live page where it is never fails for its place |
| `NavigationResults.PreorderVisitsAll` | celld/native/wiki.ts:72-94 | depth-first pre-order holds every live page exactly once |
| `NavigationResults.NeighboursInPreorder` | celld/native/wiki.ts:88-93 | previous and next are exactly the neighbours in pre-order |
| `NavigationResults.NextAndPreviousInvert` | celld/native/wiki.ts:88-93 | they are mutual inverses |
| `NavigationResults.NextVisitsEveryPage` | celld/native/wiki.ts:91-92 | following next from the first root reaches every live page after exactly one number of steps |
| `WikiPages.WikiPages.SubtreeDepth` | celld/native/wiki.ts:112-114 | the level-by-level query ends and returns the depth below |
| `WikiPages.WikiPages.Parent` | celld/native/wiki.ts:106-116 | refuses exactly a missing parent, a cycle, or a place too deep for the subtree |
| `WikiPages.WikiPages.Save` | celld/native/wiki.ts:117-138 | stores the row, bytes and version, or changes nothing |
| `WikiPages.WikiPages.Create` | celld/native/wiki.ts:264-275 | a create makes the specified transition and keeps the forest |
| `WikiPages.WikiPages.Update` | celld/native/wiki.ts:327-341 | an update, move or restoration makes the specified transition and keeps the forest |
| `WikiPages.WikiPages.Remove` | celld/native/wiki.ts:337-341 | a deletion is refused with live children, and otherwise keeps the forest |
| `WikiPages.WikiPages.Navigate` | celld/native/wiki.ts:72-94 | the query with its 32-step bounds returns the ancestors, previous and next, so no bound cuts it short |
| `WikiPages.WikiPages.AncestorRows` | celld/native/wiki.ts:85-87 | the bounded loop collects all ancestors |
| `WikiPages.WikiPages.Descend` | celld/native/wiki.ts:88-90 | the bounded descent reaches the end of the subtree |
| `WikiPages.WikiPages.NearestFollowing` | celld/native/wiki.ts:92 | the nearest following sibling of the page or an ancestor |
| `Crc.MakeEntry` | celld/native/wiki-zip.ts:9-12 | a table entry is eight steps of the register |
| `Crc.EightSteps` | celld/native/wiki-zip.ts:15 | eight steps of the register are its low byte's table entry and the rest shifted |
| `Crc.ByTable` | celld/native/wiki-zip.ts:15 | the table step equals feeding the byte bit by bit |
| `Crc.Compute` | celld/native/wiki-zip.ts:13-17 | the table-driven loop computes the bit-by-bit CRC-32 for every input and start value |
| `Crc.Streaming` | celld/native/wiki-zip.ts:45-50 | the CRC of a whole is that of its end carried on from its start |
| `ZipProofs.ZipSizeMeans` | celld/native/wiki-zip.ts:23-35 | the size check accepts exactly the sets of files within every limit with usable, distinct names, and returns their total |
| `ZipProofs.RoundTrip` | celld/native/wiki-zip.ts:36-60 | a reader from the end record, which takes flags, methods, sizes, extra and comment lengths from the headers, recovers exactly the names and bytes, so no field wraps, and the length is the announced one |
| `ZipProofs.FieldReads` | celld/native/wiki-zip.ts:18-22 | a field whose value fits reads back from its header |
| `ZipProofs.ArchiveLength` | celld/native/wiki-zip.ts:31 | the archive takes 92 bytes, twice the name and the data per file, and 22 at the end |
| `Export.EventKept` | celld/native/wiki-export.ts:59-63 | no edit, cancel, delay or read lets a slot hold a name, size or byte of any content but that its export began with |
| `Export.RunKept` | celld/native/wiki-export.ts:96-198 | the slot invariant holds over every run |
| `Export.DownloadIsOneVersion` | celld/native/wiki-export.ts:117-163 | in every run a download that finishes is a ZIP archive of exactly the files of the content at the moment some export began, as long as announced, and it reads back |
| `Export.ReadyDownloads` | celld/native/wiki-export.ts:176-197 | an export that is ready and left undisturbed always downloads to the end |
| `ZipWriter.ComputeSize` | celld/native/wiki-zip.ts:23-35 | the size loop computes the specified outcome |
| `ZipWriter.MakeHeader` | celld/native/wiki-zip.ts:18-22 | fields set in place give the specified header |
| `ZipWriter.CopyData` | celld/native/wiki-zip.ts:45-51 | passes a file's bytes on with their CRC, exactly when they are as many as announced |
| `ZipWriter.Chunks` | celld/native/wiki-zip.ts:36-60 | finishes exactly when the size check passes and every file is as long as announced, and then has written the archive |
| `LinksProofs.PiecesTile` | celld/native/wiki-zip.ts:77-141 | the stretches copied or taken for targets cover the source, each place once, even where one crosses lines |
| `LinksProofs.NothingResolvedNothingChanged` | celld/native/wiki-zip.ts:131-133 | with nothing resolved the source comes out unchanged |
| `LinksProofs.SameAnswersSameText` | celld/native/wiki-zip.ts:119-133 | only the answers to what is asked matter |
| `LinkWriter.LineContent` | celld/native/wiki-zip.ts:86-94 | strips quote and list markers and keeps the list stack as specified |
| `LinkWriter.WriteChars` | celld/native/wiki-zip.ts:107-138 | the character loop writes and asks as specified |
| `LinkWriter.WriteLine` | celld/native/wiki-zip.ts:80-106 | each row is skipped, copied or searched as specified |
| `LinkWriter.Rewrite` | celld/native/wiki-zip.ts:77-141 | the targets asked for do not depend on the answers, and only resolved ones are rewritten |
| `LinkWriter.References` | celld/native/wiki-zip.ts:142-146 | collects exactly the targets asked for |
| `LinkWriter.EveryAttachmentResolves` | celld/native/wiki-export.ts:123-130 | once every collected attachment is bundled, each link to one is rewritten, to a path that leads from the page's file to the attachment's |
| `LinkWriter.RelativeFile` | celld/native/wiki-zip.ts:69-73 | the loop over both paths computes the specified relative path |
| `LinkWriter.RelativeLeads` | celld/native/wiki-zip.ts:69-73 | that path is not empty and leads from the first file's directory to the second file |
| `JournalProofs.HandleKept` | celld/native/worker.ts:160-187 | a chat that takes or refuses a request keeps the journal invariant |
| `JournalProofs.CreateKept` | celld/native/worker.ts:389-408 | so does noting a creation and sending it |
| `JournalProofs.HeardKept` | celld/native/worker.ts:409-420 | so does recording or discarding it on the answer |
| `JournalProofs.RunKept` | celld/native/worker.ts:356-367 | so does every run, with crashes on either side |
| `JournalResults.RecordedWasCreated` | celld/native/worker.ts:362 | a row is recorded only if its creation took place |
| `JournalResults.CreatedOnce` | celld/native/worker.ts:163-171 | a creation takes place at most once |
| `JournalResults.ReplayIsInert` | celld/native/worker.ts:163-165 | a replay of a creation that took place changes no chat, not even a deleted one |
| `JournalResults.EscapesExactly` | celld/native/worker.ts:160-187 | a discarded creation that has not taken place can still do so if and only if another request for it is on its way to a chat whose id is not reserved |
| `JournalResults.DiscardIsFinalExactly` | celld/native/worker.ts:363 | so in every reachable state a discard is final exactly when no such request is left |
| `JournalResults.JournalIsExact` | celld/native/worker.ts:356-367 | over every run: what took place is recorded or pending, what is discarded did not, and with nothing pending recorded means created, if and only if no late request or late refusal of that creation occurs |
| `JournalResults.PromptIsExact` | celld/native/worker.ts:402-410 | and none occurs if no request outlives the gate's wait for it |
| `JournalResults.LateRequestEscapes` | celld/native/worker.ts:408-410 | with one, a discarded creation can take place |
| `CreationGates.ChatObject.Create` | celld/native/worker.ts:160-187 | the chat answers and changes as specified, and not at all for a known receipt |
| `CreationGates.CreationGate.Create` | celld/native/worker.ts:389-408 | the gate up to its request makes the specified transition |
| `CreationGates.CreationGate.StartRecovery` | celld/native/worker.ts:356-361 | a recovery replays its rows one by one |
| `CreationGates.CreationGate.Answer` | celld/native/worker.ts:362-364 | the answer is noted and the next row replayed as specified |
| `WindowsProofs.EventKept` | celld/native/reports.ts:95-127 | every report event keeps the window invariant |
| `WindowsProofs.EachCreationCountedOnce` | celld/native/reporting-core.ts:71-88 | completed windows are consecutive half-open intervals, each counts exactly the creations recorded in it, and together they count every one once |
| `WindowsProofs.CleanupSparesUncounted` | celld/native/reports.ts:121-127 | cleanup never deletes a creation that either report has still to count |
| `WindowsProofs.CompleteOnce` | celld/native/reporting-core.ts:79-88 | a stale or repeated completion changes nothing, and a current one queues its mail under an unused id |
| `ReportStores.ReportStore.Ensure` | celld/native/reporting-core.ts:71-73 | a first window begins now and ends at the next boundary, and the window invariant is kept |
| `ReportStores.ReportStore.Prepare` | celld/native/reports.ts:95-103 | a due hourly window is counted, and the count is that of all creations recorded in it |
| `ReportStores.ReportStore.Finish` | celld/native/reporting-core.ts:82-91 | it is completed, or put off, however long that took, and the invariant is kept |
| `ReportStores.ReportStore.Failed` | celld/native/reporting-core.ts:89-91 | puts the window off, and keeps the invariant |
| `ReportStores.ReportStore.CountRows` | celld/native/reports.ts:73 | counts the recorded rows of a half-open interval |
| `ReportStores.ReportStore.Cron` | celld/native/reports.ts:104-114 | the loop completes due windows, at most a hundred, and keeps the invariant |
| `ReportStores.ReportStore.Cleanup` | celld/native/reports.ts:121-127 | deletes recorded rows before both windows, and keeps the invariant |
| `Reporting.EventKept` | celld/native/worker.ts:331-344 | gate, chats and reports on the same rows keep both invariants |
| `Reporting.ReportsCountBirths` | celld/native/reports.ts:104-114 | with nothing pending a report's completed windows add up to the journalled chats that came into being before its current window, if and only if no late request or refusal concerns one of them |
| `Reporting.PromptReportsCountBirths` | celld/native/worker.ts:368-388 | so they always do when no request outlives the gate's wait for it |
| `EventLog.PageIsStretch` | srv/store.go:172-229 | a page is the stretch right after the cursor through `Last`, never empty while there is more, within both bounds, and `More` says whether there is |
| `EventLog.ReadEvents` | srv/store.go:180-229 | the row loop computes that page |
| `EventLog.ReadAll` | srv/store.go:202-204 | reading on from `Last` ends at the head with nothing skipped |
| `EventLog.ReadsSkipNothing` | srv/store.go:180-229 | so does a reader of a log that grows between reads |
| `EventLog.AppendOncePerCursor` | srv/store.go:270-294 | of all appends at one cursor at most one commits, and the others are shown it |
| `EventLog.AppendKeepsLimits` | srv/store.go:295-304 | an append at the head is refused for room exactly when a limit would break |
| `LongPoll.EventKept` | srv/store.go:231-268 | every interleaving keeps the subscription invariant |
| `LongPollResults.NoLostWakeup` | srv/store.go:233-268 | a poll asleep while a newer event exists or its channel is gone has a closed channel or a pending notify that closes it |
| `LongPollResults.WaitersNameExistingChannels` | srv/store.go:241-249 | with nothing in flight the waiter map has an entry for a missing channel id if and only if a read of it failed in storage while it was gone and its poll's notification channel was still open, and the id was neither notified nor created since |
| `LongPollResults.NoErrorNoLeak` | srv/store.go:243-246 | without storage errors it always does |
| `LongPollResults.StorageErrorLeavesEntry` | srv/store.go:241-249 | with one it may not |
| `LongPollResults.Waiters.NotifyCh` | srv/store.go:67-77 | returns the current notification channel, made if missing |
| `LongPollResults.Waiters.Notify` | srv/store.go:79-86 | closes and forgets it |
| `Sections.JoinSplit` | celld/native/wiki-core.ts:111 | splitting at newlines and joining again gives the text |
| `Splitter.NextCut` | celld/native/wiki-core.ts:128-131 | a cut advances, is at most 3000 units on, and parts no surrogate pair |
| `Splitter.Flush` | celld/native/wiki-core.ts:113-116 | a passage leaves the buffer, the text shown unchanged |
| `Splitter.AddLine` | celld/native/wiki-core.ts:126-135 | the inner loop ends and adds exactly the line |
| `Splitter.SplitSections` | celld/native/wiki-core.ts:110-139 | the passages rebuild the Markdown, none exceeds 4000 units, no pair is parted, and each line stands under its heading |

## Left out

- Cryptography: SHA-256 is an injective hash, sealed messages are fresh tokens, and sealing and opening succeed or throw.
- Backoff, retry times and error texts of failed lifecycle steps; a failure only counts attempts, and the next step may run at any time.
- The audit log of the lifecycle, its alarms, and the limit of 20 steps or one second per alarm.
- Field checks of a manifest read back: the hash already fixes its content. The size check of a stored object is part of its hash.
- Attachment content types, the column check of restored rows, and R2 etags, which stand for file contents.
- Attachment uploads and their cleanup alarm: the lifecycle runs with no upload in flight, and live files change only by content writes and the lifecycle.
- A bucket call that takes effect after it has failed, or after the crash of the process that made it.
- The session server of celld, apart from how it commits and refuses a post (`SessionHonesty`); a post that reaches a server twice; presentation callbacks that throw.
- Wiki comments, revisions, search tables and change log: a page's other fields are one opaque value, and the size of a revision snapshot is an input.
- Unicode in page paths: paths are lower-case ASCII, compared character by character.
- `ZipWriter.Chunks`: cancellation and progress callbacks between chunks are not modelled; lower-casing of names for the duplicate check is an arbitrary function.
- `LinkWriter.Rewrite`: regular expressions are arbitrary matchers that match inside the text, never match nothing where they need a literal character, and do not depend on the destination function.
- The export slot is modelled on values, as a state machine: `Export` takes the bytes of every file of a bundle, its JSON and JSONL sidecar files included, as a function of the wiki's content, and one read of a file as one event after its version check. Tickets and the texts of failures are left out, and stored attachment objects do not change while the version stays.
- Creation quotas, mail delivery, report summaries, coverage gaps of disabled tracking, and windows from before coverage tracking.
- Liveness of journal recovery, which depends on the chat objects: only safety is proved.
- A failing deletion or reap in the Go store counts as having changed nothing.
- HTTP routing, headers, pages, media, settings and input validators, the summary limiter and the standalone clients.
