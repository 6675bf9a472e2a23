# Vorntek: protocols and sequential cores

Vorntek is a Django CRM. Its hardest code is a set of small protocols between
database rows, files on disk and concurrent workers, and a few sequential
algorithms whose results those protocols rely on. This project models them and
proves what they are for. `dafny verify dfyconfig.toml` checks everything.

| files | what they model |
|---|---|
| `UploadProtocol`, `UploadInvariant`, `UploadSafety`, `UploadOrphans`, `UploadSweep` | private attachments: upload journal, deduplication, retirement, purge, crash recovery and its paged sweep |
| `AssetUploads`, `AssetOrphans` | the same journal for media assets, with its lock per content |
| `ExportJobs`, `ExportInvariant`, `ExportSafety`, `ExportLate`, `ExportOutcomes`, `ExportService` | customer export jobs: claims, rendering outside the transaction, finish, cancel, retry, download |
| `FlowRequests`, `FlowWorkspace`, `FlowActions`, `FlowEffects`, `FlowSafety`, `FlowStory`, `FlowDesk` | flow workspace mutations: requests and their digests, what each leaves behind, receipts, versions, the materialised graph |
| `ArticleNames`, `ArticleRelease`, `ArticleBuilder`, `ArticleContents`, `ArticleLinks`, `SiteOrigins`, `ArticlePages` | the deterministic article release builder, what it releases, its links and its rendered documents |
| `ReleaseStore`, `ReleaseProtocol`, `ReleaseReads`, `ArticlePublication` | the content-addressed release store, its publishers, readers without a lock, and the way from builder to visitor |
| `FileNames`, `FileArchive`, `FileSnapshot` | data-volume names, backup, verification and restore |
| `DeletionOrder`, `ExampleRemoval` | dependency-ordered removal of example rows |
| `GlbBytes`, `GlbWriter` | the binary glTF writer |
| `LeadQueue`, `LeadNavigation` | the lead queue: sort orders, service-level filters, record navigation and pages |
| `FrontMatter`, `FrontMatterFields` | the front-matter printer and parser |
| `Text`, `Digests`, `Wrappers` | string operations of Python, digests, options and results |

A concurrent protocol is a state machine: an event is one statement or one
file-system call that another process can observe, `Enabled` says when it can
happen, `Apply` what it does, and the theorems hold for every run of events.
Code that works through a class or a loop is a class or a method with a loop,
proved against a function or predicate whose properties are then proved as
lemmas.

## Assumptions

- SHA-256 is injective: a digest determines what was digested. Advisory lock
  numbers derived from it may coincide in reality; a coincidence only makes
  unrelated work wait.
- uuid4 and secrets tokens are fresh.
- Exclusive creation, rename and unlink are single steps. Writing a marker is one
  step; the content of a blob is written in a step of its own.
- PostgreSQL runs at READ COMMITTED; row locks and transaction advisory locks are
  released when the transaction ends. An flock is released when its holder dies.
- The check constraints and triggers of the SQL migrations are in force.
- Attachment and asset rows are never deleted, and nobody else touches the
  private folders.
- Names are strings of characters; Unicode normalisation with case folding, the
  text collation of the database, the URL checks of the standard library, the
  page templates and the JSON encoder are parameters, so the results hold for
  all of them.

## What the proofs found

- An upload that goes on after its database session is gone has lost its locks,
  and a collector may clear the way before it creates a file. One lost session
  can end in a file that no row and no marker knows of if and only if that upload
  could still create one: its own file, which it had not opened yet, or the
  shared file of the row it had found, which it had not restored yet
  (`UploadOrphans.LostSessionOrphansExactly`; one input for each in
  `LostSessionLeavesOrphan` and `LostSessionLeavesSharedOrphan`). Once the
  processes involved have ended, nothing ever removes such a file
  (`OrphanStays`). While sessions survive there is no silent orphan
  (`UploadSafety.NoSilentOrphan`). Asset uploads behave alike until they have
  created their file (`AssetOrphans.LostSessionOrphansExactly`).
- The export download reads its row without a lock and writes the status back
  later. A download that withdraws a row which has moved on since turns a
  canceled job into an expired or failed one, or leaves the new file on disk under
  an expired row that has been finished again. `ExportLate` holds an input for
  each, `ExportSafety.CanceledIsFinal` and `RunStrandsExactly` the exact runs in
  which each happens. A row that is being processed is safe: the check on claim
  tokens refuses the write (`ExportSafety.ProcessingIsGuarded`).
- An installed example bundle that owns an activity, a stage-history or a consent
  row can never be removed: the triggers on those tables refuse the deletion, and
  the whole removal is taken back. Removal succeeds exactly without such rows
  (`ExampleRemoval.ExampleRows.Remove`, with an input in `RemoveImported`).
- An origin with an empty query or fragment passes the builder's check, and every
  link to a translation then loses its path (`SiteOrigins.UrlPathExactly`,
  `SiteOrigins.EmptyQueryIsAccepted`).
- The rows of a node that is switched off keep what they last held, so the
  stored tables are a function of the workspace only up to those paused rows
  (`FlowSafety.PausedRowsRemember`).
- A manifest that lists its names out of order verifies, and restoring it writes
  the whole tree and then refuses with the incomplete marker in place
  (`FileSnapshot.DisorderedVerifies`, `FileSnapshot.RestoreDisordered`). Backups
  never produce such a manifest.
- Export and import of front matter lose a value exactly when it has a line
  break, surrounding white space or a pair of quotes (`FrontMatter.FieldsReadBack`).

## Model

| member | source | states |
|---|---|---|
| `UploadInvariant.StepKeepsInv` | apps/crm/console/crm_files.py:154-253 | Every statement of an upload, a retirement, a purge or a recovery, and every crash or lost session between two of them, keeps the store consistent: locks exclude each other, files match what rows and markers say, no foreign transaction is disturbed |
| `UploadSafety.RunKeepsInv` | apps/crm/console/crm_files.py:70-274 | The same over every run of any length |
| `UploadSafety.UnlinkIsSafe` | apps/crm/console/crm_upload_recovery.py:145-154 | A file that a step removes is not the live file of a committed row, and no open transaction can still commit a row for it; only a purge may remove one that a retired row names |
| `UploadSafety.UnlinksAreSafe` | apps/crm/console/crm_upload_recovery.py:129-154 | The same for the next step after any run from any admissible start, with deduplicating uploads, retirements and purges interleaved |
| `UploadSafety.LiveFilesHoldTheirContent` | apps/crm/console/crm_files.py:191-253 | After any run a live row's file is on disk with exactly the row's content, unless a legacy row lacked its file from the start |
| `UploadSafety.RunKeepsDead` | apps/crm/console/crm_upload_recovery.py:129-154 | A used path that no row names and no open upload can write or commit stays that way for ever |
| `UploadSafety.NeverNamedAgain` | apps/crm/console/crm_upload_recovery.py:131-146 | What recovery tests is enough for ever: token lock free and no row naming the path imply that no later step makes one name it |
| `UploadSafety.NoSilentOrphan` | apps/crm/console/crm_files.py:242-274 | At every crash point of every run whose sessions survive, each upload file is named by a row (live or to be purged) or still has its marker |
| `UploadSafety.OrphansWereRisked` | apps/crm/console/crm_files.py:184-274 | With lost sessions anywhere, an orphan after any run is at a path at which some upload could still create a file when it lost its session: its own path, not yet opened, or the path of the row it has found, not yet restored |
| `UploadOrphans.LostSessionOrphansExactly` | apps/crm/console/crm_files.py:184-223 | Exactly when one lost session can end in a file that no row and no marker knows of, whatever happens next: if and only if that upload could still create a file there. Holds for every transaction of every consistent state, with deduplication, retirement, purge and recovery interleaved |
| `UploadOrphans.RunOrphansExactly` | apps/crm/console/crm_files.py:184-223 | The same after any run from any admissible start |
| `UploadOrphans.RiskyLossOrphans` | apps/crm/console/crm_files.py:208-223 | And then the orphan can be left with nothing running any more |
| `UploadOrphans.OrphanStays` | apps/crm/console/crm_upload_recovery.py:129-154 | Once the processes that knew of it have ended, no later step of anybody, recovery and purge included, ever removes such an orphan |
| `UploadOrphans.LostSessionLeavesOrphan` | apps/crm/console/crm_upload_recovery.py:74-93 | The first input: the session is lost between marker and file, recovery clears the marker, and the upload then creates its file and dies |
| `UploadOrphans.LostSessionLeavesSharedOrphan` | apps/crm/console/crm_files.py:208-223 | The second input: the session is lost after a row of the same content was found, the row is retired and its file purged, and the upload then restores the file and dies |
| `UploadSweep.Smallest` | apps/crm/console/crm_upload_recovery.py:187-189 | The page of names is the smallest ones above the cursor, in order, and it is short only when there are no more |
| `UploadSweep.PrivateStorage.ReconcileMarker` | apps/crm/console/crm_upload_recovery.py:129-167 | One marker: the status for each case, the file gone exactly if removed, the marker gone exactly if removed or referenced |
| `UploadSweep.PrivateStorage.ReconcilePage` | apps/crm/console/crm_upload_recovery.py:190-194 | A page: each marker dealt with on its own merits, whatever the order, and the counters total the statuses |
| `UploadSweep.PrivateStorage.ReconcilePending` | apps/crm/console/crm_upload_recovery.py:179-197 | Limits outside 1..100 change nothing; otherwise one page is swept and the cursor is its last name exactly when names remain |
| `UploadSweep.PrivateStorage.ReconcileAll` | apps/crm/console/crm_upload_recovery.py:179-197 | Following the cursor until none is returned sweeps the whole journal exactly once, whatever the page size |
| `UploadSweep.SweptMore` | apps/crm/console/crm_upload_recovery.py:190-194 | Sweeping one part and then another equals sweeping both at once |
| `UploadSweep.NextPage` | apps/crm/console/crm_upload_recovery.py:187-197 | A page that starts at the cursor extends what is done without a gap |
| `UploadSweep.FullSweepLeavesOnlyUncertain` | apps/crm/console/crm_upload_recovery.py:145-154 | After a full pass over a quiet store the unnamed files left are exactly those whose marker says created: false, only their markers are left, and no named file was touched |
| `UploadSweep.ReconcileIsARecoveryRun` | apps/crm/console/crm_upload_recovery.py:129-154 | The sequential pass over one marker is an uninterrupted run of the concurrent protocol, so the safety results apply to it |
| `AssetUploads.StepKeepsInv` | apps/crm/console/forms.py:163-223 | The asset protocol: every statement, every crash and every lost session keeps locks exclusive and files, markers and rows consistent |
| `AssetUploads.RunKeepsInv` | apps/crm/console/forms.py:163-223 | The same over every run |
| `AssetUploads.OneAssetPerContent` | apps/crm/console/forms.py:194-215 | From any consistent store, however uploads of one content race, at most one asset comes to hold it, and its file holds that content unless the store lacked it from the start: the content lock makes lookup and insertion one unit |
| `AssetUploads.FoundAssetIsThere` | apps/crm/console/forms.py:199-207 | An upload that is told of an existing asset is told of one whose file is there with the uploaded content, also in a store where files of other assets are missing |
| `AssetUploads.NoSilentOrphan` | apps/crm/console/asset_upload_recovery.py:22-71 | At every crash point of every run whose sessions survive, each asset file belongs to an asset or still has its marker |
| `AssetUploads.OrphansWereRisked` | apps/crm/console/asset_upload_recovery.py:22-71 | With lost sessions anywhere, an orphan is at a path whose upload had not created its file yet when it lost its session |
| `AssetOrphans.LostSessionOrphansExactly` | apps/crm/console/forms.py:181-186 | Exactly when one lost session can end in a file that no asset and no marker knows of, whatever happens next: if and only if that upload had not created its file yet |
| `AssetOrphans.RunOrphansExactly` | apps/crm/console/forms.py:181-186 | The same after any run from any consistent store |
| `AssetUploads.UnlinksAreSafe` | apps/crm/console/asset_upload_recovery.py:43-71 | A file that goes away belongs to no asset and to no upload that could still commit |
| `ExportInvariant.StepKeepsInv` | apps/crm/console/customer_pool_exports.py:437-561 | Claim, render, finish, fail, cancel, retry, crash and download, however late it writes back, keep jobs, workers, files and the copies held by downloads consistent |
| `ExportSafety.RunKeepsInv` | apps/crm/console/customer_pool_exports.py:437-561 | The same over every run |
| `ExportSafety.OnlyTheClaimHolderFinishes` | apps/crm/console/customer_pool_exports.py:528-561 | A job becomes ready only through the worker that holds its current token, its owner still capable and still seeing every company; the stored file covers exactly the job's scope under its own digest |
| `ExportSafety.SupersededWorkerLeavesNoTrace` | apps/crm/console/customer_pool_exports.py:528-545 | A superseded or canceled worker leaves every row as it is and removes its own file |
| `ExportSafety.SupersededForEver` | apps/crm/console/customer_pool_exports.py:462-497 | A token that has left a row never returns to it, whatever happens |
| `ExportSafety.SupersededNeverFinishes` | apps/crm/console/customer_pool_exports.py:462-561 | After a stale reclaim, a cancellation or a retry, the old worker can never finish the job |
| `ExportSafety.CanceledIsFinal` | apps/crm/console/customer_pool_exports.py:803-823 | A canceled row never changes again in exactly the runs in which no download that had read it withdraws it afterwards |
| `ExportSafety.CanceledUnlessLate` | apps/crm/console/customer_pool_exports.py:719-757 | One step changes a canceled row exactly when it is the write-back of a download that withdraws it |
| `ExportLate.LateDownloadRevivesCanceled` | apps/crm/console/customer_pool_exports.py:719-757 | Such a run exists: the unlocked download turns a canceled job into an expired one, which may be retried |
| `ExportSafety.FilesAreConserved` | apps/crm/console/customer_pool_exports.py:400-403 | At every point of every run the files are exactly those of ready jobs (less interrupted withdrawals), those held by workers between build and finish, those left by dead workers, and those stranded under a failed or expired row; no file is two of these |
| `ExportSafety.RunStrandsExactly` | apps/crm/console/customer_pool_exports.py:719-757 | No file is ever stranded in exactly the runs without a download that withdraws a row which has been finished again since with another file that is there |
| `ExportLate.LateDownloadStrandsFile` | apps/crm/console/customer_pool_exports.py:719-757 | Such a run exists: two downloads, a retry and a second finish leave the new file on disk under an expired row, with no worker |
| `ExportSafety.CleanRunsConserveFiles` | apps/crm/console/customer_pool_exports.py:500-561 | Without crashes, and without such a write-back, there are only the files of ready jobs and of workers |
| `ExportSafety.TokenExactlyWhileProcessing` | apps/crm/console/customer_pool_exports.py:462-497 | At every point of every run a row carries a token exactly while it is being processed, and no two rows the same one |
| `ExportSafety.ProcessingIsGuarded` | apps/crm/db/migrations/0045_customer_export_claim_generation.sql:11-24 | A late download disturbs neither a row that is being processed nor any file: the table refuses its write, and it only ends |
| `ExportSafety.ScopeNeverChanges` | apps/crm/console/customer_pool_exports.py:437-561 | Owner and scope of a job are what they were, after any run |
| `ExportSafety.ServedContentIsAuthorized` | apps/crm/console/customer_pool_exports.py:732-757 | In every state that satisfies the invariant, and so after any run, whatever a download serves, on time or late, is the workbook of exactly the job's companies, all visible to the owner at that moment |
| `ExportService.CustomerExports.Snapshot` | apps/crm/console/customer_pool_exports.py:406-419 | The id loop accepts exactly a scope of positive, distinct, visible ids |
| `ExportService.CustomerExports.ClaimJob` | apps/crm/console/customer_pool_exports.py:462-497 | One claim event of the protocol, or nothing |
| `ExportService.CustomerExports.FailProcessingJob` | apps/crm/console/customer_pool_exports.py:437-459 | Fails the row and removes its file only for the holder of the current token |
| `ExportService.CustomerExports.Render` | apps/crm/console/customer_pool_exports.py:513-526 | Builds exactly when the scope is still authorised; otherwise gives the claim up |
| `ExportService.CustomerExports.FinishJob` | apps/crm/console/customer_pool_exports.py:528-561 | One finish event; ready exactly for a current token and an authorised scope |
| `ExportService.CustomerExports.CancelJob` | apps/crm/console/customer_pool_exports.py:803-823 | One cancel event where the status allows it, otherwise nothing |
| `ExportService.CustomerExports.RetryJob` | apps/crm/console/customer_pool_exports.py:763-800 | One retry event where status and scope allow it, otherwise nothing |
| `ExportService.CustomerExports.AnswerDownload` | apps/crm/console/customer_pool_exports.py:732-757 | The file is served exactly when the copy has not expired, its scope is positive, distinct and visible to the owner, its fields and format are valid and the file is there with the stored digest; any other answer withdraws the row and leaves no file of the copy: 403 exactly for a scope that no longer holds and has not expired, 410 otherwise, and a write onto a row that is being processed fails |
| `ExportService.CustomerExports.Download` | apps/crm/console/customer_pool_exports.py:717-757 | A download that nobody comes between: served, with that very file, if and only if the job is ready and all those conditions hold; otherwise a ready row expires or fails and its file goes, and nothing else changes |
| `ExportOutcomes.JudgedExactly` | apps/crm/console/customer_pool_exports.py:732-757 | What a copy is served, withdrawn as or loses, by each condition: the file stays only if it was missing with everything else in order |
| `ExportOutcomes.ClaimGives` | apps/crm/console/customer_pool_exports.py:462-497 | A waiting or stale job goes to the worker under the new token, or fails where its owner may not export; no other row and no file changes |
| `ExportOutcomes.BuildGives` | apps/crm/console/customer_pool_exports.py:513-526 | A build writes one new file with exactly the companies of the scope, and only while scope and shape hold |
| `ExportOutcomes.FinishGives` | apps/crm/console/customer_pool_exports.py:528-561 | The row becomes ready under the built file exactly for the current claim of an owner who may still have it; otherwise the file goes |
| `ExportOutcomes.GiveUpGives` | apps/crm/console/customer_pool_exports.py:437-459 | A worker that gives up fails its job if it still holds the claim, and only then |
| `ExportOutcomes.CancelGives` | apps/crm/console/customer_pool_exports.py:803-823 | A job that waits, runs or is ready can be canceled and no other; its file goes and its token is void |
| `ExportOutcomes.RetryGives` | apps/crm/console/customer_pool_exports.py:763-800 | A failed or expired job is queued again, as if never built, exactly if its scope and shape still hold |
| `FlowWorkspace.TaskKeysAreTheTemplate` | apps/crm/console/flow_workspace_schema.py:97-101 | The key list, the membership test and the numbering agree, and no key repeats |
| `FlowActions.PositionsAreClean` | apps/crm/console/flow_workspace_schema.py:153-164 | Positions are accepted exactly from an object whose keys are all tasks of this workspace and whose values are pairs of finite numbers; what is stored has one position for each of them, within the bounds of the canvas, and the one sent wherever that was |
| `FlowActions.ActedTouches` | apps/crm/console/flow_workspace_service.py:239-309 | Every part of a flow and the only actions that may change it; a saved configuration leaves no draft behind, and history grows by one up to its limit |
| `FlowActions.RevisionRisesExactly` | apps/crm/console/flow_workspace_service.py:274-291 | The desired revision rises by one exactly when the configuration, the filter switch or the runtime binding changes |
| `FlowSafety.ReceiptIsFound` | apps/crm/console/flow_workspace_service.py:219-225 | A logged request is found again, in the cache or in the log, with the receipt it was logged with |
| `FlowSafety.StepKeepsBook` | apps/crm/console/flow_workspace_service.py:212-332 | Every command keeps cache, log and versions consistent |
| `FlowSafety.RunKeepsBook` | apps/crm/console/flow_workspace_service.py:212-332 | The same over every run |
| `FlowSafety.RunKeepsInv` | apps/crm/console/flow_workspace_service.py:212-332 | With possible evictions the stored graph is kept as well |
| `FlowSafety.RunExtends` | apps/crm/console/flow_workspace_service.py:212-332 | Flows stay in their site, versions and revisions never fall, and the log only grows |
| `FlowSafety.EffectsAreLogged` | apps/crm/console/flow_workspace_service.py:230-332 | A mutation that changes anything adds one log line for a request id that had none, against the version the caller had seen |
| `FlowSafety.ReplayIsAnswered` | apps/crm/console/flow_workspace_service.py:217-229 | A granted request sent again, the same object by the same actor, after any history and whatever validation would say by then: nothing changes and the same flow comes back, whichever receipts were evicted |
| `FlowSafety.ReuseIsRefused` | apps/crm/console/flow_workspace_service.py:217-228 | The same id with another object, even one that cleans to the same values, or by another actor is refused for ever and changes nothing |
| `FlowSafety.RecordedIsOk` | apps/crm/console/flow_workspace_service.py:312-322 | An accepted request leaves its receipt among at most 64, older ones as they were or evicted, the version one higher except for a copy, and the status that the configurations call for |
| `FlowStory.WorkspaceIsItsStory` | apps/crm/console/flow_workspace_service.py:212-332 | After any run a flow holds exactly what replaying its accepted requests, in order, makes of what it held before: refusals, replays, other flows, receipts and graph rows play no part |
| `FlowStory.StoryIsLogged` | apps/crm/console/flow_workspace_service.py:325-331 | And those requests, copies apart, are exactly what the run added to the audit log of the flow |
| `FlowSafety.NoUpdateIsLost` | apps/crm/console/flow_workspace_service.py:230-231 | The version is one plus the number of accepted requests that change the flow, and the i-th of them was accepted from somebody who had seen version i |
| `FlowSafety.RevisionFixesConfiguration` | apps/crm/console/flow_workspace_service.py:261-290 | Two states of one flow with equal desired revision have equal configurations and filter switch |
| `FlowSafety.GraphFollowsWorkspace` | apps/crm/console/flow_workspace_service.py:80-111 | After every run keys stay within the template and the stored nodes, tasks and edges are the planned ones, out-of-template rows paused and skipped |
| `FlowSafety.PausedRowsRemember` | apps/crm/console/flow_workspace_service.py:99-100 | Paused rows are the exception: switching the filter on and off restores the workspace but leaves a node row that was not there before |
| `FlowDesk.SlicingEvicts` | apps/crm/console/flow_workspace_service.py:318 | Whatever order the stored receipts are read back in, keeping the newest 64 is one of the evictions the protocol allows |
| `FlowDesk.FlowTables.BuildRows` | apps/crm/console/flow_workspace_service.py:82-98 | The numbered loop creates or replaces exactly the rows of the template |
| `FlowDesk.FlowTables.RefreshRows` | apps/crm/console/flow_workspace_service.py:82-100 | Nodes and tasks become the planned ones, the others set aside |
| `FlowDesk.FlowTables.ReplaceEdges` | apps/crm/console/flow_workspace_service.py:101-111 | The edges become exactly the planned pairs, whatever was stored |
| `FlowDesk.FlowTables.Graph` | apps/crm/console/flow_workspace_service.py:80-111 | One flow's rows and edges are brought in line, all else unchanged |
| `FlowDesk.FlowTables.Prior` | apps/crm/console/flow_workspace_service.py:220-225 | The search from the newest audit row finds the receipt the specification means |
| `FlowDesk.FlowTables.CreateFlow` | apps/crm/console/flow_workspace_service.py:114-158 | Creation is idempotent for the same content and owner, refused otherwise |
| `FlowDesk.FlowTables.CopyFlow` | apps/crm/console/flow_workspace_service.py:247-257 | A copy takes topology and layout, not configuration |
| `FlowDesk.FlowTables.MutateFlow` | apps/crm/console/flow_workspace_service.py:212-332 | The whole mutation performs one step of the specified store, whose effect for each action FlowEffects gives column by column |
| `FlowEffects.SaveConfigGives` | apps/crm/console/flow_workspace_service.py:261-278 | An accepted save_config of a task leaves the cleaned values as its configuration and no draft of it, raises the revision unless they were stored already, draws the graph again, and leaves every other column and flow as it was; it is accepted exactly for the current version of a flow in use, a task of the flow, valid values, and not against the pixel step |
| `FlowEffects.SaveDraftGives` | apps/crm/console/flow_workspace_service.py:261-273 | An accepted save_draft changes that draft and nothing else; when it is accepted |
| `FlowEffects.PixelStepGives` | apps/crm/console/pixel_step_service.py:8-57 | The pixel step keeps a draft, or configures pixel and form together, drops both drafts and manages both from then on; when each is accepted |
| `FlowEffects.RenameGives` | apps/crm/console/flow_workspace_service.py:239-240 | An accepted rename changes the name and nothing else |
| `FlowEffects.NamesAreSqueezed` | apps/crm/console/flow_workspace_schema.py:104-110 | A name is the text sent with its ends stripped and each run of white space made one blank, accepted exactly from 2 to 200 characters |
| `FlowEffects.ArchiveGives` | apps/crm/console/flow_workspace_service.py:245-246 | Archiving and restoring change only the status, and are accepted exactly from administrators |
| `FlowEffects.GuideGives` | apps/crm/console/flow_workspace_service.py:241-244 | Closing and reopening the guide is accepted on any flow and changes nothing else |
| `FlowEffects.FilterGives` | apps/crm/console/flow_workspace_service.py:281-291 | Switching the filter node raises the revision exactly when it changes; switching it off forgets its configuration, draft and position |
| `FlowEffects.PositionsGives` | apps/crm/console/flow_workspace_schema.py:153-164 | A layout is accepted exactly from an object of task names with pairs of finite numbers; it replaces the one before, each coordinate sent or the bound it lies beyond |
| `FlowEffects.EvidenceGives` | apps/crm/console/flow_workspace_service.py:292-314 | A manual record is accepted exactly with a known result, a note of 8 to 2000 characters and a short reference, below 1000 entries |
| `FlowEffects.PreflightGives` | apps/crm/console/flow_workspace_service.py:292-296 | A preflight is accepted exactly below 1000 entries |
| `FlowEffects.DuplicateGives` | apps/crm/console/flow_workspace_service.py:247-257 | A copy is a blank flow with the topology and layout of its source, of which only the receipts change |
| `FlowEffects.CreateGives` | apps/crm/console/flow_workspace_service.py:115-158 | A new id makes one blank flow, every node pending; a known id is answered exactly for the same site, owner and content |
| `FlowEffects.RefusedFor` | apps/crm/console/flow_workspace_service.py:230-238 | Outdated requests conflict, forbidden ones are denied, archived flows and unknown actions are invalid, and a refusal changes nothing |
| `FlowEffects.RedrawsTask` | apps/crm/console/flow_workspace_service.py:80-111 | Each node of the template has rows that say whether and how it is configured, numbered by its place in the list; the others are set aside as they are |
| `FlowEffects.FilterSplitsOneEdge` | apps/crm/console/flow_workspace_service.py:102-104 | The filter node only splits the edge from crm to server; without it every task but the dataset has a next one and every task but the ad one before it |
| `FlowDesk.FlowTables.Record` | apps/crm/console/flow_workspace_service.py:312-332 | Version, receipt, row, graph and audit line of an accepted request |
| `ArticleNames.PathsAreDistinct` | apps/crm/console/article_delivery.py:98-104 | Two articles share an address only when language and slug are equal: no language code can be taken for the word after it |
| `ArticleNames.HubName` | apps/crm/console/article_rendering.py:183-208 | A language's hub is stored under a valid artifact name, the one a read of its route looks for |
| `ArticleNames.ArticleName` | apps/crm/console/article_rendering.py:208-317 | So is every article |
| `ArticleNames.HubNamesAreDistinct` | apps/crm/console/article_rendering.py:183-317 | Hubs of different languages have different names |
| `ArticleNames.ArticleNamesAreDistinct` | apps/crm/console/article_rendering.py:208-317 | Articles that differ in language or slug have different names |
| `ArticleNames.HubIsNoArticle` | apps/crm/console/article_rendering.py:183-317 | No hub and article share a name |
| `ArticleNames.ArticleIsReadable` | apps/crm/console/article_release_store.py:112-144 | Every address the builder gives is a route the store accepts and can read |
| `ArticleNames.SourceIsReadable` | apps/crm/console/article_release_store.py:129-144 | So is every former address |
| `ArticleNames.ArtifactNamesExactly` | apps/crm/console/article_release_store.py:112-126 | The valid artifact names are the sitemap, the hubs and the articles, with or without a locale in front, and nothing else |
| `ArticleNames.RoutesExactly` | apps/crm/console/article_release_store.py:129-144 | The valid redirect routes are the article addresses, with or without a locale in front, and nothing else |
| `ArticleRelease.CleaningSettles` | apps/crm/console/article_delivery.py:76-86 | An accepted locale is clean: checking what came of it again accepts it unchanged |
| `ArticleRelease.ValidateLocales` | apps/crm/console/article_delivery.py:68-95 | Success means valid distinct locales and exactly one default; a refusal names the first fault |
| `ArticleRelease.BlameIsJustified` | apps/crm/console/article_delivery.py:68-95 | A refused list of locales is valid for no choice of default |
| `ArticleRelease.FaultFreeStep` | apps/crm/console/article_delivery.py:185-217 | One more version is compatible with the rest exactly when the builder finds no fault with it |
| `ArticleBuilder.CheckVersion` | apps/crm/console/article_delivery.py:185-217 | The checks against sets and dictionaries report the fault the specification gives, in its order |
| `ArticleBuilder.Collect` | apps/crm/console/article_delivery.py:182-243 | The loop accepts exactly compatible collections and ends with the sets, dictionaries and rows of the accepted versions; a refusal names a version that is at fault |
| `ArticleBuilder.Documented` | apps/crm/console/article_delivery.py:247-254 | Every row gets its alternates and none is lost |
| `ArticleBuilder.Articles` | apps/crm/console/article_delivery.py:247-273 | The articles are all of them, in path order |
| `ArticleBuilder.Untranslated` | apps/crm/console/article_delivery.py:275-282 | The gap list is all incomplete groups, in key order, each with what it lacks |
| `ArticleBuilder.BuildRelease` | apps/crm/console/article_delivery.py:155-284 | The builder succeeds with the one release the live versions determine, or refuses with a justified code; ArticleContents says what that release contains and when there is one |
| `ArticleContents.ArticlesTell` | apps/crm/console/article_delivery.py:190-243 | Every article of an accepted release is that of exactly one live version: title, excerpt, body, description, author, cover, social fields, robots, category, direction, address and canonical address are the version's own, with the fallbacks spelled out |
| `ArticleContents.VersionsAreTold` | apps/crm/console/article_delivery.py:190-243 | Every live version has such an article |
| `ArticleContents.PayloadTells` | apps/crm/console/article_delivery.py:255-284 | Site, origin, cleaned locales and default; a redirect for each live version that was served elsewhere before, to its address, and no other |
| `ArticleContents.ReleasedExactly` | apps/crm/console/article_delivery.py:155-246 | A release is built if and only if the site fits, each live version fits it, and no two share key and language, an address or a former address, nor one the former address of another |
| `ArticleBuilder.BlameMeansRefusal` | apps/crm/console/article_delivery.py:185-246 | A refusal is never an accident of order: what is blamed is refused in any order |
| `ArticleBuilder.ReleaseIsUnique` | apps/crm/console/article_delivery.py:256-284 | The live versions determine the payload |
| `ArticleBuilder.BuilderIsCanonical` | apps/crm/console/article_delivery.py:182-284 | For any reordering of the input the builder succeeds or refuses alike, with the same payload and digest |
| `ArticleLinks.RedirectsHopOnce` | apps/crm/console/article_delivery.py:211-246 | A redirect reaches a published address in one hop and stands in front of none |
| `ArticleLinks.ArticlesAreAddressed` | apps/crm/console/article_delivery.py:98-104 | Every article has the address of its own language and slug, no two the same |
| `ArticleLinks.ArticlesAreTranslated` | apps/crm/console/article_delivery.py:247-254 | An article names exactly the published translations of its key, the same for all members, with x-default exactly when the default language is among them |
| `ArticleLinks.MissingIsComplement` | apps/crm/console/article_delivery.py:275-282 | For every published key and supported language: published, or reported missing, never both and never neither |
| `ArticleLinks.ReleaseIsWellLinked` | apps/crm/console/article_delivery.py:155-284 | Every accepted release has all these guarantees |
| `ArticlePages.DirectLinks` | apps/crm/console/article_rendering.py:175-179 | The first loop maps exactly the addresses of articles with a translation |
| `ArticlePages.AliasLinks` | apps/crm/console/article_rendering.py:180-182 | The second loop adds exactly the aliases of those |
| `ArticlePages.BuildLinks` | apps/crm/console/article_rendering.py:175-182 | The link map of a language, both loops together |
| `SiteOrigins.UrlPathExactly` | apps/crm/console/article_rendering.py:178-179 | The path of an address of this site can be read back from it exactly when the origin carries no question mark and no hash |
| `SiteOrigins.EmptyQueryIsAccepted` | apps/crm/console/article_delivery.py:107-132 | An origin with an empty query passes the check and loses every path |
| `ArticlePages.LinksReachTranslations` | apps/crm/console/article_rendering.py:167-182 | A rewritten link names a published translation of the very article it named, never a redirect, and leads to it exactly when the site's origin is plain |
| `ArticlePages.PageNamesAreDistinct` | apps/crm/console/article_rendering.py:208-317 | No two pages of a release are stored under one name |
| `ArticlePages.PageNameIsValid` | apps/crm/console/article_release_store.py:112-126 | Every page is stored under a name the store accepts and a read of its route looks for |
| `ArticlePages.RenderDocuments` | apps/crm/console/article_rendering.py:156-318 | The document map holds exactly one page per hub and per article, none overwritten |
| `ReleaseStore.VerifiesExactlyIntact` | apps/crm/console/article_release_store.py:285-311 | Verification succeeds exactly on a folder with its own manifest, valid names and redirects, and exactly the listed files with the listed content |
| `ReleaseStore.IntactExactly` | apps/crm/console/article_release_store.py:147-180 | Spelled out: schema 1, the store's site and preview flag, valid names and routes, the digest it is named by, and exactly the listed files with the listed digests |
| `ReleaseStore.VersionFixesContent` | apps/crm/console/article_release_store.py:285-311 | A version has one content: complete folders of one name are equal file by file |
| `ReleaseStore.WrittenIsComplete` | apps/crm/console/article_release_store.py:248-270 | What is written out of a snapshot matches its manifest |
| `ReleaseStore.Verify` | apps/crm/console/article_release_store.py:285-311 | The file loop reports the manifest or the first kind of fault |
| `ReleaseStore.ReleaseFolder.Stage` | apps/crm/console/article_release_store.py:236-283 | An accepted release is in the store under its own digest with schema 1, the owner's site and preview flag, the snapshot's source digest and exactly its redirects, and exactly its documents with their digests; accepted only with a matching site, no gaps outside a preview, valid names and valid redirects, and always then if the folders present are complete; folders present stay as they are |
| `ReleaseStore.ReleaseFolder.FillStage` | apps/crm/console/article_release_store.py:262-269 | The stage folder ends up with exactly the documents |
| `ReleaseStore.ReleaseFolder.Activate` | apps/crm/console/article_release_store.py:325-345 | Compare and swap: the pointer changes exactly when the expected version is active and the new one verifies |
| `ReleaseProtocol.StepKeepsInv` | apps/crm/console/article_release_store.py:236-345 | Every disk step of concurrent publishers, and every crash, keeps releases complete, the lock exclusive and the pointers chained |
| `ReleaseProtocol.RunKeepsInv` | apps/crm/console/article_release_store.py:236-345 | Over every run, releases present stay unchanged and the list of pointers only grows |
| `ReleaseProtocol.StoreIsSafe` | apps/crm/console/article_release_store.py:236-345 | After any run a release folder is absent or complete, and every pointer names a release that verifies and, as previous, the one active just before |
| `ReleaseProtocol.SwapIsCompareAndSwap` | apps/crm/console/article_release_store.py:325-345 | When the pointer is replaced, the version compared with is still the active one |
| `ReleaseReads.RunsEvolve` | apps/crm/console/article_release_store.py:347-378 | Whatever publishers do between the accesses of a reader, by any run of the publishing protocol, what the reader sees is such a world |
| `ReleaseReads.ReleaseStays` | apps/crm/console/article_release_store.py:347-378 | A release present at one access is present and unchanged at every later one |
| `ReleaseReads.ReadRoute` | apps/crm/console/article_release_store.py:356-378 | A read without the lock never fails and returns the file the release active at its first look gives for the route, whatever was activated meanwhile |
| `ReleaseReads.ReadVersionFile` | apps/crm/console/article_release_store.py:347-354 | A file of a present release is read as it is |
| `ReleaseReads.ReadDocuments` | apps/crm/console/article_build_input.py:20-25 | The loop collects every document of the one version, or refuses undecodable content |
| `ReleaseReads.ReadBuildInput` | apps/crm/console/article_build_input.py:12-34 | The build input is the one version whole, or the fault verification reports |
| `ReleaseReads.ReadActiveBuildInput` | apps/crm/console/article_build_input.py:37-51 | Never a mixture: the version was active at the first and the last look at the pointer, and the input is that version whole; if it is still active at the end, the read does not fail for any other reason than its content |
| `ReleaseReads.ActiveInputTells` | apps/crm/console/article_build_input.py:28-34 | While the version of a snapshot is active, the active build input has the snapshot's source, redirects and documents, and fails exactly if one of them is no text |
| `ArticlePublication.ReleaseIsStageable` | apps/crm/console/article_release_store.py:236-283 | A rendered release without gaps, or any in a preview store, is staged and verifies |
| `ArticlePublication.ArticleIsServed` | apps/crm/console/article_release_store.py:356-378 | While the release is active, the address of each article answers with the page of that very article |
| `ArticlePublication.OnlyThisReleaseIsServed` | apps/crm/console/article_release_store.py:356-378 | Nothing but the hubs, articles and sitemap of the active release is served |
| `ArticlePublication.BuildInputTells` | apps/crm/console/article_build_input.py:28-51 | The build input of an active release has the release's own redirects, its rendered pages and its sitemap, and nothing else |
| `ArticlePublication.BuiltReleaseIsWellLinked` | apps/crm/console/article_delivery.py:155-284 | What the builder returns has everything rendering and staging need |
| `FileNames.MarkerIsUnsafe` | scripts/file_archive.py:39-41 | The incomplete marker is never a safe name |
| `FileNames.SafeExactly` | scripts/file_archive.py:33-48 | A name is safe if and only if it has no backslash and no part that is empty, one or two dots, the marker, ends in a blank or a dot, holds a control character or one of the seven forbidden ones, or names a device in any case |
| `FileNames.PlainIsSafe` | scripts/file_archive.py:33-48 | Names of letters, digits, hyphens, underscores and inner dots that name no device are safe |
| `FileArchive.InspectableExactly` | scripts/file_archive.py:59-103 | A tree can be listed if and only if its names are good, said on their characters, and no two are equal after folding; plain names are good |
| `FileArchive.ParentIsShallower` | scripts/file_archive.py:185 | A directory on the way to a name has fewer slashes, so it sorts before it |
| `FileArchive.ListingIsValid` | scripts/file_archive.py:59-103 | A tree can be listed exactly when its listing is a valid manifest: safe names, no two equal after folding |
| `FileArchive.CheckNames` | scripts/file_archive.py:86-93 | The loop refuses exactly unsafe names, said on their characters, and names equal after folding |
| `FileArchive.CheckParents` | scripts/file_archive.py:94-97 | The loop refuses exactly a missing or non-directory parent |
| `FileArchive.ValidateEntries` | scripts/file_archive.py:81-103 | Accepts exactly valid listings and returns their total size |
| `FileArchive.Inspect` | scripts/file_archive.py:59-78 | Lists exactly the tree, in order, or refuses a tree that has no valid listing |
| `FileArchive.VerifyBundle` | scripts/file_archive.py:106-127 | Accepts exactly a bundle of the right format and volume whose objects are the listed ones with the listed digest and size |
| `FileSnapshot.SnapshotFolder.Backup` | scripts/file_archive.py:150-173 | A finished backup is a snapshot of the tree as first listed, even if files changed while being copied; a quiet tree with good names is always backed up, in particular one of plain names, and a tree with a bad name or two names equal after folding is refused with nothing written; before the manifest is issued no state verifies |
| `FileSnapshot.SnapshotFolder.CopyObjects` | scripts/file_archive.py:160-165 | Each distinct content is stored once under its own digest, or the backup stops |
| `FileSnapshot.UnissuedNeverVerifies` | scripts/file_archive.py:106-112 | A snapshot directory without a manifest never verifies |
| `FileSnapshot.Volume.MakeDirectories` | scripts/file_archive.py:185-188 | In order of depth, no directory is made before its parents |
| `FileSnapshot.Volume.CreateFiles` | scripts/file_archive.py:189-195 | Every file is created exclusively in an existing directory, with the stored content |
| `FileSnapshot.Volume.Restore` | scripts/file_archive.py:174-200 | Ends well exactly when the bundle verifies, the volume holds no file and no foreign directory, the operator confirmed and the manifest is in order; a refusal before the first write changes nothing; every state from the first write on carries the marker or is the finished tree |
| `FileSnapshot.MarkerStopsEverything` | scripts/file_archive.py:39-41 | A volume with the marker can be neither backed up nor restored into |
| `FileSnapshot.ByDepth` | scripts/file_archive.py:185 | All names, parents before children |
| `FileSnapshot.SnapshotRebuildsItsTree` | scripts/file_archive.py:150-200 | What a snapshot rebuilds is the tree it was taken of |
| `FileSnapshot.RoundTrip` | scripts/file_archive.py:150-200 | Backup, verify and restore into an empty volume reproduce the exact tree |
| `FileSnapshot.RestoredListing` | scripts/file_archive.py:196-198 | The final comparison succeeds exactly when the manifest lists its names in order |
| `FileSnapshot.DisorderedVerifies` | scripts/file_archive.py:106-127 | A bundle of two files listed the wrong way round verifies |
| `FileSnapshot.RestoreDisordered` | scripts/file_archive.py:196-198 | And restoring it into an empty volume is refused after writing, with the marker left in place |
| `DeletionOrder.RoundsAreSound` | apps/crm/console/example_bundle.py:211-231 | An order made by rounds lists every owned model once, each before the models it points at |
| `DeletionOrder.Chase` | apps/crm/console/example_bundle.py:223-228 | Where every model is pointed at by another one there is a cycle through two or more models |
| `DeletionOrder.CyclicHasNoOrder` | apps/crm/console/example_bundle.py:211-231 | With a cycle no order puts children first |
| `DeletionOrder.Referenced` | apps/crm/console/example_bundle.py:217-224 | The nested loops leave exactly the models nothing else points at |
| `DeletionOrder.OwnedDeletionOrder` | apps/crm/console/example_bundle.py:211-231 | Terminates and refuses exactly when two or more models point at each other in a cycle; otherwise a permutation by rounds in label order, children before parents |
| `ExampleRemoval.Validate` | apps/crm/console/example_bundle.py:134-173 | Accepts exactly a manifest of existing, unmodified rows listed once that no other row refers to |
| `ExampleRemoval.LeftHasNoDangling` | apps/crm/console/example_bundle.py:211-247 | After any part of the deletions no reference dangles |
| `ExampleRemoval.ExampleRows.Remove` | apps/crm/console/example_bundle.py:234-247 | All owned rows go exactly when the bundle is removable, acyclic and owns no row of an append-only table, otherwise none do; no reference dangles between two deletions |
| `ExampleRemoval.RemoveImported` | apps/crm/db/migrations/0017_sales_crm_core.sql:291-310 | A removable, acyclic bundle of an opportunity and its activity is refused and kept whole |
| `GlbBytes.NumberReadsBack` | scripts/build_industrial_models.py:47 | A packed little-endian number reads back |
| `GlbBytes.ValuesReadBack` | scripts/build_industrial_models.py:47 | A packed list of coordinates or indices reads back value for value |
| `GlbBytes.ContainerReadsBack` | scripts/build_industrial_models.py:61-63 | A reader that checks magic, version, lengths and chunk types gets both chunks back, and the header length is the real length (section 4.4 of the Khronos glTF 2.0 specification) |
| `GlbWriter.Buffer.Add` | scripts/build_industrial_models.py:45-52 | Each view starts at a multiple of four after the views before it, holds exactly the packed values, and the earlier ones stay readable (section 3.6.2.4) |
| `GlbWriter.Extremes` | scripts/build_industrial_models.py:51 | The least and greatest of every third value |
| `GlbWriter.AddPart` | scripts/build_industrial_models.py:53-57 | One part becomes three accessors, a mesh over them and a node that places it; earlier parts stay described |
| `GlbWriter.AddFace` | scripts/build_industrial_models.py:37-40 | A face gets four vertices of its own and two triangles over them |
| `GlbWriter.TrianglesFaceOutwards` | scripts/build_industrial_models.py:30-40 | Every triangle of a box uses vertices the box has, lies in its side, and is wound to face outwards |
| `GlbWriter.BoxFits` | scripts/build_industrial_models.py:28-41 | Every value of a box fits its component type; indices stay below the vertex count |
| `GlbWriter.Model.Box` | scripts/build_industrial_models.py:28-41 | Appends one part with all its vertices and indices |
| `GlbWriter.BoxSpans` | scripts/build_industrial_models.py:28-57 | On each axis the vertices of the placed box lie half the given size off the given center, some on either side |
| `GlbWriter.Model.Export` | scripts/build_industrial_models.py:43-64 | For every list of parts the file parses back to the document and a buffer whose views are aligned, ordered, disjoint and inside it; every accessor decodes to the written values with their bounds; node k shows mesh k at the center, half size and angle of part k, in its material; a file too large for its length fields is refused |
| `LeadQueue.FiltersPartitionActiveLeads` | apps/crm/console/lead_workspace_v2.py:758-774 | Each active lead is in exactly one of the four service-level filters, any other lead in none |
| `LeadQueue.OverdueBadgeAgrees` | apps/crm/console/lead_workspace_v2.py:1297-1317 | The overdue badge and the overdue filter agree on every lead, and a lead has the closed badge exactly when it is in none of the four filters |
| `LeadQueue.OtherBadgesAgree` | apps/crm/console/lead_workspace_v2.py:1304-1334 | The other badges differ from their filters exactly for a new lead that waits for its first response |
| `LeadQueue.SortIsTotal` | apps/crm/console/lead_workspace_v2.py:204-218 | Every sort key orders any two leads one way or the other, never both |
| `LeadQueue.SortIsTransitive` | apps/crm/console/lead_workspace_v2.py:204-218 | And is transitive |
| `LeadQueue.SortMeans` | apps/crm/console/lead_workspace_v2.py:214-217 | Newest puts the later lead first, oldest the earlier, updated the later changed, name the smaller name, ties broken by the id |
| `LeadQueue.DefaultSortMeans` | apps/crm/console/lead_workspace_v2.py:204-213 | The default order and that of an unknown key: by rank, then by what is due first, then the newest |
| `LeadQueue.BucketMeans` | apps/crm/console/lead_workspace_v2.py:818-830 | The ranks are overdue, due soon, new and waiting, unplanned, scheduled, closed |
| `LeadNavigation.QueueHasList` | apps/crm/console/lead_workspace_v2.py:797-842 | Every filtered queue has a list in its sort order |
| `LeadNavigation.NavigationIsListPlace` | apps/crm/console/lead_workspace_v2.py:1223-1251 | Counting the rows in front and taking the nearest ones finds the record's place in the list and its neighbours there |
| `LeadNavigation.NavigationAgreesWithPages` | apps/crm/console/lead_workspace_v2.py:474-545 | The pages computed for a record and for its neighbours are the pages that list them |
| `LeadNavigation.PreviousUndoesNext` | apps/crm/console/lead_workspace_v2.py:528-545 | One record is next of another exactly when the other is previous of it |
| `LeadNavigation.WalkEnds` | apps/crm/console/lead_workspace_v2.py:528-545 | Every record of a filtered queue has its neighbours, and following next from the first one comes to an end after as many stops as there are records |
| `LeadNavigation.WalkVisitsEveryRecordOnce` | apps/crm/console/lead_workspace_v2.py:528-545 | And every such walk visits every filtered record exactly once, in list order |
| `LeadNavigation.FirstRowStaysOnPage` | apps/crm/console/lead_workspace_v2.py:451-467 | A redirect to the first row of the (clamped) page computes that same page again, and page one starts with the first record |
| `LeadNavigation.PagesCoverList` | apps/crm/console/lead_workspace_v2.py:460-462 | The pages in turn are the whole list |
| `FrontMatter.AppendField` | apps/crm/console/article_exports.py:16-38 | A line for a value that is there, nothing for one that is not |
| `FrontMatter.DumpFrontMatter` | apps/crm/console/article_exports.py:9-39 | The printed lines are the exported fields in order between two fences |
| `FrontMatter.ParseFrontMatter` | apps/crm/console/article_imports.py:49-62 | The line loop computes the specified fields; without front matter the text is all body |
| `FrontMatter.StripQuotesKeeps` | apps/crm/console/article_imports.py:42-46 | Stripping leaves a value alone exactly when it is trimmed and not quoted |
| `FrontMatter.ParsedValuesAreOneLine` | apps/crm/console/article_imports.py:49-62 | Every value the parser returns, from any text, is trimmed and without line breaks |
| `FrontMatter.LineGivesField` | apps/crm/console/article_imports.py:55-61 | From a printed line the parser takes the field's name and its stripped value, colons included |
| `FrontMatter.NoFenceInside` | apps/crm/console/article_imports.py:20 | No line of printed metadata can be taken for the closing fence |
| `FrontMatter.MatchPrinted` | apps/crm/console/article_imports.py:20 | The pattern finds the printer's own closing fence whatever the body holds, and the body loses only the blank line before it |
| `FrontMatter.FieldsReadBack` | apps/crm/console/article_imports.py:49-62 | Parsing an exported article returns every exported field if and only if each value is on one line, trimmed and not wrapped in quotes |
| `FrontMatter.BodyReadsBack` | apps/crm/console/article_exports.py:42-47 | The body comes back whole, apart from the line break the printer adds |
| `FrontMatterFields.ExportedSays` | apps/crm/console/article_exports.py:11-38 | The exported fields are title and slug, the category's code if there is one, and each other text of the article under its own name exactly if it is not empty |
| `FrontMatterFields.ArticleReadsBack` | apps/crm/console/article_exports.py:42-47 | Of an article with clean values its thirteen fields come back under their names, and its body or, without one, its title and excerpt |
| `Text.StripIsTrimmed` | apps/crm/console/article_imports.py:43 | Stripping leaves a trimmed text, empty exactly for white space |
| `Text.ListingIsUnique` | apps/crm/console/article_delivery.py:273-274 | A set of strings has one listing in order |
| `Text.Sorted` | apps/crm/console/article_delivery.py:273-281 | Lists exactly the given strings in strictly ascending order |

## Left out

- UploadProtocol: the statements of `store_crm_attachment`, `retire_private_attachments` and `_cleanup_private_attachment` are modelled as interleaved steps and not as methods of a class; their order in one process is the order of the phases. Type, size and name checks before the first step are not modelled, and the insertion of an own row is allowed whether or not the search would have found a shared one.
- UploadProtocol: every upload is a transaction of its own; several uploads inside one outer transaction (`content_examples.py`), where a later one could find the uncommitted row of an earlier one, are not modelled. The source asks for a new blob there and refuses what it finds.
- UploadSweep.PrivateStorage.ReconcileMarker: the statuses `invalid` (for the many ways a marker can be malformed, which are one case here) and `failed` (an operating-system error) carry no detail.
- UploadSweep.PrivateStorage.ReconcilePending: the site is fixed and a cursor is always a well-formed name of that site, so of the validation of the options only the limit is modelled.
- UploadProtocol: a marker that is torn while it is being written is not modelled; the source writes it to a temporary file first, except for the exclusive first write.
- AssetUploads: not modelled are the size checks, the metadata an existing asset may gain, uploads inside an outer transaction, and the paged sweep, which is the one of attachments.
- ExportService: workbook styling, column choice and the queueing requests are not modelled; a workbook is determined by the set of companies it covers. Field and format validity is one flag.
- FlowWorkspace: field values are opaque and what validation makes of them, the dataset and runtime bindings and the preflight report are answers of the surrounding tables at the moment of the request; history entries are counted; the columns `current_task_key`, `updated_by` and the note of the last configured node are not modelled. Site locks make mutations of one site sequential. A request whose id is no UUID of version 4 is refused by the source before anything is looked up and is not modelled; a huge integer coordinate, on which the source overflows, is a finite number here.
- FlowDesk.FlowTables.CreateFlow: the enabled provider and the free number of the naming sequence are one answer of the surrounding tables; the name the sequence gives is not modelled.
- FlowDesk.FlowTables.MutateFlow: takes the order in which the stored receipts are read back as an input, any order being allowed.
- SiteOrigins: an origin begins with the lower-case letters `https://`; white space and control characters that the standard library drops from an address, and the checks of host and port, are not modelled.
- ArticleRelease: the public origin and asset address checks of the standard library are predicates given from outside; the site code is folded into the release.
- ArticlePages: HTML, Markdown, navigation labels and structured data are not modelled; a page is what it is made from. A link's query and fragment are kept by the source and not modelled.
- ReleaseStore.Verify: the digest of the snapshot a release was rendered from is an opaque number, so its textual form is not checked; links, hard links and reparse points are not modelled.
- ReleaseProtocol: temporary pointer files left by a crash are not modelled; nothing reads them. The owner file and store initialisation are not modelled.
- ReleaseReads.ReadRoute: a verification counts as one access; `ReleaseReads.ReleaseStays` is why it could be several.
- FileArchive: links, junctions, file modes and partially written files are not modelled; creating a file is one step.
- FileNames: upper case in the reserved-name check is that of ASCII letters, which is all those names contain.
- FileSnapshot: the placement checks of the root directory are not modelled.
- ExampleRemoval: `_reset`, the audit line and the deletion of the bundle row itself are not modelled; the physical foreign keys are the same reference relation as the declared ones. The two refusals of an unknown and of a modified resource share one message.
- GlbWriter.Model.Export: the rotation is kept as its angle, the material table and asset header are part of the JSON encoder. Coordinates are the -1, 0 and 1 that `box` writes, which single precision holds exactly.
- LeadQueue: full-text, owner, language and source filters only choose the queue and are not modelled; the text order of the database is an arbitrary integer rank of the name.
- LeadNavigation: reading the list and the navigation in different database snapshots is not modelled.
- FrontMatter.ParseFrontMatter: keys are folded to lower case for ASCII letters only.
- FrontMatter: title and excerpt inference, category lookup and the zip loop of the import are not modelled; reading and publication time are the texts they are printed as. `content_key` and `cover_image_url` are not printed by the source and so not part of the round trip.
- Django, HTTP views, sessions, roles, templates and scripts around these cores; SQLite and Windows fallbacks; durability after power loss.
