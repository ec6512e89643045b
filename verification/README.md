# Verification of the market-data mirror and the screening core

This project models, and proves properties of, two parts of the repository:

- the **file-lake mirror** (`tushare_mirror/`): one fetch commits a raw file and a lake file to a
  root directory and to a catalog, step by step; backfills drive many fetches under one run;
  backups copy the latest state and check the copy;
- the **selection and sync algorithms** (`src/`): industry-capped selection, tolerance-based
  ranking, maximum drawdown, the monthly sync windows and the look-ahead-safe report periods.

## How the mirror is modelled

| file | what it holds |
|---|---|
| `Schema.dfy`, `Client.dfy`, `Errors.dfy` | schema inference and evolution, the paginated query, error classes |
| `RowOrder.dfy`, `SchemaHistory.dfy`, `SchemaRuns.dfy` | when the order of rows matters to inference, and what happens to the recorded type of a column over runs of batches and of whole fetches |
| `Catalog.dfy` | the catalog tables, every transaction as a function on them, and the object `CatalogStore` whose methods are proved to carry them out |
| `Store.dfy` | the world (disk and catalog), the atomic actions, and one fetch as stretches of actions, each of which a fault may cut short |
| `LakeStore.dfy` | the object `FileLakeStore` whose methods do the same step by step |
| `Snapshots.dfy` | the snapshot chain under a single writer |
| `Safety.dfy`, `Runs.dfy` | the invariant, the ways a fetch can end, and the faults that are safe for the invariant |
| `Durability.dfy`, `History.dfy` | what lasts over any run of fetches: chains, done jobs and their files with any faults; intact files with safe ones, job by job; and earlier snapshots |
| `Outcomes.dfy` | what a fetch that returns data has written, and when it is sure to |
| `Records.dfy`, `RunRows.dfy` | what a fetch has recorded about job, run, schema and quarantine when it returns or raises, and how the job is classified then |
| `Ledger.dfy`, `Disks.dfy` | the whole catalog and the whole disk after a fetch that returns, in closed form, and what the except clause makes of them after a raise |
| `Window.dfy`, `Collisions.dfy` | which faults break the invariant, exactly, and that intact lakes need lake paths that do not collide |
| `TempDirs.dfy`, `Leftovers.dfy`, `Spills.dfy` | the temp directory of a run and the quarantine, what a directory left behind leads to, and when another job's file gets into quarantine |
| `SharedTemp.dfy` | the temp directory over whole backfills and from an empty lake |
| `Scripts.dfy` | what the script of a fetch alone tells: whether validation passes, which error is raised, and what a raise leaves behind |
| `Backfill.dfy`, `Convergence.dfy`, `Rounds.dfy` | classification, planning, the executor object, and convergence of the missing-dates loop |
| `Matrix.dfy` | plans over a grid of codes and dates or report periods |
| `Backup.dfy`, `BackupRun.dfy`, `Reader.dfy` | backup plan, restore check, staging and swap, and what a reader sees |

The algorithms of `src/` are in `Screening.dfy`, `Scoring.dfy`, `Metrics.dfy` and `SyncWindows.dfy`;
`Calendar.dfy` checks the month table of the last against a day count in closed form.

A fault is either an exception or the death of the process, at any action of any stretch of a
fetch; a write that fails may leave nothing, an empty directory or a partial file; storage may
lose or damage a staged file before it is validated; the server may answer anything at every
attempt. The main results hold for all of these.

The chains, the done jobs and the list of missing dates need no more than that. That the live files
are as recorded rests on three facts, for each of which the exact condition is proved:

- `commit_snapshot` reads the parent before its transaction begins, so the chain is a
  single-writer property. It survives a commit exactly when the parent that was read is still the
  latest snapshot (`Snapshots.ChainNeedsTheLatestParent`); runs are by one writer, and keep it with
  any faults (`Durability.RunsKeepOrder`).
- A fault after the snapshot commit can leave data in the current snapshot whose job is not done.
  The predicate `Safe` says when none does: no fault strikes at the update of the job row, and if
  the end of the run raises, the except clause does not get as far as marking the job failed. For
  a fetch that reaches its last stretch the invariant survives if and only if its faults are safe
  (`Window.WindowIsExact`), and what an unsafe one costs is data of its own job: a refetch on the
  same day overwrites a live file (`Window.WindowLosesData`). Other jobs keep theirs
  (`Durability.RunsKeepJobIntact`), and what was committed in a lake in order stays as it was over
  any run with any faults (`Durability.RunsAreDurable`).
- A lake path holds only the last twelve characters of the job key, next to the partition that the
  parameters select, or today's date if they name none. That two keys of one API never share both
  is the hypothesis `SlotsDistinct`. All lakes that safe fetches reach are intact if and only if it
  holds (`Collisions.IntactIffDistinct`).

Hashes and paths are modelled by what they are computed from: a job key is its four parts, a
schema id the schema, a SHA-256 the content. Ids drawn at random are the next position in their
table.

## Where code and documentation differ

- The comments say that a missing dividend yield gets a score of 0 (src/strategy/scoring.rs:8) or the
  worst score (src/strategy/scoring.rs:94); the code ranks it with the value 0 among the others
  (src/strategy/scoring.rs:99). The model follows the code.
- `plan_date_backfill` accepts a field list that enters the planned job key, while `execute`
  fetches with the default fields (tushare_mirror/backfill.py:283, 406). The model has the default
  fields only, for which both keys agree (`Backfill.RekeyIsSame`).

## Model

| member | source | states |
|---|---|---|
| Catalog.LatestIsUnbeaten | tushare_mirror/catalog.py:512-519 | a snapshot is the latest of its API if and only if it is current, none has a higher sequence number and no younger one the same |
| Catalog.CatalogStore.Latest | tushare_mirror/catalog.py:512-519 | one scan of the table finds that snapshot |
| Catalog.ActiveIff | tushare_mirror/catalog.py:546-551 | a file is active for a job if and only if it is a lake file of the job in the current snapshot of the API that no other beats, neither quarantined nor missing nor deleted nor pending to be |
| Catalog.CatalogStore.Commit | tushare_mirror/catalog.py:568-591 | the commit reads the latest snapshot, puts the new one on top of it, marks the rows current and moves the checkpoint, and changes nothing else |
| Catalog.CatalogStore.AddSnapshot | tushare_mirror/catalog.py:574-584 | the new snapshot is current, next in number to its parent, and holds the parent's files and the new ones; the parent is superseded; other snapshots stay |
| Catalog.CatalogStore.MoveCheckpoint | tushare_mirror/catalog.py:587-590 | the checkpoint of the job is the cursor; other jobs keep theirs |
| Catalog.CatalogStore.MarkCurrent | tushare_mirror/catalog.py:585-586 | exactly the rows of the new files become current, stamped with the snapshot |
| Catalog.CatalogStore.Create | tushare_mirror/catalog.py:418-422 | a new run takes an id not used before and is running; every earlier run keeps its row |
| Catalog.CatalogStore.Finish | tushare_mirror/catalog.py:424-429 | only the status of the given run changes; a run that does not exist is ignored |
| Catalog.CatalogStore.Upsert | tushare_mirror/catalog.py:436-449 | the job is running with one attempt more, or its first, and no error; its recorded counts stay, and so does every other job |
| Catalog.CatalogStore.JobDone | tushare_mirror/catalog.py:451-458 | the job is done afterwards exactly if it was known, with these counts, the attempts and run it had and no error; other jobs keep their rows |
| Catalog.CatalogStore.JobFailed | tushare_mirror/catalog.py:460-462 | the job is not done afterwards; if it was known it has failed with this error and keeps counts, attempts and run; other jobs keep their rows |
| Catalog.CatalogStore.AddFile | tushare_mirror/catalog.py:489-499 | the row gets an id not used before, earlier rows stay, and the latest snapshot of every API holds the files it held |
| Catalog.CatalogStore.UpdateFileStatus | tushare_mirror/catalog.py:508-510 | only status and staging mark of the row change, never a path, digest, count or snapshot; other rows stay |
| Catalog.CatalogStore.AddQuarantine | tushare_mirror/catalog.py:604-609 | entries are only added, the new one last |
| Catalog.CatalogStore.AddSchema | tushare_mirror/catalog.py:464-472 | a new schema becomes the latest of its API; one recorded before keeps its place, and the latest stays |
| Catalog.CatalogStore.AddSchemaChange | tushare_mirror/catalog.py:479-487 | changes are only added, the new one last |
| Snapshots.CommitKeepsChain | tushare_mirror/catalog.py:568-591 | a commit of new rows keeps every link of every chain, one latest snapshot per API, and distinct numbers |
| Snapshots.OthersKeepChain | tushare_mirror/catalog.py:418-510 | transactions other than the commit keep the chain and the latest files of every API |
| Snapshots.CommitHeadFiles | tushare_mirror/catalog.py:574-584 | the latest files after a commit are the earlier ones plus the new ones; other APIs keep theirs |
| Snapshots.LineageIsNumbered | tushare_mirror/catalog.py:568-576 | along the parent chain the sequence numbers are exactly 1 to n |
| Snapshots.LineageIsEverything | tushare_mirror/catalog.py:568-576 | the parent chain of the latest snapshot is all there is: no forks, no gaps |
| Snapshots.CommittedFilesStay | tushare_mirror/catalog.py:578-586 | every file ever committed is in the current snapshot of its API |
| Snapshots.ChainNeedsTheLatestParent | tushare_mirror/catalog.py:568-591 | a commit of new rows keeps the chain if and only if the parent it read is still the latest snapshot |
| Snapshots.TwoWritersForkTheChain | tushare_mirror/catalog.py:568-574 | a second writer that read the same parent breaks the chain, and the first one's files are lost from the latest snapshot |
| Store.KeyIs | tushare_mirror/planner.py:57-62 | every parameter of a key has the given value, or the default if none is given; the fields are the given ones, or the defaults |
| Store.ValidationIsExact | tushare_mirror/validation.py:17-48 | validation of a row finds nothing iff its file exists with equal nonzero size, equal hash and the recorded number of rows or events |
| Store.FailuresSayWhy | tushare_mirror/validation.py:17-48 | each finding is made if and only if what it says is so |
| Store.QueryWithRetryLoop | tushare_mirror/store.py:220-231 | the attempt loop ends and gives the reply of the recursive specification |
| Outcomes.FirstDecidedReply | tushare_mirror/errors.py:27-45 | the reply that counts is the first that is an answer or a refusal other than rate limit, network, server or unknown error, or the last attempt allowed |
| LakeStore.FileLakeStore.WriteTmp | tushare_mirror/store.py:93-99 | the file is there with its content; other files of the run and other runs are untouched, and no other directory appears |
| LakeStore.FileLakeStore.MoveToFinal | tushare_mirror/io_utils.py:54-56 | what was in the temp file is at the final path and no longer in the temp directory; every other path and temp file stays; without the temp file nothing happens |
| LakeStore.FileLakeStore.Quarantine | tushare_mirror/io_utils.py:59-64 | the temp directory becomes the quarantined one; without one the old quarantined directory goes |
| LakeStore.FileLakeStore.Carry | tushare_mirror/store.py:92-212 | a stretch of steps takes effect up to the fault, and ends as the fault says |
| LakeStore.FileLakeStore.ValidateFile | tushare_mirror/validation.py:17-48 | the findings of the validation loop on one row, in order |
| LakeStore.FileLakeStore.ValidateStaged | tushare_mirror/store.py:165-166 | both staged files are validated against their rows, in this order |
| LakeStore.FileLakeStore.Accept | tushare_mirror/store.py:120-202 | staging, validation, then quarantine or moves, commit and job update, as specified, with every fault |
| LakeStore.FileLakeStore.Attempt | tushare_mirror/store.py:92-202 | the body of the try statement, as specified, with every fault |
| LakeStore.FileLakeStore.Fetch | tushare_mirror/store.py:52-212 | the whole fetch ends in the state and with the result that the specification gives, with every fault |
| Safety.EmptyInv | tushare_mirror/catalog.py:278-285 | an empty root satisfies the invariant |
| Safety.LivePathsDiffer | tushare_mirror/planner.py:146-164 | no two files of current snapshots share a path, as long as no two keys of an API share both tail and partition |
| Safety.DoneIffActive | tushare_mirror/planner.py:74-77 | a job is done exactly when the latest snapshot of its API holds an active lake file of it |
| Safety.PerformApart | tushare_mirror/store.py:86-187 | before the commit, however it ends, a fetch changes nothing that another job can see |
| Safety.ApartKeepsInv | tushare_mirror/store.py:86-187 | an uncommitted fetch keeps the invariant |
| Safety.CommitKeepsInv | tushare_mirror/store.py:176-198 | committing two validated files of a job that was not done keeps the invariant |
| Runs.FetchEnded | tushare_mirror/store.py:52-212 | with every fault: a fetch is a no-op on a done job, ends apart, or has committed what was validated; the job is then done if no fault was unsafe, and whenever the fetch returns |
| Runs.FetchKeepsInv | tushare_mirror/store.py:52-212 | a fetch keeps the invariant, whatever the server, the storage and the faults do, if its faults are safe or it returns |
| Durability.FetchIsDurable | tushare_mirror/store.py:52-212 | with every fault: no fetch on a lake in order changes a committed row, its content, its place in the latest snapshot or a done job |
| Durability.RunsKeepOrder | tushare_mirror/catalog.py:568-591 | over every run of fetches, with any faults and colliding paths: the snapshot chains stay sound, files of latest snapshots have rows, and every done job has an active lake file |
| Durability.RunsKeepDone | tushare_mirror/catalog.py:451-458 | over every such run a done job stays done with its counts |
| Durability.RunsKeepFiles | tushare_mirror/store.py:176-212 | over every run with any faults the live files of done jobs keep their rows, contents and places in the latest snapshot |
| Durability.RunsAreDurable | tushare_mirror/store.py:52-212 | over every run with any faults, nothing that is committed in a lake in order changes |
| Durability.RunsAreSafe | tushare_mirror/store.py:52-212 | over every run with safe faults the invariant holds |
| Durability.RunsKeepJobIntact | tushare_mirror/store.py:176-212 | over every run, a job whose own fetches meet no unsafe fault has its live files on disk as recorded, whatever happens to other jobs |
| Durability.ReachableLakesAreIntact | tushare_mirror/store.py:80-212 | in every state reached from an empty lake, every live file of such a job is on disk with the recorded size and hash, and shares its path with no other live file |
| Durability.RefetchIsNoOp | tushare_mirror/store.py:80-84 | once a fetch has returned data, fetching the key again after any other fetches with any faults changes neither disk nor catalog and returns the recorded count |
| History.RunsKeepSnapshots | tushare_mirror/catalog.py:568-591 | over every run of fetches, with any faults, every snapshot keeps its files, number and parent; at most it is no longer current |
| History.OldSnapshotsReadTheSame | tushare_mirror/reader.py:18-29 | a snapshot of a lake in order, read by its id after any run of fetches with any faults, gives the same files with the same rows and contents |
| Outcomes.FetchedContents | tushare_mirror/store.py:94-124 | a fetch that returns data has put two files at the paths of the key and the day: the pages of the answer in order; and for each item one row that has, value by value, what its values become in the recorded columns, nulls where the item is short, and the values themselves in new columns |
| Outcomes.RawAndLakeAgree | tushare_mirror/store.py:94-124 | the lake rows are the items of all raw pages in order, as many as the count returned: padded to the fields of the first page, and every value what it becomes in the column recorded before |
| Outcomes.CleanFetchCommits | tushare_mirror/store.py:92-202 | a fetch without faults whose answer the schema decision accepts returns data |
| Records.FetchIsRecorded | tushare_mirror/store.py:103-202 | a fetch that returns has recorded the counts, the schema with its change and the finished run, or the job and run failed for the check that failed and a quarantine entry says so |
| Records.RaisedIsRecorded | tushare_mirror/store.py:203-212 | a fetch that raises has failed its job and run with the error it raises |
| Records.ReturnedStanding | tushare_mirror/backfill.py:349-364 | after a fetch that returns the job is covered or blocked as quarantined, so an ordinary plan will not run it again |
| Records.UnwrittenIsRetryable | tushare_mirror/backfill.py:358-361 | a new job that fails before anything is written is classified as failed, not as quarantined |
| Records.RaisedIsQuarantinedIff | tushare_mirror/store.py:203-212 | after a raise the job is classified as quarantined if and only if the run had a temp directory at the raise or the job was quarantined by then |
| Ledger.FetchLedger | tushare_mirror/store.py:80-202 | a fetch that returns, whatever faults it survived, is one change of the whole catalog, given in closed form table by table: after a commit, after a refused schema, and after a failed validation; and its result is given too |
| Ledger.FetchSkipsIff | tushare_mirror/planner.py:74-77 | a fetch is skipped if and only if the job is done and has an active lake file; then nothing changes and the result names the latest snapshot and the recorded count |
| Disks.FetchDisk | tushare_mirror/store.py:92-202 | the disk after a fetch that returns, in closed form: with data, both files at their paths and the temp directory gone unless its removal failed; refused, the directory with the raw file in quarantine; found wrong, what storage left of both files there; nothing else changed |
| Disks.RaisedWorld | tushare_mirror/store.py:203-212 | a fetch that raises leaves exactly what the except clause makes of what its body had got to: job and run failed with the error, the directory in quarantine and noted if there was one |
| Scripts.StagedValidIff | tushare_mirror/store.py:165-171 | staged files pass validation if and only if neither is empty and storage leaves both as they were written |
| Scripts.RaisedStandingIff | tushare_mirror/store.py:203-212 | from the script alone: after a raise the job is quarantined unless it was not before and its body raised before making a directory or between moving it and noting that |
| Scripts.RaisedLeavesDirIff | tushare_mirror/store.py:203-212 | from the script alone: a fetch that raises leaves no temp directory if and only if its except clause reaches the move or its body raised without a directory |
| Scripts.RaisedErrorIs | tushare_mirror/store.py:94-212 | where the error of a fetch comes from: the error that a fetch raises is that of the server, a failed write at the two files and the two moves, a failed commit at the commit, and otherwise, also before the try statement and in the except clause, an unknown one |
| Window.WindowIsExact | tushare_mirror/store.py:188-212 | a fetch that reaches its last stretch keeps the invariant if and only if no fault there, together with the except clause, leaves the committed job undone |
| Window.WindowLosesData | tushare_mirror/store.py:188-202 | an exception right after the commit, then an ordinary refetch on the same day, leaves a live file whose content is not what its row says |
| Collisions.CollisionLosesData | tushare_mirror/planner.py:146-164 | two keys of one API with the same tail and partition: if both fetches return data, a live file of the first is not what its row says |
| Collisions.IntactIffDistinct | tushare_mirror/planner.py:146-164 | every lake that fetches with safe faults reach has its live files as recorded, if and only if no two keys of one API ever share tail and partition |
| TempDirs.FetchKeepsOwn | tushare_mirror/store.py:89-91 | with every fault: what a fetch puts in its temp directory and in quarantine are files of its own job; it makes no temp directory for another run, and none for a run the catalog does not know |
| TempDirs.HandleClears | tushare_mirror/store.py:203-212 | the except clause leaves the temp directory if and only if there was one and a fault cut the clause off before the move; then the disk is untouched |
| TempDirs.FetchClearsTemp | tushare_mirror/store.py:115-212 | for every return and raise, exactly when the temp directory is gone: always but after a commit whose removal failed, and after a raise that made a directory and whose except clause was cut off before the move |
| Leftovers.GoneIffRemoved | tushare_mirror/store.py:176-202 | for a fetch that reaches its last stretch and does not die: gone if and only if the removal works |
| Leftovers.RefusedTakesLeftovers | tushare_mirror/store.py:203-212 | a job that fails before it writes is noted in quarantine, and a directory moved there, exactly if the run had a temp directory before |
| Leftovers.FailedRemovalQuarantinesTheNext | tushare_mirror/store.py:200-212 | after a failed removal the next job of the run that the server refuses is classified as quarantined |
| Leftovers.CutExceptMixesJobs | tushare_mirror/store.py:203-212 | after an except clause that failed at its first call, the next failing job of the run has another job's file in its quarantine directory |
| Spills.FetchSpillsIff | tushare_mirror/store.py:109-212 | with every fault: after a fetch every quarantine directory still holds files of its own job only, if and only if the fetch found no other job's file in its temp directory, or did not take the directory away, or took it away after a commit |
| Spills.RefusedSpillsIff | tushare_mirror/store.py:203-212 | for a job refused before it writes: if and only if the temp directory of the run held no other job's file |
| TempDirs.UnwrittenLeavesNoQuarantine | tushare_mirror/store.py:203-212 | a job that fails before its first write leaves no quarantine entry |
| Backfill.NumberIsInjective | tushare_mirror/backfill.py:293 | dates of eight digits are ordered without ties |
| Backfill.NumbersCompareLikeStrings | tushare_mirror/backfill.py:293 | strings of as many digits compare by the first digit that differs, like the numbers they form |
| Backfill.SortUnique | tushare_mirror/backfill.py:293 | the normalized dates are the given ones, ascending, each once |
| Backfill.JobsDiffer | tushare_mirror/backfill.py:300-302 | different dates of a series have different job keys |
| Backfill.RekeyIsSame | tushare_mirror/planner.py:166-169 | filling in the defaults a second time, as execution does, gives the planned key |
| Backfill.StandingIs | tushare_mirror/backfill.py:349-364 | when a job counts as covered, quarantined, staged, failed or missing, in terms of the job, file, snapshot and quarantine tables |
| Backfill.PlannedIs | tushare_mirror/backfill.py:349-364 | a job is skipped if it is covered, blocked if it was ever quarantined and there is no leave to retry it, retried if it was quarantined, has staged files or has failed, and fetched otherwise |
| Backfill.PlannedJobs | tushare_mirror/backfill.py:277-323 | a plan lists the dates in ascending order, each once, and for the first ones, as many as allowed, a job whose key has the date in its field and the defaults elsewhere, with what is to be done about it; a limit that is not positive is refused |
| Backfill.ReportIs | tushare_mirror/backfill.py:384-441 | the result of a job: verdict, snapshot, the counts that the job row has then, and the error of the row or else the one raised |
| Backfill.BackfillExecutor.RunOne | tushare_mirror/backfill.py:384-441 | a job planned to be skipped or blocked changes nothing and is reported as that; any other is fetched and reported, unless the process dies, as succeeded exactly if the fetch names a snapshot |
| Backfill.BackfillExecutor.RunEach | tushare_mirror/backfill.py:384-441 | the job loop with its early exits gives the specified results and state |
| Backfill.BackfillExecutor.Count | tushare_mirror/backfill.py:450-455 | the number of results with the verdict |
| Backfill.BackfillExecutor.CloseRun | tushare_mirror/backfill.py:445-447 | unless the process died, the row of the run is failed if some result is blocked or failed and succeeded if none is; other runs keep their rows |
| Backfill.BackfillExecutor.Execute | tushare_mirror/backfill.py:373-448 | one run around the job loop: exactly one row is added to the run table, left running if the process dies, failed if some result is blocked or failed, and succeeded if none is |
| Backfill.ExecutionAddsRun | tushare_mirror/backfill.py:373-448 | the same of the specification: no fetch of the backfill touches the run table |
| Convergence.FetchKeepsRows | tushare_mirror/store.py:86-212 | no fetch loses a job row, and one whose catalog works at the start leaves a row of its own job, with every fault |
| Convergence.NeverMissingAgain | tushare_mirror/backfill.py:359-364 | a date whose job has a row is never classified missing again, over any run with any faults |
| Convergence.FetchKeepsAbsence | tushare_mirror/backfill.py:349-364 | in any lake, with every fault: a fetch of a job that is not done makes no other job missing, and no other missing job leaves the list |
| Convergence.FetchKeepsStanding | tushare_mirror/backfill.py:349-364 | in a catalog in order, with every fault: a fetch of one job changes the classification of no other |
| Convergence.ResultsFollowPlan | tushare_mirror/backfill.py:384-441 | results are a prefix of the plan in order, complete unless stopped, ending at the first error when told to stop on errors |
| Convergence.VerdictsAddUp | tushare_mirror/backfill.py:450-455 | skipped, blocked, succeeded and failed add up to the number of results |
| Convergence.JobsAreARun | tushare_mirror/backfill.py:384-441 | the jobs of a backfill are a run of fetches of the jobs it began, so that everything proved of runs holds of backfills |
| Convergence.ExecutionKeepsOthers | tushare_mirror/backfill.py:373-448 | executing a plan with any faults keeps the catalog in order and done jobs done, and changes the standing only of jobs it began |
| Convergence.ExecutionKeeps | tushare_mirror/backfill.py:373-448 | on a lake in order it changes nothing that is committed, and with safe faults it keeps the invariant |
| SharedTemp.FetchEmpties | tushare_mirror/store.py:183-212 | a fetch that starts with an empty temp directory and does not die ends with an empty one, failed removals included, unless an exception cuts the except clause off before the move |
| SharedTemp.BackfillKeepsOwnTemp | tushare_mirror/backfill.py:373-448 | a whole backfill, with crashes anywhere and failed removals, keeps every quarantine directory to files of its own job, and unless the process dies leaves no temp file of its run |
| SharedTemp.BackfillStaysClear | tushare_mirror/backfill.py:373-448 | if the removals work as well, it leaves its run without a temp directory |
| SharedTemp.QuarantineHoldsOwnFiles | tushare_mirror/backfill.py:373-448 | from an empty lake, over any fetches and such backfills, every quarantine directory holds files of its own job only |
| Rounds.CandidatesAreExact | tushare_mirror/missing_backfill.py:131-134 | a date is a candidate exactly when it is planned and missing, or has failed when retrying |
| Rounds.PlanSelectsCandidates | tushare_mirror/missing_backfill.py:117-149 | the plan is refused exactly for a limit that is not positive, or above 20 when executing; else it is the first candidates up to the limit, never an active, quarantined or staged date |
| Rounds.PlanReportsBlocked | tushare_mirror/missing_backfill.py:117-136 | which of the two limits a refusal names, and as blocked the number of dates with quarantined or staged data |
| Rounds.CoverageCounts | tushare_mirror/coverage.py:85-96 | the covered, missing, failed and quarantined counts are the numbers of dates with that standing; full coverage means that every date has active data |
| Rounds.RoundTakesTheFirst | tushare_mirror/missing_backfill.py:131-149 | in any lake, with any faults after the first call of a fetch: a round takes exactly the first n missing dates off the list; n is maxJobs or all that is left unless stopped, and at least 1 |
| Rounds.RoundKeepsOthers | tushare_mirror/missing_backfill.py:131-149 | in a catalog in order, a round changes the standing of none but those dates |
| Rounds.RoundKeepsLake | tushare_mirror/missing_backfill.py:131-149 | on a lake in order a round changes nothing that is committed, and with safe faults it keeps the invariant |
| Rounds.MissingShrinksEveryRound | tushare_mirror/missing_backfill.py:131-149 | in any lake, whatever servers, storage and exceptions do: k rounds take the first k times maxJobs missing dates off the list |
| Rounds.MissingShrinksByBegun | tushare_mirror/missing_backfill.py:131-149 | with crashes as well: the rounds take as many dates off the front as they begin jobs, at least one a round while there are any |
| Rounds.CleanJobSucceeds | tushare_mirror/backfill.py:406-422 | a job without faults and with an acceptable answer is reported as succeeded |
| Rounds.SuccessfulRoundCovers | tushare_mirror/backfill.py:406-422 | a round in which all jobs succeed leaves every date covered or still missing |
| Rounds.BackfillCompletes | tushare_mirror/missing_backfill.py:131-149 | enough rounds in which all jobs succeed leave every date covered |
| Rounds.BenignBackfillCompletes | tushare_mirror/missing_backfill.py:131-149 | without faults and with acceptable answers every date is covered after as many rounds as groups of maxJobs missing dates |
| Rounds.EmptyAnswersAreBenign | tushare_mirror/schema.py:176-191 | an answer without columns is acceptable whatever has been recorded |
| Matrix.ExtentIsMaximal | tushare_mirror/code_date_matrix_planner.py:71-86 | no limit is exceeded, and under truncation by candidates one more date for every code would exceed the number allowed |
| Matrix.ExtentIsExact | tushare_mirror/code_date_matrix_planner.py:71-86 | the codes are the most that candidates, limit and 20 allow; so are the dates unless the product exceeds the jobs allowed, and then they are the most for which it does not; every cut is reported |
| Matrix.PlanItems | tushare_mirror/code_date_matrix_planner.py:215-242 | the nested loops list the grid of the selected codes and dates row after row, classified |
| Matrix.GridIsRowMajor | tushare_mirror/code_period_planner.py:266-298 | code i and period j stand at position i times the number of periods plus j |
| Matrix.PlanIsExact | tushare_mirror/code_period_planner.py:266-298 | the items are exactly the product, without duplicates, as many as planned |
| Matrix.RequestedIff | tushare_mirror/code_period_planner.py:413-428 | a cell is requested unless its job is covered, was quarantined, or, for a report period only, has staged files; and what is planned for it otherwise |
| Matrix.CellKeyIs | tushare_mirror/code_date_matrix_planner.py:286-302 | the key of a cell has the code in its field, the period in its own or the date in the one or two fields that the supported parameters select, and the defaults elsewhere |
| Matrix.GeneratePeriodRange | tushare_mirror/periods.py:89-109 | exactly the quarters, or year ends, of the range, in order; refused for a start after the end, and otherwise for an unknown frequency |
| Backup.BackupPlanner.Plan | tushare_mirror/backup.py:471-549 | the plan names the current snapshots in scope and is refused if there are none; it lists the raw, lake and object files they hold that are staged or current, in order and each once, with path, type, counts, size, hash and all holders |
| Backup.PlanIsExact | tushare_mirror/backup.py:496-528 | an item is listed if and only if some current snapshot in scope holds its file, the file is raw, lake or object, neither quarantined nor missing nor deleted nor pending to be nor superseded nor compacted, and the item has the fields of its row and all holders |
| Backup.ItemIsExact | tushare_mirror/backup.py:798-836 | an item has no failure iff it exists with equal nonzero size, equal hash and the recorded number of rows or events |
| Backup.ManifestFindings | tushare_mirror/backup.py:285-356 | which failure the manifest gives rise to, if and only if |
| Backup.CatalogFindings | tushare_mirror/backup.py:758-784 | which failures the catalog file gives rise to, each if and only if |
| Backup.ConfigFindings | tushare_mirror/backup.py:786-796 | which failures a configuration file gives rise to, each if and only if |
| Backup.ItemFindings | tushare_mirror/backup.py:798-836 | which failures a file gives rise to, each if and only if |
| Backup.CheckIsExact | tushare_mirror/backup.py:677-756 | the check finds nothing iff manifest, catalog, configurations and all files are as recorded |
| Backup.CheckFile | tushare_mirror/backup.py:798-836 | the failures appended for one file, each with its counter, and the file counted as checked or missing |
| Backup.CheckFiles | tushare_mirror/backup.py:719-734 | checked plus missing is the number of files, the layer counts are exact, and every counter counts its failures |
| Backup.Check | tushare_mirror/backup.py:677-756 | the whole check, an invalid manifest ending it at once |
| Backup.CountersAddUp | tushare_mirror/backup.py:719-756 | the seven counters add up to the number of file failures, so one is positive iff a file failed |
| Backup.ReasonsAreCounted | tushare_mirror/backup.py:719-756 | a counter is the number of failures of its kind |
| BackupRun.DamageIsFound | tushare_mirror/backup.py:566-576 | no copy passes in which storage has lost or damaged the catalog or a planned file |
| BackupRun.BackupExecutor.CopyAll | tushare_mirror/backup.py:630-646 | copying succeeds iff every source file exists and every copy has the planned size and hash; otherwise the error is that of the first that does not |
| BackupRun.BackupExecutor.MakeCopy | tushare_mirror/backup.py:566-573 | the staged copy is complete unless a step raises |
| BackupRun.BackupExecutor.Stage | tushare_mirror/backup.py:566-576 | staging succeeds iff no step raises, all copies fit and the check finds nothing; if only the check finds something, that is the error |
| BackupRun.BackupExecutor.Run | tushare_mirror/backup.py:557-605 | success iff guard, staging, check and swap work; a failure before the swap leaves the target as it was; afterwards no staging directory is left; a step that raises makes it fail; which of the guards refuses, if and only if |
| Reader.ListedIff | tushare_mirror/reader.py:18-29 | the latest data are the readable lake files of the unbeaten current snapshot without superseded and compacted ones, those of a given snapshot all of its readable lake files |
| Reader.ReaderSeesDoneJobs | tushare_mirror/reader.py:18-29 | every done job is seen through exactly one active file, with the recorded count |
| Reader.ReaderSeesOnlyDoneJobs | tushare_mirror/reader.py:18-29 | no active file belongs to a job that is not done |
| BackupRun.PlannedFileReadsTheSame | tushare_mirror/reader.py:18-29 | a file active in the catalog of the plan, and on disk as its row says, reads the same from a checked copy |
| BackupRun.LiveFilesAreCopied | tushare_mirror/backup.py:496-528 | every live file of an API in scope, raw or lake, that a lake in order had when the plan was made is in a checked copy with the content it had then |
| BackupRun.ManifestTells | tushare_mirror/backup.py:653-668 | the manifest has version 1 and says of the plan how many files, which ones, from which snapshots, and their total size |
| BackupRun.FaithfulBackupReadsTheSame | tushare_mirror/backup.py:471-549 | a passing backup reads like the source, for every API in scope that has the active files it had when the plan was made, in any lake |
| BackupRun.UnplannedFileIsMissing | tushare_mirror/backup.py:566-576 | an active file of the copied catalog can be read from a checked copy if and only if an item of the plan names its path |
| BackupRun.BackupHoldsWhatWasPlanned | tushare_mirror/backup.py:566-576 | while a lake goes on between plan and copy: a file active at the plan reads the same from the copy, a later one is not in it |
| BackupRun.BackupReadsTheSameIff | tushare_mirror/backup.py:566-576 | the copy reads like the lake if and only if the API gained no file since the plan |
| BackupRun.LakesInOrderBackUp | tushare_mirror/backup.py:557-584 | every lake that satisfies the invariant can be backed up |
| Schema.CoercedValue | tushare_mirror/schema.py:68-116 | a number or boolean keeps its value in the type of the column if the column can hold it; a text becomes the number or truth value it reads as, or nothing if it is blank in a numeric column; in a text column a value becomes its text; a null and everything else stay |
| Schema.CoerceIsIdempotent | tushare_mirror/schema.py:68-116 | coercing twice is coercing once |
| Schema.NormalizedRow | tushare_mirror/schema.py:119-132 | a row has for every field a null if the item is too short, what its value becomes in a recorded column, and the value itself in a new one |
| Schema.InferSchemaLoop | tushare_mirror/schema.py:52-65 | the nested loops infer the specified types and nullability |
| Schema.InferredColumn | tushare_mirror/schema.py:52-65 | a column can be null iff some row has no value in it; unless it has a boolean it is text if some row has a text, else float, else int, else its hint or text |
| Schema.NormalizeItemsLoop | tushare_mirror/schema.py:119-132 | the loops do so for every row and field, in order |
| Schema.CompareSchemasLoop | tushare_mirror/schema.py:135-166 | the loop and its verdict, first reason first |
| Schema.VerdictIs | tushare_mirror/schema.py:135-166 | the first that applies: a type changed other than from null or from int to float; a column missing; a type widened; a column new; another order; the same |
| Schema.SameIsSame | tushare_mirror/schema.py:135-166 | no change is reported if and only if fields and types are the same |
| Schema.PreparationIs | tushare_mirror/schema.py:176-191 | a first batch is taken as it is and its schema is new; any other is stored in the recorded columns, and the schema inferred from that, a recorded type counting for a column of nulls, is compared |
| Schema.TypeAfterIsJoin | tushare_mirror/schema.py:40-49 | without booleans the widened type is the least upper bound in null < int < float < string |
| RowOrder.TextAbsorbs | tushare_mirror/schema.py:40-49 | a column is typed as text exactly if it has a text |
| RowOrder.LastCellDecides | tushare_mirror/schema.py:40-65 | without a text, the row that comes last decides between boolean and number |
| RowOrder.InferenceIgnoresRowOrder | tushare_mirror/schema.py:52-65 | shuffling the rows of a batch in which no column mixes booleans and numbers without a text leaves the inferred schema as it was |
| RowOrder.OrderMattersIffMixed | tushare_mirror/schema.py:52-65 | some order of the rows gives another schema if and only if a column mixes booleans and numbers without a text |
| Schema.AcceptedTypes | tushare_mirror/schema.py:135-166 | an accepted schema has recordable types, each allowed after the recorded one |
| Schema.LatestIsLast | tushare_mirror/catalog.py:474-477 | the latest schema of an API is the one recorded last among its own |
| Schema.PrepareAgainIsSame | tushare_mirror/schema.py:176-191 | preparing an accepted batch again under its own decision gives the same schema and no change |
| SchemaHistory.ColumnNeedsItsBatch | tushare_mirror/catalog.py:464-477 | an accepted batch keeps or widens a recorded column if and only if it carries the column, or decides on a schema recorded before, which is not made the latest again |
| SchemaHistory.OfferKeepsHistory | tushare_mirror/catalog.py:464-477 | a batch that carries the column only widens its recorded type, to the type just accepted, whatever else the batch contains |
| SchemaHistory.TypesOnlyWiden | tushare_mirror/schema.py:176-198 | over any run of batches that carry the column its recorded type only goes from int to float, whatever other columns do |
| SchemaHistory.AtMostOneWidening | tushare_mirror/schema.py:176-198 | such a column widens at most once, for good |
| SchemaHistory.DroppedColumnForgetsItsType | tushare_mirror/schema.py:135-166 | a batch without the column breaks this: a dropped int column comes back as text unnoticed |
| SchemaRuns.FetchOffers | tushare_mirror/store.py:101-121 | with every fault, a fetch leaves the schemas as they were or as offering its answer leaves them |
| SchemaRuns.RunsOnlyWiden | tushare_mirror/store.py:101-121 | over any run of fetches and faults, the recorded type of a column that every answer carries only goes from int to float |
| Client.QueryPaginated | tushare_mirror/client.py:66-97 | the loop reports all pages with consistent items and fields, or why there is no result |
| Client.PagesAreAsked | tushare_mirror/client.py:66-97 | against any server: page after page, each a page size further on, is asked for until one is bad, is the last, is empty or no more are allowed; and what comes of it |
| Client.PaginationIsExact | tushare_mirror/client.py:66-97 | against a slicing server the items are exactly the rows from the offset on, and it raises iff more pages than allowed are needed |
| Screening.EnforceIndustryCap | src/strategy/screening.rs:18-61 | the result is the selected rows of the sorted table, in order, and the selection is admissible and dominates every other |
| Screening.GreedyPass | src/strategy/screening.rs:31-57 | the pass with its industry counters makes that selection |
| Screening.CapIsLeastShare | src/strategy/screening.rs:26 | the cap is the least number of rows, at least one, that is not below the share |
| Screening.FeasibleMeans | src/strategy/screening.rs:40-57 | admissible in terms of the table: not too many rows in all, and not too many with the same industry, unless it is missing, empty or the unclassified one |
| Screening.GreedyDominates | src/strategy/screening.rs:34-57 | a selection that leaves rows out only for cause has in every prefix at least as many rows as any admissible one |
| Screening.DominatingSelectionIsOptimal | src/strategy/screening.rs:14-17 | no admissible selection is larger, and none of equal size has a smaller total score |
| Screening.DominatingSelectionIsUnique | src/strategy/screening.rs:34-57 | only one admissible selection dominates all others |
| Scoring.RankCells | src/strategy/scoring.rs:75-91 | the sorted loop with chained ties gives every cell its order-free score |
| Scoring.RankAscendingWithPenalty | src/strategy/scoring.rs:67-92 | of the values themselves: smaller positive ones score better and equal ones the same, all others take the penalty, and without near-ties the score is one more than the number of smaller positive values |
| Scoring.RankDescending | src/strategy/scoring.rs:95-118 | larger values score better and equal ones the same, a missing one being 0, and without near-ties the score is one more than the number of larger values |
| Scoring.ScoreCandidates | src/strategy/scoring.rs:19-64 | the PB and PE columns are scored in the first way, the dividend yields in the second, and the total is the sum of the three |
| Scoring.RunStartIsRank | src/strategy/scoring.rs:83-89 | a rank is one more than the number of cells clearly better by a gap with nothing in between |
| Scoring.SeparatedScore | src/strategy/scoring.rs:83-89 | without near-ties it is one more than the number of strictly better cells |
| Scoring.NearTiesScoreTheSame | src/strategy/scoring.rs:83-89 | values no further apart than the tolerance have the same score |
| Scoring.ScoresFollowTheirRows | src/strategy/scoring.rs:67-118 | rearranging rows rearranges their scores, near-ties included |
| Scoring.PenaltyIsWorst | src/strategy/scoring.rs:78-79 | no score is worse than the penalty or better than 1 |
| Scoring.DominanceIsRespected | src/strategy/scoring.rs:49-55 | a stock whose PB and PE are no worse (positive and not larger, or the other's not positive) and whose yield is not smaller never has the larger total |
| Scoring.TotalsFollowTheirStocks | src/strategy/scoring.rs:19-64 | shuffling the stocks shuffles their totals with them |
| Metrics.MaxDrawdown | src/backtest/metrics.rs:48-73 | the loss reported is between the two days reported, none is worse, the start is the first day of the running maximum and the end the first day of the loss |
| SyncWindows.MonthlyWindows | src/data/sync.rs:382-397 | the clipped windows tile the range without gap or overlap; a range that ends before it starts gives nothing, or itself if it lies in one month |
| SyncWindows.TilesPartition | src/data/sync.rs:382-397 | every valid date of the range is in exactly one window and no other is in any; that no date is missing is `Calendar.EveryDayIsQueried` |
| Calendar.NextDayIsOneMore | src/data/sync.rs:1199-1210 | with days numbered by the closed rule of the Gregorian calendar, every date of the month table is followed by the one with the next number |
| Calendar.OrderIsByDayNumber | src/data/sync.rs:382-397 | dates compare like the numbers of their days |
| Calendar.YearLength | src/data/sync.rs:1212-1214 | the months of a year add up to 366 days if 4 divides it and 100 does not, or 400 does, and to 365 otherwise |
| Calendar.WindowsAddUp | src/data/sync.rs:382-397 | the windows have as many days together as the range, by the numbers of its ends |
| Calendar.EveryDayIsQueried | src/data/sync.rs:382-397 | every day number from the first day of the range to the last is that of exactly one date, and that date is in exactly one window |
| SyncWindows.SafeYearIsGreatest | src/data/financials.rs:23-31 | the safe year is the greatest whose disclosure deadline has passed |
| SyncWindows.SafeYearIsMonotone | src/data/financials.rs:23-31 | it never decreases with the date |
| SyncWindows.FinancialPeriodsFromYear | src/data/sync.rs:1180-1192 | exactly the last days of March, June, September and December from the first year to the end date, in order |
| SyncWindows.FullSyncFinancialPeriods | src/data/sync.rs:1163-1171 | the same, from the lookback before the safe year of the start |
| SyncWindows.FirstYearIsLookback | src/data/sync.rs:1168-1170 | a year is synced iff the report of the year that comes the lookback later, at least one, need not be public on the start date |
| SyncWindows.SyncCoversReaders | src/data/local.rs:286-297 | every period a ten-year reader asks for on a date of the range was synced, and was public before that date |

## Left out

- Runs.FetchKeepsInv: does not cover unsafe faults, because there the code breaks the invariant, always (`Window.WindowIsExact`).
- Snapshots.CommitKeepsChain: does not cover a parent that is no longer the latest, because there the code breaks the chain, always (`Snapshots.ChainNeedsTheLatestParent`).
- Durability.ReachableLakesAreIntact: does not cover jobs whose own fetches meet an unsafe fault, or keys that share both the last twelve characters and a partition, because there the code loses data (`Window.WindowLosesData`, `Collisions.IntactIffDistinct`).
- SchemaHistory.TypesOnlyWiden: does not cover columns that a batch leaves out, because the code forgets their type (`SchemaHistory.DroppedColumnForgetsItsType`).
- RowOrder.OrderMattersIffMixed: takes the fields of a batch to be distinct.
- Schema.TypeAfterIsJoin: does not cover columns with booleans; `RowOrder` says what becomes of them.
- Schema.InferredColumn: says of columns with booleans only whether they can be null; `RowOrder` says what type they get.
- Schema.PrepareAgainIsSame: takes every text that reads as an integer to read as a number.
- Disks.RaisedWorld: takes the except clause to work; what a fault in it leaves is in `TempDirs`, `Leftovers` and `Spills`.
- SharedTemp.BackfillKeepsOwnTemp: does not cover an exception that cuts the except clause off before the move of the temp directory, because the code then mixes jobs (`Leftovers.CutExceptMixesJobs`; exactly when, `Spills.FetchSpillsIff`).
- Metrics.MaxDrawdown: takes the values to be positive and exact, without NaN or rounding.
- Screening.EnforceIndustryCap: takes scores to be exact; which of several equal scores comes first is up to the sort.
- Scoring.RankCells: takes values to be exact reals without NaN.
- SyncWindows.MonthlyWindows: takes four-digit years, for which strings compare like dates.
- Backup.PlanIsExact: lists the items by file id; the code lists them by path, which nothing else depends on.
- Rounds.PlanSelectsCandidates: takes dates already normalized and planned; parsing, calendar ranges and the trading-day filter are not part of this model.
- Matrix.PlanIsExact: takes the codes and the dates or periods to be free of duplicates; policy gates and limit errors that block a matrix plan are not part of this model.
- Endpoint policy, disclosure and point-in-time tables: decision tables; a fetch is modelled once the policy allows it, a backfill once the API is supported.
- Manifest validation of missing and ill-typed JSON fields: the typed manifest cannot have them; version and file count are modelled.
- Storage rotting after a file has been validated, and a directory move that stops halfway: the file system is taken to keep committed files and to move trees in one step.
- A file replaced by a restore, the restore itself, and the removal of superseded files: the repository part modelled here never does them.
- Endpoint configuration (page size, partition values, permission status): parameters of the query and of the plan.
- Text conversions (string, integer and float parsing, stripping, lower case): parameters of the schema functions.
- Timestamps: opaque; the order of schema rows is their order of insertion.
- Line splitting of raw files at unusual separators: a raw file is its sequence of events.
- HTTP, SQLite, PostgreSQL, parquet and compression: the atomic steps and contents stand for them.
- Command line, formatting, configuration and reporting: plumbing.
