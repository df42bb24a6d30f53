# flock task monitor and cluster manager, modelled in Dafny

flock runs large batches of tasks on a compute cluster. This project models the two stateful
components that carry its logic, and proves properties of the model:

- **The task monitor** (`flock/monitor.py`). A `TaskStore` keeps a table of runs and a table of
  tasks keyed by `task_dir`. It is modelled in memory:
  - the task table is a map from task_dir to the row, plus the order in which rows were inserted;
  - the run table is a sequence whose run_id is the position plus one.

  Workers report progress through `task_submitted`, `task_started`, `task_failed`,
  `task_completed` and `node_disappeared`. `taskset_created` reads a task definition file of
  `"<group> <task_dir>"` lines and registers CREATED tasks. `submit_created_tasks` hands CREATED
  tasks to their run's queue in waves: a task goes only once every lower group of its run is
  finished (FAILED or SUCCESS). A pass stops once the tasks that were SUBMITTED when it began, plus
  those it has submitted itself, reach `max_submitted`; STARTED tasks are not counted against the cap. All database
  access goes through a re-entrant `TransactionContext`: it takes the lock at depth 0→1, and
  commits and releases at 1→0.
- **The cluster manager** (`cluster_monitor.py`). A `ClusterManager` drives a StarCluster cluster
  through the states dead, stopped, starting, updating, sleeping and stopping. It reacts to
  mailbox messages: `start`, `stop`, `update`, the completion messages, and `state?`. It claims
  the cluster through an EC2 ownership tag. Its run loop stops on the first exception and leaves
  the manager dead. Collaborators are replaced by what they leave behind:
  - a launched command, with the message it posts when it ends;
  - an armed timer;
  - a tag write;
  - an exception report.

Files:

- `wrappers.dfy`: Option.
- `pytext.dfy`: the Python string builtins the code relies on: `strip`, `split(" ")`, `int()`,
  `str()` of an int, `in` on strings, and `posixpath.join`.
- `transaction.dfy`: `TransactionContext`.
- `ledger.dfy`: `TaskStore` and its table functions.
- `scheduler.dfy`: `submit_created_tasks`.
- `cluster.dfy`: `Parameters.generate_args` and `ClusterManager`.

Each class method is proved against a specification function of the old state. The properties
are proved as lemmas about those functions.

## Model

| member | source | states |
|---|---|---|
| PyText.TrimStart | flock/monitor.py:87 | the result is a suffix of the input, does not start with whitespace, and only whitespace was dropped |
| PyText.TrimEnd | flock/monitor.py:87 | the result is a prefix of the input, does not end with whitespace, and only whitespace was dropped |
| PyText.Strip | flock/monitor.py:87 | str.strip(): leading and trailing whitespace dropped |
| PyText.StripEmptyIffBlank | flock/monitor.py:87-89 | a line strips to "" exactly when every character is whitespace |
| PyText.StripKeeps | flock/monitor.py:87 | strip leaves alone a string without surrounding whitespace |
| PyText.Split | flock/monitor.py:90 | split(" ") yields one field more than there are separators, and no field holds a separator |
| PyText.SplitJoin | flock/monitor.py:90 | joining the fields of a split with the separator gives the string back |
| PyText.JoinSplit | flock/monitor.py:90 | splitting the join of separator-free fields gives the fields back |
| PyText.NoSeparatorOneField | flock/monitor.py:90 | a string without the separator splits into itself alone |
| PyText.SplitPrefix | flock/monitor.py:90 | a separator-free field in front of a separator becomes the first field of the split |
| PyText.ShowNat | cluster_monitor.py:29-37 | str(n) of a natural number is all digits, has no leading zero and has value n |
| PyText.ShowInt | cluster_monitor.py:29-37 | str(n) for any integer: a minus sign before the digits of a negative n |
| PyText.ParseInt | flock/monitor.py:91 | int() on a str as Python 2.7 reads it: surrounding whitespace, an optional sign, whitespace after the sign, then digits; anything else is the ValueError |
| PyText.SignThenSpaceParses | flock/monitor.py:91 | a minus sign, whitespace and digits parse to the negative of the digits' value, as int("-\t5") == -5 |
| PyText.ShowIntParses | flock/monitor.py:91 | int(str(n)) == n for every integer |
| PyText.Contains | flock/monitor.py:212 | `sub in s` holds exactly when sub occurs at some position of s |
| PyText.PathJoin | flock/monitor.py:98 | posixpath.join of two components: an absolute second component replaces the first; otherwise one "/" between them unless the first is empty or ends in "/" |
| PyText.PathJoinParts | flock/monitor.py:98 | join(a, b) ends with b; an absolute b replaces a; a relative b follows a, with one "/" added only when a is non-empty and does not end in "/" |
| Transactions.StepsKeepDiscipline | flock/monitor.py:41-53 | __enter__ and __exit__ keep the lock held exactly while depth > 0, and keep the log a run of acquire/commit/release rounds |
| Transactions.Entered | flock/monitor.py:41-46 | __enter__: at depth 0 take the lock; in every case one level deeper |
| Transactions.Exited | flock/monitor.py:48-53 | __exit__: one level up; on reaching depth 0 commit and release the lock |
| Transactions.ReplayKeepsDiscipline | flock/monitor.py:41-53 | any sequence of enters and exits keeps that discipline |
| Transactions.InnerEntersLeaveLock | flock/monitor.py:41-46 | an __enter__ inside an open transaction only deepens it: no lock or commit activity |
| Transactions.InnerExitsLeaveLock | flock/monitor.py:48-53 | an __exit__ that does not reach depth 0 only makes it shallower |
| Transactions.NestedBlocksCommitOnce | flock/monitor.py:41-53 | n nested `with` blocks on an idle context acquire once, commit once and release once, in that order |
| Transactions.TransactionContext.constructor | flock/monitor.py:36-39 | a new context has depth 0 and holds no lock |
| Transactions.TransactionContext.Enter | flock/monitor.py:41-46 | the state after __enter__ is Entered of the old one, and the discipline is kept |
| Transactions.TransactionContext.Exit | flock/monitor.py:48-53 | the state after __exit__ is Exited of the old one, and the discipline is kept |
| TaskLedger.StartedTouchesOneRow | flock/monitor.py:115-120 | task_started adds exactly 1 to try_count, sets STARTED and node_name, and changes no other field or row |
| TaskLedger.UnknownTaskChangesNothing | flock/monitor.py:108-134 | the single-row updates on an unknown task_dir change nothing |
| TaskLedger.Submitted | flock/monitor.py:108-113 | task_submitted on the table: status SUBMITTED and the external id on the named row, if it exists |
| TaskLedger.Started | flock/monitor.py:115-120 | task_started on the table: one more try, the node and STARTED on the named row, if it exists |
| TaskLedger.WithStatus | flock/monitor.py:122-134 | task_failed and task_completed on the table: the new status on the named row, if it exists |
| TaskLedger.NodeReset | flock/monitor.py:136-139 | node_disappeared on the table: READY on every row whose node_name is the node |
| TaskLedger.StatusUpdateIdempotent | flock/monitor.py:122-134 | task_failed and task_completed applied twice equal applied once |
| TaskLedger.NodeResetEffect | flock/monitor.py:136-139 | node_disappeared sets READY on exactly the node's tasks, whatever their status, and keeps every try_count and every other task |
| TaskLedger.ReportsCountTries | flock/monitor.py:108-139 | over any sequence of reports no row appears or vanishes, and try_count grows by exactly the number of task_started reports for the task |
| TaskLedger.Matching | flock/monitor.py:145-150 | every row returned names a task with the status, as (run_id, task_dir, group_number) |
| TaskLedger.MatchingComplete | flock/monitor.py:145-150 | no task with the status is missed |
| TaskLedger.UnfinishedByGroupCounts | flock/monitor.py:156-159 | the grouped counts list exactly the groups with unfinished tasks of the run, each with its count |
| TaskLedger.UnfinishedByGroup | flock/monitor.py:153-160 | the GROUP BY of count_unfinished_tasks_by_group_number: per group, the run's tasks neither FAILED nor SUCCESS |
| TaskLedger.UnfinishedInCounts | flock/monitor.py:156-157 | over distinct keys the count is the number of the run's unfinished tasks in the group |
| TaskLedger.UnfinishedInIsCount | flock/monitor.py:156-157 | on a well-formed table that count is the size of the set of such tasks |
| TaskLedger.FirstRunIndex | flock/monitor.py:94-95 | finds the first run with the run_dir, or reports that none has it |
| TaskLedger.ParseLine | flock/monitor.py:87-91 | one definition line: blank when it strips to ""; otherwise two fields split on " " whose first is an integer, or malformed |
| TaskLedger.Collect | flock/monitor.py:86-91 | the reading loop: blank lines skipped, entries kept in order, stopping at the first malformed line |
| TaskLedger.ParseAll | flock/monitor.py:84-91 | the whole file read line by line |
| TaskLedger.BlankLines | flock/monitor.py:87-89 | a definition line is skipped exactly when it is all whitespace |
| TaskLedger.ParsedLineShape | flock/monitor.py:87-91 | a line that parses is, once stripped, an integer field, one space and a task_dir without spaces |
| TaskLedger.ShowIntShape | flock/monitor.py:91 | str(n) is non-empty, holds no space and does not start with whitespace |
| TaskLedger.FormatLineParses | flock/monitor.py:86-91 | writing an entry as "<group> <dir>" and reading it back gives the entry |
| TaskLedger.CollectOkIff | flock/monitor.py:86-91 | reading the file succeeds exactly when no line is malformed |
| TaskLedger.CollectErrorIsFirst | flock/monitor.py:86-91 | a failed read stops at the first malformed line |
| TaskLedger.CollectSound | flock/monitor.py:86-91 | every entry read comes from a line that parses to it |
| TaskLedger.CollectComplete | flock/monitor.py:86-91 | every parsed line contributes its entry; only blank lines are dropped |
| TaskLedger.CollectErrorSticks | flock/monitor.py:86-91 | after the first malformed line, later lines do not change the result |
| TaskLedger.FailedInsertStops | flock/monitor.py:97-98 | once an INSERT raises, on a group number too large for a 64-bit INTEGER or a duplicate task_dir, later entries are not inserted |
| TaskLedger.InsertEntries | flock/monitor.py:97-98 | the INSERT loop: one CREATED row per entry under join(run_dir, dir), stopping at an OverflowError or IntegrityError with the earlier rows kept |
| TaskLedger.InsertKeepsListing | flock/monitor.py:97-98 | the INSERT loop keeps keys and listing in step and only appends to the listing |
| TaskLedger.InsertAddsFreshTasks | flock/monitor.py:97-98 | existing rows are untouched, and each new row is CREATED, try_count 0, under join(run_dir, dir) of some entry |
| TaskLedger.InsertCoversEntries | flock/monitor.py:97-98 | a failure is a duplicate key already present or a group number outside the 64-bit range that some entry carries; without a failure every entry has its row and fits the range |
| TaskLedger.TasksetCreatedSpec | flock/monitor.py:83-101 | taskset_created on the tables: a malformed line or an unknown run_dir changes nothing; otherwise the INSERT loop, its failure reported |
| TaskLedger.TasksetCreatedKeepsLedger | flock/monitor.py:83-101 | taskset_created keeps the tables well formed and never changes runs or existing tasks; a malformed line or an unknown run_dir changes nothing and fails |
| TaskLedger.TasksetCreatedNewTasks | flock/monitor.py:93-98 | each added task is CREATED with try_count 0, under join(run_dir, dir) of an entry, in the first run whose run_dir matches |
| TaskLedger.TasksetCreatedCoversFile | flock/monitor.py:93-98 | on success every entry of the file has its task |
| TaskLedger.TaskStore.constructor | flock/monitor.py:56-67 | a store on a new database has empty tables |
| TaskLedger.TaskStore.GetVersion | flock/monitor.py:75-76 | the protocol version "1" |
| TaskLedger.TaskStore.RunCreated | flock/monitor.py:78-81 | appends a run with the next run_id, storing the first argument as run_dir, and returns True |
| TaskLedger.TaskStore.ParseTaskDefinition | flock/monitor.py:84-91 | the reading loop returns exactly ParseAll of the lines |
| TaskLedger.TaskStore.TasksetCreated | flock/monitor.py:83-101 | the new table and the outcome are TasksetCreatedSpec of the old table, including the partial insert before an OverflowError or a duplicate |
| TaskLedger.TaskStore.TaskSubmitted | flock/monitor.py:108-113 | sets SUBMITTED and external_id; an unknown task_dir only logs a warning; returns True |
| TaskLedger.TaskStore.TaskStarted | flock/monitor.py:115-120 | the table becomes Started of the old one; an unknown task_dir only logs a warning; returns True |
| TaskLedger.TaskStore.TaskFailed | flock/monitor.py:122-127 | sets FAILED; an unknown task_dir only logs a warning; returns True |
| TaskLedger.TaskStore.TaskCompleted | flock/monitor.py:129-134 | sets SUCCESS; an unknown task_dir only logs a warning; returns True |
| TaskLedger.TaskStore.NodeDisappeared | flock/monitor.py:136-139 | the table becomes NodeReset of the old one; returns True |
| TaskLedger.TaskStore.FindTasksByStatus | flock/monitor.py:141-151 | only rows with the status; none for limit 0; exactly min(limit, number of matches) rows for a positive limit; all rows for None or a negative limit; always a prefix of the full scan |
| TaskLedger.TaskStore.CountUnfinishedTasksByGroupNumber | flock/monitor.py:153-160 | the loop's dict has exactly the groups with unfinished tasks of the run, each mapped to its count |
| TaskLedger.TaskStore.GetConfigPath | flock/monitor.py:162-165 | (run_dir, flock_config_path) of the run with that run_id, or None where Python raises IndexError |
| Scheduler.UnfinishedTaskIsCounted | flock/monitor.py:153-160 | an unfinished task puts its group into the counts with a positive count |
| Scheduler.FinishedGroupIsNotCounted | flock/monitor.py:153-160 | a group whose tasks are all finished is absent from the counts |
| Scheduler.EligibleIffLowerGroupsFinished | flock/monitor.py:205-209 | all_okay holds on the counts exactly when every task of the run in a lower group is FAILED or SUCCESS |
| Scheduler.Schedule | flock/monitor.py:188-213 | the loop as it is meant to run: below the cap, each ready row submitted under its own run's directory |
| Scheduler.ScheduleAsWritten | flock/monitor.py:188-213 | the loop as written: each ready row joined onto the run_dir of the last run fetched on a cache miss |
| Scheduler.ScheduleWithinCap | flock/monitor.py:188-190 | a pass submits at most max_submitted minus the SUBMITTED count, and nothing once the cap is reached |
| Scheduler.ScheduleSubmitsReady | flock/monitor.py:188-213 | every submission is for a listed row whose lower groups are finished, under its own run's directory |
| Scheduler.ScheduleSubmitsAllReady | flock/monitor.py:188-213 | with room for every row, every row whose lower groups are finished is submitted |
| Scheduler.StaleRunDir | flock/monitor.py:192-212 | rows of runs A, B, A: as written the third is joined onto B's directory; the corrected pass joins it onto A's |
| Scheduler.AsWrittenStep | flock/monitor.py:192-212 | one step of the loop as written submits under the directory of the last run fetched |
| Scheduler.AsWrittenAgrees | flock/monitor.py:192-212 | the loop as written submits the same rows as the intended one, in the same order with the same scatter flags; each path is joined onto some registered run's directory, and is the intended one when task_dir is absolute |
| Scheduler.StaleRunDirExample | flock/monitor.py:192-212 | on a concrete two-run table the loop as written submits "b/a/t3" where "a/a/t3" is meant |
| Scheduler.SubmitCreatedSpec | flock/monitor.py:179-213 | submit_created_tasks as written on the store's contents: the SUBMITTED count, then the loop over the CREATED rows |
| Scheduler.IntendedSubmissions | flock/monitor.py:179-213 | submit_created_tasks with each task under its own run's directory |
| Scheduler.IntendedSubmissionsProperties | flock/monitor.py:179-213 | the intended pass stays within the cap, submits only CREATED tasks whose lower groups are finished, each under its own run's directory with is_scatter exactly when "scatter" occurs in task_dir; with room for all it submits every such task |
| Scheduler.SubmitCreatedProperties | flock/monitor.py:179-213 | a pass as written agrees position by position with the intended pass, stays within the cap, submits only CREATED tasks whose lower groups are finished, with is_scatter exactly when "scatter" occurs in task_dir; with room for all it submits every such task |
| Scheduler.CountsAreUnfinishedCounts | flock/monitor.py:193 | the dict count_unfinished_tasks_by_group_number returns is the run's grouped unfinished counts |
| Scheduler.LookUpRun | flock/monitor.py:192-201 | the counts and run_dir fetched on a cache miss are the ledger's for that run |
| Scheduler.SubmitRow | flock/monitor.py:192-215 | one turn of the loop keeps the cache faithful, sets run_dir only on a cache miss, and submits the row under run_dir exactly when it is ready |
| Scheduler.SubmitRows | flock/monitor.py:188-215 | the loop submits exactly ScheduleAsWritten of the rows, starting with an empty cache |
| Scheduler.SubmitCreatedTasks | flock/monitor.py:179-215 | the submissions of one call are SubmitCreatedSpec of the store, and the store is not modified |
| ClusterMonitor.Interleave | cluster_monitor.py:28-37 | each flag is followed by its value, at even and odd positions |
| ClusterMonitor.GenerateArgs | cluster_monitor.py:25-38 | fails exactly when the instance type has no cpu count; otherwise 20 entries with the flags at even positions in their fixed order |
| ClusterMonitor.ValueOfInterleave | cluster_monitor.py:28-37 | a flag that does not occur earlier finds its own value |
| ClusterMonitor.FlagsDistinct | cluster_monitor.py:28-37 | the ten flags are pairwise different |
| ClusterMonitor.FlagsFindValues | cluster_monitor.py:28-37 | in a generated command line every flag is followed by its own value |
| ClusterMonitor.GenerateArgsReadBack | cluster_monitor.py:25-38 | reading the command line back gives every integer parameter, the instance type, the domain, the bid times the cpu count, and None after --logfile exactly when no log file is set |
| ClusterMonitor.DefaultArgsCarryNone | cluster_monitor.py:10-38 | with the default parameters the command line is built, and None follows --logfile |
| ClusterMonitor.NoneArgIffNoLogFile | cluster_monitor.py:36 | a generated command line holds None exactly when no log file is set |
| ClusterMonitor.IntendedArgs | cluster_monitor.py:25-38 | generate_args as meant: --logfile and its value only when a log file is set |
| ClusterMonitor.IntendedArgsReadBack | cluster_monitor.py:25-38 | the intended command line holds no None, equals generate_args' when a log file is set, and otherwise lacks --logfile while every other flag finds the same value |
| ClusterMonitor.StateNamesDistinct | cluster_monitor.py:43-48 | different states have different names |
| ClusterMonitor.Startup | cluster_monitor.py:140-144 | _execute_startup: ValueError unless cmd_prefix has three names, AssertionError unless the middle one is "-c"; otherwise start_cluster.sh launched and starting |
| ClusterMonitor.Shutdown | cluster_monitor.py:133-138 | _execute_shutdown: terminate --confirm launched, posting stop-completed, and stopping |
| ClusterMonitor.SleepThenPoll | cluster_monitor.py:146-149 | _execute_sleep_then_poll: sleeping, with a timer of interval seconds that posts update |
| ClusterMonitor.VerifyOwnership | cluster_monitor.py:151-167 | _verify_ownership_of_cluster: IndexError without a security group; the tag claimed when absent or when stealing; a foreign tag means broken-lost-ownership and an exception |
| ClusterMonitor.RunCommand | cluster_monitor.py:126-131 | _run_cmd: Popen's TypeError on a command line holding None, with nothing launched; otherwise the command launched with its completion message |
| ClusterMonitor.Poll | cluster_monitor.py:169-180 | _execute_poll: updating; paused, update-completed posted; otherwise the ownership check, first_update cleared, generate_args, and scalecluster run |
| ClusterMonitor.Receive | cluster_monitor.py:182-215 | on_receive: the command of the message dispatched on the state |
| ClusterMonitor.RunSpec | cluster_monitor.py:101-118 | run over the next messages: each handled in turn until the first exception, which is reported and leaves the manager dead |
| ClusterMonitor.StartAllowed | cluster_monitor.py:70-71 | the guard start_manager means: no manager thread is running |
| ClusterMonitor.StartAllowedAsWritten | cluster_monitor.py:71 | the guard as written: passes only when there is no thread at all |
| ClusterMonitor.StartManagerSpec | cluster_monitor.py:69-93 | start_manager as written, given the listing's stdout and stderr |
| ClusterMonitor.StartManagerIntended | cluster_monitor.py:69-93 | start_manager with the intended guard |
| ClusterMonitor.StartTransitions | cluster_monitor.py:192-194 | "start" acts only from stopped or dead, launching start_cluster.sh (which posts start-completed) and moving to starting; a bad cmd_prefix raises and changes nothing |
| ClusterMonitor.StopTransitions | cluster_monitor.py:195-201 | "stop" only sets requested_stop in starting, stopping or updating; terminates from sleeping or stopped (posting stop-completed) and moves to stopping; otherwise changes nothing |
| ClusterMonitor.CompletionTransitions | cluster_monitor.py:205-213 | update-completed and start-completed act only in updating and starting, arming one interval timer that posts update and moving to sleeping; stop-completed moves stopping to stopped; otherwise nothing changes |
| ClusterMonitor.UpdateTransitions | cluster_monitor.py:169-180 | "update" acts only in sleeping; paused, it moves to updating and posts update-completed, launching nothing |
| ClusterMonitor.UpdateScales | cluster_monitor.py:169-177 | un-paused with the tag claimable, "update" tags the cluster, clears first_update and launches scalecluster when a log file is set; with none it raises the TypeError and launches nothing |
| ClusterMonitor.ScaleCommandHoldsNone | cluster_monitor.py:174-175 | the scalecluster command line holds None exactly when no log file is set |
| ClusterMonitor.ForeignTagIsKept | cluster_monitor.py:151-167 | after its first update a manager never overwrites another instance's tag nor launches a scale command; an update then moves to broken-lost-ownership and raises |
| ClusterMonitor.ScaleOnlyWhenOwner | cluster_monitor.py:169-177 | a scale command is launched only while the tag names this manager |
| ClusterMonitor.QueriesChangeNothing | cluster_monitor.py:188-215 | "state?" answers the state's name; unknown commands are ignored; neither changes anything |
| ClusterMonitor.DictDispatch | cluster_monitor.py:183-186 | a dict message acts as its 'command' entry; without one it raises KeyError and changes nothing |
| ClusterMonitor.PollKeepsOwnTags | cluster_monitor.py:169-177 | an update writes no tag but this manager's own |
| ClusterMonitor.ReceiveKeepsOwnTags | cluster_monitor.py:160-161 | handling any message writes no tag but this manager's own |
| ClusterMonitor.BrokenOnlyWhenRaising | cluster_monitor.py:165-167 | broken-lost-ownership is reached only together with the ownership exception |
| ClusterMonitor.RunOutcome | cluster_monitor.py:101-118 | when the run loop ends it met an exception and the manager is dead with its thread gone; no run leaves broken-lost-ownership behind |
| ClusterMonitor.LostOwnershipIsFatal | cluster_monitor.py:106-118 | a manager that lost ownership dies at its next update, leaving the foreign tag in place |
| ClusterMonitor.UnsetLogFileIsFatal | cluster_monitor.py:101-118 | with no log file set, the first un-paused update the manager may act on ends the run loop: dead, the TypeError reported, no scale command launched |
| ClusterMonitor.StartManagerDecision | cluster_monitor.py:69-93 | a manager that already has a thread, running or ended, is refused; otherwise "does not exist" on stderr means stopped, else the listing must show the security group, and the manager is starting with first_update set and start-completed posted |
| ClusterMonitor.GuardRefusesRestart | cluster_monitor.py:71 | as written, start_manager refuses a manager whose loop has ended, though no thread runs |
| ClusterMonitor.GuardAllowsRestart | cluster_monitor.py:69-71 | the intended guard lets such a manager start again and refuses while a loop runs |
| ClusterMonitor.ClusterManager.constructor | cluster_monitor.py:51-64 | a new manager is dead, with no stop requested, first_update set, no thread and an empty mailbox |
| ClusterMonitor.ClusterManager.Tell | cluster_monitor.py:120-121 | appends the message to the mailbox, changes nothing else, and keeps the manager's invariant |
| ClusterMonitor.ClusterManager.StartCluster | cluster_monitor.py:95-96 | posts "start" and keeps the invariant |
| ClusterMonitor.ClusterManager.StopCluster | cluster_monitor.py:98-99 | posts "stop" and keeps the invariant |
| ClusterMonitor.ClusterManager.GetState | cluster_monitor.py:123-124 | returns the state's name, which names no other state |
| ClusterMonitor.ClusterManager.StartManager | cluster_monitor.py:69-93 | the new state and reply are StartManagerSpec of the old state, with the guard as written; the invariant is kept |
| ClusterMonitor.ClusterManager.RunCmd | cluster_monitor.py:126-131 | as RunCommand: the TypeError for a command line holding None, otherwise the launched command recorded with its completion message |
| ClusterMonitor.ClusterManager.ExecuteShutdown | cluster_monitor.py:136-138 | launches terminate --confirm (posting stop-completed) and moves to stopping |
| ClusterMonitor.ClusterManager.ExecuteStartup | cluster_monitor.py:140-144 | as Startup: start_cluster.sh from the three-part cmd_prefix, or the ValueError or AssertionError |
| ClusterMonitor.ClusterManager.ExecuteSleepThenPoll | cluster_monitor.py:146-149 | moves to sleeping and arms one interval timer posting update |
| ClusterMonitor.ClusterManager.VerifyOwnershipOfCluster | cluster_monitor.py:151-167 | as VerifyOwnership: IndexError without a security group; claims the tag when none is set or when stealing; raises on a foreign tag |
| ClusterMonitor.ClusterManager.ExecutePoll | cluster_monitor.py:169-180 | as Poll: updating, then either update-completed posted (paused) or ownership check, first_update cleared and scalecluster run |
| ClusterMonitor.ClusterManager.OnReceive | cluster_monitor.py:182-215 | the new state and reply are Receive of the old state and the message |
| ClusterMonitor.ClusterManager.Run | cluster_monitor.py:101-118 | the loop's result is RunSpec; it keeps the manager out of broken-lost-ownership, and a loop that ended leaves it dead |

## Left out

- SQLite and the schema (flock/monitor.py:16-21, 56-67). The tables are a map, a listing and a sequence. Rows come back in insertion order, which SQLite does not promise without ORDER BY.
- run_id: the position in the run table plus one. That matches AUTOINCREMENT on a fresh database from which no run is deleted.
- File reading in taskset_created: the file's lines are a parameter.
- Log messages and prints. The "no record" warnings of the four updates are kept as a list of warning records; everything else is dropped.
- Locking between threads, wait_for_created and the condition variable. The model is sequential and each store operation is one step. `TransactionContext` is modelled on its own; `TaskStore.transaction()`, which creates it lazily, is not modelled.
- The main loop, the XML-RPC server and identify_tasks_which_disappeared (dead code calling undefined functions). These are I/O or dead code.
- `flock.load_config` and the queue objects (flock/monitor.py:196-200). The `flock` package is not part of this model. The queue is the list of submissions it receives, and the cached queue per run is not modelled.
- Scheduler.SubmitCreatedTasks: assumes the store does not change during a pass. Calls that a queue might make back into the store are not modelled; a CREATED→SUBMITTED change would not alter the unfinished counts anyway.
- TaskLedger.TaskStore.FindTasksByStatus: does not model `%d` formatting of a non-integer limit.
- ClusterMonitor.GenerateArgs: keeps the spot bid as the pair (spot_bid, cpus) instead of the text of their floating-point product. Float arithmetic and formatting are not modelled.
- Subprocesses: listclusters is replaced by its stdout and stderr as parameters. A launched command is a record of its argument list and the message it posts when it ends; a caller posts that message with Tell. Popen's TypeError on a None entry is modelled; its other failures (a missing program, an OSError) are not.
- Timers: an armed timer is a record. Its firing is a later Tell of "update".
- The terminal and the traceback text: an exception report records only which failure occurred.
- The exception message at cluster_monitor.py:167. `repr(a, b)` raises TypeError while the message is being built. Either way an exception leaves on_receive, and only that is modelled.
- EC2: the ownership tag is an optional string, so more than one tag for the key (the assertion at cluster_monitor.py:163) cannot arise. Whether the security group exists is fixed at construction.
- ClusterMonitor.ClusterManager.Run: handles at most `budget` messages. It also stops when the mailbox is empty, where queue.get would block. The thread itself is a three-valued field.
- requested_stop is set but never read, and dryrun is never read by generate_args. Both are carried without further properties.
- instance_types.py: its sort does not change the resulting table, because the keys are distinct. The table is a constant map.
- get_version returns "1" and has no property beyond that.

## Findings

| source | as written | input that shows it | evidently intended | confidence | as-written member | corrected member |
|---|---|---|---|---|---|---|
| flock/monitor.py:195 | run_dir is assigned only when a run is first seen; line 212 joins every task onto it | runs with the relative directories "a" and "b"; CREATED tasks "a/t1" (run 1), "b/t2" (run 2), "a/t3" (run 1), all group 0: the third is submitted as "b/a/t3" | each task joined onto its own run's directory: "a/a/t3", which repeats the run directory as the first two paths do. With an absolute run_dir the stored task_dir is absolute, the join returns it unchanged, and the stale value does no harm | high for a relative run_dir; not executed | Scheduler.StaleRunDirExample | Scheduler.IntendedSubmissionsProperties |
| cluster_monitor.py:71 | `not self.thread.is_alive` tests the method object, which is always true, so the assertion passes only when there is no thread | start_manager after the run loop ended on an exception: the assertion fails although no thread runs | `not self.thread.is_alive()`: refuse only while a manager thread runs | high; not executed | ClusterMonitor.GuardRefusesRestart | ClusterMonitor.GuardAllowsRestart |
| cluster_monitor.py:36 | generate_args puts log_file, None by default, after --logfile; Popen raises TypeError on a None entry | default Parameters with is_paused False; a sleeping manager that may claim its cluster receives "update": the TypeError ends the run loop and the manager is dead | pass --logfile only when a log file is set | medium (callers may always set log_file); not executed | ClusterMonitor.UnsetLogFileIsFatal | ClusterMonitor.IntendedArgsReadBack |

The class methods model the code as written. The corrected definitions sit beside them, with their
properties proved and lemmas that relate the two:

- `Scheduler.SubmitCreatedTasks` follows `Scheduler.ScheduleAsWritten`. The intended pass is
  `Scheduler.Schedule`, and `Scheduler.AsWrittenAgrees` shows that both submit the same rows, in the
  same order, with the same scatter flags.
- `ClusterMonitor.ClusterManager.StartManager` uses the guard as written, `StartAllowedAsWritten`.
  The intended guard is `StartAllowed`, used by `StartManagerIntended`.
- `ClusterMonitor.ClusterManager.ExecutePoll` hands `RunCmd` the command line `GenerateArgs` builds,
  None included, so it raises when no log file is set. The intended command line is `IntendedArgs`.
