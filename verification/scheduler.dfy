/**
 * One pass of the submission loop of flock/monitor.py (submit_created_tasks):
 * walk the CREATED tasks in table order and hand each one whose run has no
 * unfinished task in a lower group to the run's queue, stopping once the
 * number of submitted tasks reaches the cap. The queue is modelled by the
 * list of submissions it receives; loading the run's configuration and
 * building the queue object are left out.
 */
module Scheduler {
  import opened Wrappers
  import opened PyText
  import opened TaskLedger

  /**
   * One call of queue.submit(run_id, path, is_scatter), with the row it was
   * made for: the run id is row.runId.
   */
  datatype Submission = Submission(row: TaskRow, path: string, scatter: bool)

  /** count_unfinished_tasks_by_group_number(run_id) on the ledger. */
  function UnfinishedCounts(l: Ledger, runId: int): map<int, int> {
    UnfinishedByGroup(l.tasks, l.order, runId)
  }

  /** The rows name registered runs, as every row of a well-formed ledger does. */
  predicate RowsOfRuns(l: Ledger, rows: seq<TaskRow>) {
    forall row :: row in rows ==> 1 <= row.runId <= |l.runs|
  }

  /**
   * Every cached entry holds the run's unfinished counts, as the ledger says.
   * (The loop also caches the run's queue, which is not modelled.)
   */
  ghost predicate CacheValid(l: Ledger, cache: map<int, map<int, int>>) {
    forall r :: r in cache ==> 1 <= r <= |l.runs| && cache[r] == UnfinishedCounts(l, r)
  }

  /** all_okay: no group below the task's group still has unfinished tasks. */
  predicate Eligible(counts: map<int, int>, group: int) {
    forall g :: g in counts && g < group ==> counts[g] <= 0
  }

  /** The ledger's own statement of the ordering rule: every task of the run in a lower group is FAILED or SUCCESS. */
  ghost predicate LowerGroupsFinished(l: Ledger, runId: int, group: int) {
    forall k :: k in l.tasks && l.tasks[k].runId == runId && l.tasks[k].groupNumber < group ==> IsFinished(l.tasks[k].status)
  }

  /** An unfinished task of the run puts its group among the counted groups, with a positive count. */
  lemma UnfinishedTaskIsCounted(l: Ledger, runId: int, k: string)
    requires WellFormed(l) && k in l.tasks && l.tasks[k].runId == runId
    ensures var g := l.tasks[k].groupNumber;
      !IsFinished(l.tasks[k].status) ==> g in UnfinishedCounts(l, runId) && UnfinishedCounts(l, runId)[g] > 0
  {
    var g := l.tasks[k].groupNumber;
    UnfinishedInIsCount(l, runId, g);
    UnfinishedByGroupCounts(l.tasks, l.order, runId);
    assert !IsFinished(l.tasks[k].status) ==> k in UnfinishedSet(l.tasks, runId, g);
  }

  /** A group whose tasks of the run are all finished is not among the counted groups. */
  lemma FinishedGroupIsNotCounted(l: Ledger, runId: int, g: int)
    requires WellFormed(l)
    requires forall k :: k in l.tasks && l.tasks[k].runId == runId && l.tasks[k].groupNumber == g ==> IsFinished(l.tasks[k].status)
    ensures g !in UnfinishedCounts(l, runId)
  {
    UnfinishedInIsCount(l, runId, g);
    UnfinishedByGroupCounts(l.tasks, l.order, runId);
    assert UnfinishedSet(l.tasks, runId, g) == {};
  }

  /** The cached counts allow a group exactly when all lower groups of the run are finished. */
  lemma EligibleIffLowerGroupsFinished(l: Ledger, runId: int, group: int)
    requires WellFormed(l)
    ensures Eligible(UnfinishedCounts(l, runId), group) <==> LowerGroupsFinished(l, runId, group)
  {
    var counts := UnfinishedCounts(l, runId);
    if Eligible(counts, group) {
      forall k | k in l.tasks && l.tasks[k].runId == runId && l.tasks[k].groupNumber < group
        ensures IsFinished(l.tasks[k].status)
      {
        UnfinishedTaskIsCounted(l, runId, k);
      }
    }
    if LowerGroupsFinished(l, runId, group) {
      forall g | g < group ensures g !in counts {
        FinishedGroupIsNotCounted(l, runId, g);
      }
    }
  }

  /** queue.submit for a row, its task_dir joined onto dir; a scatter task when "scatter" occurs in its task_dir. */
  function SubmitUnder(row: TaskRow, dir: string): Submission {
    Submission(row, PathJoin(dir, row.taskDir), Contains(row.taskDir, "scatter"))
  }

  /** queue.submit for a row, joined onto the directory of the row's own run. */
  function Submit(l: Ledger, row: TaskRow): Submission
    requires 1 <= row.runId <= |l.runs|
  {
    SubmitUnder(row, l.runs[row.runId - 1].runDir)
  }

  /** The all_okay test on the counts of the row's run. */
  function ReadyRow(l: Ledger, row: TaskRow): bool {
    Eligible(UnfinishedCounts(l, row.runId), row.groupNumber)
  }

  /**
   * The loop over the CREATED rows, as it should run: each submission is
   * joined onto the directory of the row's own run. The per-run cache of the
   * loop is not part of the specification, since the ledger does not change
   * during a pass: the cached values are the ledger's.
   */
  function Schedule(l: Ledger, rows: seq<TaskRow>, submitted: int, max: int): seq<Submission>
    requires RowsOfRuns(l, rows)
    decreases |rows|
  {
    if rows == [] || submitted >= max then []
    else if ReadyRow(l, rows[0]) then [Submit(l, rows[0])] + Schedule(l, rows[1..], submitted + 1, max)
    else Schedule(l, rows[1..], submitted, max)
  }

  /**
   * The value of the loop's run_dir variable once a row has been looked up:
   * fetched anew on a cache miss, otherwise whatever the last miss left.
   */
  function DirAfter(l: Ledger, row: TaskRow, seen: set<int>, runDir: string): string
    requires 1 <= row.runId <= |l.runs|
  {
    if row.runId in seen then runDir else l.runs[row.runId - 1].runDir
  }

  /**
   * The loop as written: run_dir is assigned only when a run is first seen
   * (seen holds the runs already cached), so a row of a run seen earlier is
   * joined onto the directory of whichever run was fetched last.
   */
  function ScheduleAsWritten(l: Ledger, rows: seq<TaskRow>, submitted: int, max: int, seen: set<int>, runDir: string): seq<Submission>
    requires RowsOfRuns(l, rows)
    decreases |rows|
  {
    if rows == [] || submitted >= max then []
    else
      var row := rows[0];
      var dir := DirAfter(l, row, seen, runDir);
      if ReadyRow(l, row) then
        [SubmitUnder(row, dir)] + ScheduleAsWritten(l, rows[1..], submitted + 1, max, seen + {row.runId}, dir)
      else ScheduleAsWritten(l, rows[1..], submitted, max, seen + {row.runId}, dir)
  }

  /** The pass never submits more than the cap leaves room for. */
  lemma {:induction false} ScheduleWithinCap(l: Ledger, rows: seq<TaskRow>, submitted: int, max: int)
    requires RowsOfRuns(l, rows)
    ensures |Schedule(l, rows, submitted, max)| <= if submitted >= max then 0 else max - submitted
    decreases |rows|
  {
    if rows != [] && submitted < max {
      ScheduleWithinCap(l, rows[1..], submitted + 1, max);
      ScheduleWithinCap(l, rows[1..], submitted, max);
    }
  }

  /** Every submission is for one of the rows, and only once every lower group of its run is finished. */
  lemma {:induction false} ScheduleSubmitsReady(l: Ledger, rows: seq<TaskRow>, submitted: int, max: int)
    requires WellFormed(l) && RowsOfRuns(l, rows)
    ensures forall s :: s in Schedule(l, rows, submitted, max) ==>
      && s.row in rows
      && 1 <= s.row.runId <= |l.runs|
      && s == Submit(l, s.row)
      && LowerGroupsFinished(l, s.row.runId, s.row.groupNumber)
    decreases |rows|
  {
    if rows != [] && submitted < max {
      var row := rows[0];
      EligibleIffLowerGroupsFinished(l, row.runId, row.groupNumber);
      assert forall x :: x in rows[1..] ==> x in rows;
      if ReadyRow(l, row) {
        ScheduleSubmitsReady(l, rows[1..], submitted + 1, max);
      } else {
        ScheduleSubmitsReady(l, rows[1..], submitted, max);
      }
    }
  }

  /** With room for every row, every row whose lower groups are finished is submitted. */
  lemma {:induction false} ScheduleSubmitsAllReady(l: Ledger, rows: seq<TaskRow>, submitted: int, max: int)
    requires WellFormed(l) && RowsOfRuns(l, rows)
    requires submitted + |rows| <= max
    ensures forall row :: row in rows && LowerGroupsFinished(l, row.runId, row.groupNumber) ==>
      Submit(l, row) in Schedule(l, rows, submitted, max)
    decreases |rows|
  {
    if rows != [] {
      var row := rows[0];
      EligibleIffLowerGroupsFinished(l, row.runId, row.groupNumber);
      var next := if ReadyRow(l, row) then submitted + 1 else submitted;
      ScheduleSubmitsAllReady(l, rows[1..], next, max);
      var all := Schedule(l, rows, submitted, max);
      assert forall s :: s in Schedule(l, rows[1..], next, max) ==> s in all;
      forall x | x in rows && LowerGroupsFinished(l, x.runId, x.groupNumber)
        ensures Submit(l, x) in all
      {
        if x != row {
          assert x in rows[1..];
        }
      }
    }
  }

  /**
   * Rows of run A, then run B, then run A again, all ready: as written, the
   * third submission is joined onto run B's directory, because run_dir still
   * holds the value fetched for the second row; the corrected loop joins it
   * onto run A's own directory.
   */
  lemma StaleRunDir(l: Ledger, a: TaskRow, b: TaskRow, c: TaskRow, max: int)
    requires RowsOfRuns(l, [a, b, c]) && a.runId == c.runId && a.runId != b.runId
    requires ReadyRow(l, a) && ReadyRow(l, b) && ReadyRow(l, c) && max >= 3
    ensures var w := ScheduleAsWritten(l, [a, b, c], 0, max, {}, "");
      |w| == 3 && w[2].path == PathJoin(l.runs[b.runId - 1].runDir, c.taskDir)
    ensures var s := Schedule(l, [a, b, c], 0, max);
      |s| == 3 && s[2].path == PathJoin(l.runs[c.runId - 1].runDir, c.taskDir)
  {
    var rows := [a, b, c];
    assert rows[1..] == [b, c] && rows[1..][1..] == [c] && [c][1..] == [];
    var dirA := l.runs[a.runId - 1].runDir;
    var dirB := l.runs[b.runId - 1].runDir;
    var seen1 := {} + {a.runId};
    var seen2 := seen1 + {b.runId};
    AsWrittenStep(l, rows, 0, max, {}, "", [SubmitUnder(a, dirA)]);
    AsWrittenStep(l, [b, c], 1, max, seen1, dirA, [SubmitUnder(b, dirB)]);
    assert c.runId in seen2;
    AsWrittenStep(l, [c], 2, max, seen2, dirB, [SubmitUnder(c, dirB)]);
    assert ScheduleAsWritten(l, [], 3, max, seen2 + {c.runId}, dirB) == [];
    var s1 := Schedule(l, [b, c], 1, max);
    var s2 := Schedule(l, [c], 2, max);
    assert |Schedule(l, [], 3, max)| == 0;
    assert s2[0] == Submit(l, c) && |s2| == 1;
    assert |s1| == 2 && s1[1] == s2[0];
  }

  /**
   * One visited row below the cap, as written: its submission, if any, is
   * joined onto the run_dir its lookup leaves, ahead of the rest of the pass.
   */
  lemma AsWrittenStep(l: Ledger, rows: seq<TaskRow>, submitted: int, max: int, seen: set<int>, runDir: string, out: seq<Submission>)
    requires RowsOfRuns(l, rows) && rows != [] && submitted < max
    requires out == if ReadyRow(l, rows[0]) then [SubmitUnder(rows[0], DirAfter(l, rows[0], seen, runDir))] else []
    ensures RowsOfRuns(l, rows[1..])
    ensures ScheduleAsWritten(l, rows, submitted, max, seen, runDir)
      == out + ScheduleAsWritten(l, rows[1..], submitted + |out|, max, seen + {rows[0].runId}, DirAfter(l, rows[0], seen, runDir))
  {
  }

  /** What the loop's run_dir can hold: nothing fetched yet, or the directory of a registered run. */
  ghost predicate FetchedDir(l: Ledger, seen: set<int>, runDir: string) {
    seen == {} || exists r :: 0 <= r < |l.runs| && l.runs[r].runDir == runDir
  }

  /**
   * The loop as written submits the same rows as the corrected one, in the
   * same order and with the same scatter flags; only the directory a path is
   * joined onto differs. It is always the directory of some registered run,
   * and it makes no difference when the stored task_dir is absolute.
   */
  lemma {:induction false} AsWrittenAgrees(l: Ledger, rows: seq<TaskRow>, submitted: int, max: int, seen: set<int>, runDir: string)
    requires RowsOfRuns(l, rows) && FetchedDir(l, seen, runDir)
    ensures var w := ScheduleAsWritten(l, rows, submitted, max, seen, runDir);
      var s := Schedule(l, rows, submitted, max);
      && |w| == |s|
      && forall i :: 0 <= i < |w| ==> Agree(l, w[i], s[i])
    decreases |rows|
  {
    if rows != [] && submitted < max {
      var row := rows[0];
      var dir := DirAfter(l, row, seen, runDir);
      HeadAgrees(l, row, seen, runDir);
      var ready := ReadyRow(l, row);
      var out := if ready then [SubmitUnder(row, dir)] else [];
      var outS := if ready then [Submit(l, row)] else [];
      AsWrittenStep(l, rows, submitted, max, seen, runDir, out);
      ScheduleStep(l, rows, submitted, max, outS);
      var next := submitted + |out|;
      AsWrittenAgrees(l, rows[1..], next, max, seen + {row.runId}, dir);
      var w' := ScheduleAsWritten(l, rows[1..], next, max, seen + {row.runId}, dir);
      var s' := Schedule(l, rows[1..], next, max);
      if ready {
        AgreeCons(l, SubmitUnder(row, dir), Submit(l, row), w', s');
      }
    }
  }

  /** Agreement index by index survives putting an agreeing pair in front. */
  lemma AgreeCons(l: Ledger, a: Submission, b: Submission, w: seq<Submission>, s: seq<Submission>)
    requires Agree(l, a, b) && |w| == |s|
    requires forall i :: 0 <= i < |w| ==> Agree(l, w[i], s[i])
    ensures forall i :: 0 <= i < |w| + 1 ==> Agree(l, ([a] + w)[i], ([b] + s)[i])
  {
    forall i | 0 <= i < |w| + 1 ensures Agree(l, ([a] + w)[i], ([b] + s)[i]) {
      if i > 0 {
        assert ([a] + w)[i] == w[i - 1] && ([b] + s)[i] == s[i - 1];
      }
    }
  }

  /** The row just looked up agrees with its intended submission, and run_dir still holds a registered run's directory. */
  lemma HeadAgrees(l: Ledger, row: TaskRow, seen: set<int>, runDir: string)
    requires 1 <= row.runId <= |l.runs| && FetchedDir(l, seen, runDir)
    ensures FetchedDir(l, seen + {row.runId}, DirAfter(l, row, seen, runDir))
    ensures Agree(l, SubmitUnder(row, DirAfter(l, row, seen, runDir)), Submit(l, row))
  {
    var dir := DirAfter(l, row, seen, runDir);
    PathJoinParts(dir, row.taskDir);
    if row.runId in seen {
      var r :| 0 <= r < |l.runs| && l.runs[r].runDir == runDir;
      assert l.runs[r].runDir == dir;
    } else {
      assert l.runs[row.runId - 1].runDir == dir;
    }
  }

  /**
   * A submission of the loop as written against the intended one for the
   * same position: same row and scatter flag, a path joined onto some
   * registered run's directory, and no difference at all for an absolute
   * task_dir.
   */
  ghost predicate Agree(l: Ledger, w: Submission, s: Submission) {
    && w.row == s.row && w.scatter == s.scatter
    && (exists r :: 0 <= r < |l.runs| && w.path == PathJoin(l.runs[r].runDir, w.row.taskDir))
    && (IsAbsolute(w.row.taskDir) ==> w == s)
  }

  /** One visited row below the cap contributes its own submission, if any, ahead of the rest. */
  lemma ScheduleStep(l: Ledger, rows: seq<TaskRow>, submitted: int, max: int, out: seq<Submission>)
    requires RowsOfRuns(l, rows) && rows != [] && submitted < max
    requires out == if ReadyRow(l, rows[0]) then [Submit(l, rows[0])] else []
    ensures RowsOfRuns(l, rows[1..])
    ensures Schedule(l, rows, submitted, max) == out + Schedule(l, rows[1..], submitted + |out|, max)
  {
  }

  /** Two runs with relative directories "a" and "b", their CREATED rows interleaved. */
  function InterleavedRuns(): Ledger {
    Ledger(
      map["a/t1" := NewTask(1, 0), "b/t2" := NewTask(2, 0), "a/t3" := NewTask(1, 0)],
      ["a/t1", "b/t2", "a/t3"],
      [Run(1, "a", "first", "a/config", ""), Run(2, "b", "second", "b/config", "")])
  }

  /**
   * On that ledger the loop as written submits the third task under
   * "b/a/t3"; the corrected loop submits it under "a/a/t3".
   */
  lemma StaleRunDirExample()
    ensures var l := InterleavedRuns();
      var rows := Matching(l.tasks, l.order, CREATED);
      && RowsOfRuns(l, rows)
      && |ScheduleAsWritten(l, rows, 0, 100, {}, "")| == 3
      && ScheduleAsWritten(l, rows, 0, 100, {}, "")[2].path == "b/a/t3"
      && |Schedule(l, rows, 0, 100)| == 3
      && Schedule(l, rows, 0, 100)[2].path == "a/a/t3"
  {
    var l := InterleavedRuns();
    var t1 := TaskRow(1, "a/t1", 0);
    var t2 := TaskRow(2, "b/t2", 0);
    var t3 := TaskRow(1, "a/t3", 0);
    InterleavedRows();
    InterleavedRowsReady();
    StaleRunDir(l, t1, t2, t3, 100);
    ExamplePaths();
  }

  /** The two paths the example's third row can be given. */
  lemma ExamplePaths()
    ensures PathJoin("b", "a/t3") == "b/a/t3" && PathJoin("a", "a/t3") == "a/a/t3"
  {
    assert PathJoin("b", "a/t3") == "b" + "/" + "a/t3";
    assert PathJoin("a", "a/t3") == "a" + "/" + "a/t3";
  }

  /** The CREATED rows of the interleaved ledger, in table order. */
  lemma InterleavedRows()
    ensures var l := InterleavedRuns();
      Matching(l.tasks, l.order, CREATED) == [TaskRow(1, "a/t1", 0), TaskRow(2, "b/t2", 0), TaskRow(1, "a/t3", 0)]
  {
    var l := InterleavedRuns();
    assert Matching(l.tasks, l.order[..1], CREATED) == [TaskRow(1, "a/t1", 0)] by {
      assert l.order[..1][..0] == [];
    }
    assert Matching(l.tasks, l.order[..2], CREATED) == [TaskRow(1, "a/t1", 0), TaskRow(2, "b/t2", 0)] by {
      assert l.order[..2][..1] == l.order[..1];
    }
    assert l.order[..2] == l.order[..|l.order| - 1];
  }

  /** Every counted group is the group of some task. */
  lemma {:induction false} CountedGroupsExist(tasks: map<string, Task>, keys: seq<string>, runId: int)
    ensures forall g :: g in UnfinishedByGroup(tasks, keys, runId) ==> exists k :: k in tasks && tasks[k].groupNumber == g
    decreases |keys|
  {
    if keys != [] {
      CountedGroupsExist(tasks, keys[..|keys| - 1], runId);
    }
  }

  /** Every task of the interleaved ledger is in group 0, so no row waits for a lower group. */
  lemma InterleavedRowsReady()
    ensures forall row: TaskRow :: row.groupNumber == 0 ==> ReadyRow(InterleavedRuns(), row)
  {
    var l := InterleavedRuns();
    assert l.tasks.Keys == {"a/t1", "b/t2", "a/t3"};
    assert forall k :: k in l.tasks ==> l.tasks[k].groupNumber == 0;
    forall row: TaskRow | row.groupNumber == 0 ensures ReadyRow(l, row) {
      CountedGroupsExist(l.tasks, l.order, row.runId);
    }
  }

  /** submit_created_tasks, as written, on the store's current contents. */
  function SubmitCreatedSpec(l: Ledger, maxSubmitted: int): seq<Submission>
    requires WellFormed(l)
  {
    var rows := Matching(l.tasks, l.order, CREATED);
    assert RowsOfRuns(l, rows);
    ScheduleAsWritten(l, rows, |Matching(l.tasks, l.order, SUBMITTED)|, maxSubmitted, {}, "")
  }

  /** submit_created_tasks as it is meant to run: every task under its own run's directory. */
  function IntendedSubmissions(l: Ledger, maxSubmitted: int): seq<Submission>
    requires WellFormed(l)
  {
    var rows := Matching(l.tasks, l.order, CREATED);
    assert RowsOfRuns(l, rows);
    Schedule(l, rows, |Matching(l.tasks, l.order, SUBMITTED)|, maxSubmitted)
  }

  /**
   * One pass submits at most the room the cap leaves beside the SUBMITTED
   * tasks, only CREATED tasks whose lower groups are finished, each under its
   * own run's directory and flagged as a scatter task exactly when "scatter"
   * occurs in its task_dir; and with room for all, every such task.
   */
  lemma IntendedSubmissionsProperties(l: Ledger, maxSubmitted: int)
    requires WellFormed(l)
    ensures var subs := IntendedSubmissions(l, maxSubmitted);
      var already := |Matching(l.tasks, l.order, SUBMITTED)|;
      && |subs| <= (if already >= maxSubmitted then 0 else maxSubmitted - already)
      && (forall s :: s in subs ==>
            SubmitsCreated(l, s) && s.path == PathJoin(l.runs[s.row.runId - 1].runDir, s.row.taskDir))
      && (already + |Matching(l.tasks, l.order, CREATED)| <= maxSubmitted ==>
            forall k :: k in l.tasks && l.tasks[k].status == CREATED && LowerGroupsFinished(l, l.tasks[k].runId, l.tasks[k].groupNumber) ==>
              RowOf(l.tasks, k) in RowsOf(subs))
  {
    var rows := Matching(l.tasks, l.order, CREATED);
    var already := |Matching(l.tasks, l.order, SUBMITTED)|;
    var subs := IntendedSubmissions(l, maxSubmitted);
    ScheduleWithinCap(l, rows, already, maxSubmitted);
    ScheduleSubmitsReady(l, rows, already, maxSubmitted);
    if already + |rows| <= maxSubmitted {
      ScheduleSubmitsAllReady(l, rows, already, maxSubmitted);
      forall k | k in l.tasks && l.tasks[k].status == CREATED && LowerGroupsFinished(l, l.tasks[k].runId, l.tasks[k].groupNumber)
        ensures RowOf(l.tasks, k) in RowsOf(subs)
      {
        MatchingComplete(l.tasks, l.order, CREATED, k);
        assert Submit(l, RowOf(l.tasks, k)) in subs;
      }
    }
  }

  /** A submission for a CREATED task of the ledger whose lower groups are finished, flagged as scatter exactly when its task_dir says so. */
  ghost predicate SubmitsCreated(l: Ledger, s: Submission) {
    && s.row.taskDir in l.tasks && l.tasks[s.row.taskDir].status == CREATED
    && s.row.runId == l.tasks[s.row.taskDir].runId
    && (s.scatter <==> exists i :: OccursAt(s.row.taskDir, "scatter", i))
    && LowerGroupsFinished(l, s.row.runId, s.row.groupNumber)
  }

  /** The rows a list of submissions is for. */
  ghost function RowsOf(subs: seq<Submission>): set<TaskRow> {
    set s | s in subs :: s.row
  }

  /**
   * One pass as written submits the same tasks as the intended pass, in the
   * same order and with the same scatter flags, so it too keeps within the
   * cap, submits only CREATED tasks whose lower groups are finished, flags a
   * scatter task exactly when "scatter" occurs in its task_dir, and with room
   * for all submits every such task. Each path is the task_dir joined onto
   * the directory of some registered run, and onto the task's own run's
   * directory in effect whenever the stored task_dir is absolute.
   */
  lemma SubmitCreatedProperties(l: Ledger, maxSubmitted: int)
    requires WellFormed(l)
    ensures var subs := SubmitCreatedSpec(l, maxSubmitted);
      var intended := IntendedSubmissions(l, maxSubmitted);
      var already := |Matching(l.tasks, l.order, SUBMITTED)|;
      && |subs| == |intended|
      && |subs| <= (if already >= maxSubmitted then 0 else maxSubmitted - already)
      && (forall i :: 0 <= i < |subs| ==> Agree(l, subs[i], intended[i]))
      && (forall s :: s in subs ==> SubmitsCreated(l, s))
      && (already + |Matching(l.tasks, l.order, CREATED)| <= maxSubmitted ==>
            forall k :: k in l.tasks && l.tasks[k].status == CREATED && LowerGroupsFinished(l, l.tasks[k].runId, l.tasks[k].groupNumber) ==>
              RowOf(l.tasks, k) in RowsOf(subs))
  {
    var rows := Matching(l.tasks, l.order, CREATED);
    var subs := SubmitCreatedSpec(l, maxSubmitted);
    var intended := IntendedSubmissions(l, maxSubmitted);
    IntendedSubmissionsProperties(l, maxSubmitted);
    AsWrittenAgrees(l, rows, |Matching(l.tasks, l.order, SUBMITTED)|, maxSubmitted, {}, "");
    AgreeingSubmissions(l, subs, intended);
  }

  /** Submissions that agree position by position are for the same rows, and for CREATED ready tasks when the intended ones are. */
  lemma AgreeingSubmissions(l: Ledger, subs: seq<Submission>, intended: seq<Submission>)
    requires |subs| == |intended| && forall i :: 0 <= i < |subs| ==> Agree(l, subs[i], intended[i])
    requires forall s :: s in intended ==> SubmitsCreated(l, s)
    ensures forall s :: s in subs ==> SubmitsCreated(l, s)
    ensures RowsOf(subs) == RowsOf(intended)
  {
    forall s | s in subs ensures SubmitsCreated(l, s) {
      var i :| 0 <= i < |subs| && subs[i] == s;
      assert intended[i] in intended;
    }
    forall x | x in RowsOf(intended) ensures x in RowsOf(subs) {
      var t :| t in intended && t.row == x;
      var i :| 0 <= i < |intended| && intended[i] == t;
      assert subs[i] in subs;
    }
    forall x | x in RowsOf(subs) ensures x in RowsOf(intended) {
      var t :| t in subs && t.row == x;
      var i :| 0 <= i < |subs| && subs[i] == t;
      assert intended[i] in intended;
    }
  }

  /** The counts count_unfinished_tasks_by_group_number returns are the ledger's grouped counts. */
  lemma CountsAreUnfinishedCounts(l: Ledger, runId: int, counts: map<int, int>)
    requires forall g :: g in counts <==> UnfinishedIn(l.tasks, l.order, runId, g) > 0
    requires forall g :: g in counts ==> counts[g] == UnfinishedIn(l.tasks, l.order, runId, g)
    ensures counts == UnfinishedCounts(l, runId)
  {
    var m := UnfinishedCounts(l, runId);
    UnfinishedByGroupCounts(l.tasks, l.order, runId);
    forall g ensures g in counts <==> g in m {
      assert g in counts <==> UnfinishedIn(l.tasks, l.order, runId, g) > 0;
    }
    forall g | g in counts ensures counts[g] == m[g] {
      assert g in m;
    }
  }

  /** What the loop fetches on a run's first row: its unfinished counts per group and its run_dir. */
  method LookUpRun(store: TaskStore, runId: int) returns (counts: map<int, int>, runDir: string)
    requires store.Valid() && 1 <= runId <= |store.runs|
    ensures counts == UnfinishedCounts(store.State(), runId)
    ensures runDir == store.runs[runId - 1].runDir
  {
    counts := store.CountUnfinishedTasksByGroupNumber(runId);
    CountsAreUnfinishedCounts(store.State(), runId, counts);
    assert store.runs[runId - 1].runId == runId;
    var config := store.GetConfigPath(runId);
    runDir := config.value.0;
  }

  /** submit_created_tasks: count the SUBMITTED tasks, then walk the CREATED ones. */
  method SubmitCreatedTasks(store: TaskStore, maxSubmitted: int) returns (subs: seq<Submission>)
    requires store.Valid()
    ensures subs == SubmitCreatedSpec(store.State(), maxSubmitted)
  {
    var submittedCount := |store.FindTasksByStatus(SUBMITTED, None)|;
    var rows := store.FindTasksByStatus(CREATED, None);
    assert RowsOfRuns(store.State(), rows);
    subs := SubmitRows(store, rows, submittedCount, maxSubmitted);
  }

  /**
   * One turn of the loop for a row: on a run's first row fetch and cache its
   * counts and set run_dir; then submit the row, joined onto run_dir, when no
   * lower group of its run is unfinished.
   */
  method SubmitRow(store: TaskStore, row: TaskRow, cache: map<int, map<int, int>>, runDir: string)
    returns (out: seq<Submission>, cache': map<int, map<int, int>>, runDir': string)
    requires store.Valid() && 1 <= row.runId <= |store.runs| && CacheValid(store.State(), cache)
    ensures CacheValid(store.State(), cache') && cache'.Keys == cache.Keys + {row.runId}
    ensures runDir' == DirAfter(store.State(), row, cache.Keys, runDir)
    ensures out == if ReadyRow(store.State(), row) then [SubmitUnder(row, runDir')] else []
  {
    cache', runDir' := cache, runDir;
    if row.runId !in cache' {
      var counts;
      counts, runDir' := LookUpRun(store, row.runId);
      cache' := cache'[row.runId := counts];
    }
    var counts := cache'[row.runId];
    if Eligible(counts, row.groupNumber) {
      out := [Submission(row, PathJoin(runDir', row.taskDir), Contains(row.taskDir, "scatter"))];
    } else {
      out := [];
    }
  }

  lemma AppendAssociates<T>(a: seq<T>, b: seq<T>, c: seq<T>)
    ensures (a + b) + c == a + (b + c)
  {
  }

  /**
   * The loop over the CREATED rows, stopping at the cap; rest holds the rows
   * not yet visited and runDir the run_dir of the last cache miss (unbound in
   * the source until the first row, which is always a miss).
   */
  method SubmitRows(store: TaskStore, rows: seq<TaskRow>, submitted: int, maxSubmitted: int) returns (subs: seq<Submission>)
    requires store.Valid() && RowsOfRuns(store.State(), rows)
    ensures subs == ScheduleAsWritten(store.State(), rows, submitted, maxSubmitted, {}, "")
  {
    ghost var l := store.State();
    var submittedCount := submitted;
    var cache: map<int, map<int, int>> := map[];
    var runDir := "";
    var rest := rows;
    subs := [];
    assert cache.Keys == {};
    while rest != [] && submittedCount < maxSubmitted
      invariant RowsOfRuns(l, rest) && CacheValid(l, cache)
      invariant subs + ScheduleAsWritten(l, rest, submittedCount, maxSubmitted, cache.Keys, runDir)
             == ScheduleAsWritten(l, rows, submitted, maxSubmitted, {}, "")
      decreases |rest|
    {
      ghost var seen, dir := cache.Keys, runDir;
      var out;
      out, cache, runDir := SubmitRow(store, rest[0], cache, runDir);
      AsWrittenStep(l, rest, submittedCount, maxSubmitted, seen, dir, out);
      AppendAssociates(subs, out, ScheduleAsWritten(l, rest[1..], submittedCount + |out|, maxSubmitted, cache.Keys, runDir));
      subs := subs + out;
      submittedCount := submittedCount + |out|;
      rest := rest[1..];
    }
  }
}
