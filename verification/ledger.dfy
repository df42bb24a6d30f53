/**
 * The task ledger of flock/monitor.py (TaskStore): a table of runs and a
 * table of tasks keyed by task_dir, kept in memory instead of SQLite. The
 * task table is a map from task_dir to the row, plus the order in which the
 * rows were inserted, which is the order a full scan of the table returns
 * them in.
 */
module TaskLedger {
  import opened Wrappers
  import opened PyText

  // Task status codes, as stored in the TASKS table.
  const STARTED: int := 1
  const FAILED: int := -1
  const SUCCESS: int := 2
  const SUBMITTED: int := 20
  const READY: int := 100
  const CREATED: int := 105

  /** FAILED and SUCCESS are terminal; every other status counts as unfinished. */
  predicate IsFinished(status: int) {
    status == FAILED || status == SUCCESS
  }

  /** A row of TASKS, without its key task_dir. */
  datatype Task = Task(
    runId: int,
    status: int,
    tryCount: nat,
    nodeName: Option<string>,
    externalId: Option<string>,
    groupNumber: int)

  /** A row of RUNS. */
  datatype Run = Run(runId: int, runDir: string, name: string, configPath: string, parameters: string)

  /** What find_tasks_by_status returns per task: (run_id, task_dir, group_number). */
  datatype TaskRow = TaskRow(runId: int, taskDir: string, groupNumber: int)

  /** The contents of the store: the task table in insertion order and the run table. */
  datatype Ledger = Ledger(tasks: map<string, Task>, order: seq<string>, runs: seq<Run>)

  /** The warning logged when an update names a task_dir the table does not have. */
  datatype Warning = NoRecord(call: string, taskDir: string)

  ghost predicate Distinct(keys: seq<string>) {
    forall i, j :: 0 <= i < j < |keys| ==> keys[i] != keys[j]
  }

  /**
   * The table invariants: the insertion order lists every task_dir exactly
   * once, run_id is the AUTOINCREMENT key (1, 2, ... in insertion order) and
   * every task belongs to a registered run.
   */
  ghost predicate WellFormed(l: Ledger) {
    && (forall k :: k in l.tasks <==> k in l.order)
    && Distinct(l.order)
    && (forall i :: 0 <= i < |l.runs| ==> l.runs[i].runId == i + 1)
    && (forall k :: k in l.tasks ==> 1 <= l.tasks[k].runId <= |l.runs|)
  }

  // ---------------------------------------------------------------------------
  // Single-row and node-wide updates (UPDATE ... WHERE task_dir = ? / node_name = ?)

  /** task_submitted: status SUBMITTED and the backend's job id. */
  function Submitted(tasks: map<string, Task>, taskDir: string, externalId: string): map<string, Task> {
    if taskDir in tasks
    then tasks[taskDir := tasks[taskDir].(status := SUBMITTED, externalId := Some(externalId))]
    else tasks
  }

  /** task_started: one more try, the node running it, status STARTED. */
  function Started(tasks: map<string, Task>, taskDir: string, nodeName: string): map<string, Task> {
    if taskDir in tasks
    then tasks[taskDir := tasks[taskDir].(tryCount := tasks[taskDir].tryCount + 1, nodeName := Some(nodeName), status := STARTED)]
    else tasks
  }

  /** task_failed and task_completed: the status alone. */
  function WithStatus(tasks: map<string, Task>, taskDir: string, status: int): map<string, Task> {
    if taskDir in tasks then tasks[taskDir := tasks[taskDir].(status := status)] else tasks
  }

  /** node_disappeared: every task last run on the node goes back to READY, whatever its status. */
  function NodeReset(tasks: map<string, Task>, nodeName: string): map<string, Task> {
    map k | k in tasks :: if tasks[k].nodeName == Some(nodeName) then tasks[k].(status := READY) else tasks[k]
  }

  /** task_started changes only the named row: one more try, its node, STARTED. */
  lemma StartedTouchesOneRow(tasks: map<string, Task>, taskDir: string, nodeName: string)
    requires taskDir in tasks
    ensures var r := Started(tasks, taskDir, nodeName);
      && r.Keys == tasks.Keys
      && r[taskDir].tryCount == tasks[taskDir].tryCount + 1
      && r[taskDir].status == STARTED && r[taskDir].nodeName == Some(nodeName)
      && r[taskDir].runId == tasks[taskDir].runId
      && r[taskDir].groupNumber == tasks[taskDir].groupNumber
      && r[taskDir].externalId == tasks[taskDir].externalId
      && forall k :: k in tasks && k != taskDir ==> r[k] == tasks[k]
  {
  }

  /** Every single-row update on an unknown task_dir leaves the table as it is. */
  lemma UnknownTaskChangesNothing(tasks: map<string, Task>, taskDir: string, other: string, status: int)
    requires taskDir !in tasks
    ensures Submitted(tasks, taskDir, other) == tasks
    ensures Started(tasks, taskDir, other) == tasks
    ensures WithStatus(tasks, taskDir, status) == tasks
  {
  }

  /** task_failed and task_completed are idempotent: a second call changes nothing. */
  lemma StatusUpdateIdempotent(tasks: map<string, Task>, taskDir: string, status: int)
    ensures WithStatus(WithStatus(tasks, taskDir, status), taskDir, status) == WithStatus(tasks, taskDir, status)
  {
  }

  /** node_disappeared resets exactly the node's tasks to READY and touches nothing else, try counts included. */
  lemma NodeResetEffect(tasks: map<string, Task>, nodeName: string)
    ensures var r := NodeReset(tasks, nodeName);
      && r.Keys == tasks.Keys
      && (forall k :: k in tasks && tasks[k].nodeName == Some(nodeName) ==> r[k] == tasks[k].(status := READY))
      && (forall k :: k in tasks && tasks[k].nodeName != Some(nodeName) ==> r[k] == tasks[k])
      && (forall k :: k in tasks ==> r[k].tryCount == tasks[k].tryCount)
  {
  }

  /** A worker's report, as it arrives over RPC. */
  datatype Report =
    | SubmittedReport(taskDir: string, externalId: string)
    | StartedReport(taskDir: string, nodeName: string)
    | FailedReport(taskDir: string)
    | CompletedReport(taskDir: string)
    | NodeGoneReport(nodeName: string)

  function ApplyReport(tasks: map<string, Task>, r: Report): map<string, Task> {
    match r
    case SubmittedReport(d, e) => Submitted(tasks, d, e)
    case StartedReport(d, n) => Started(tasks, d, n)
    case FailedReport(d) => WithStatus(tasks, d, FAILED)
    case CompletedReport(d) => WithStatus(tasks, d, SUCCESS)
    case NodeGoneReport(n) => NodeReset(tasks, n)
  }

  function ApplyReports(tasks: map<string, Task>, rs: seq<Report>): map<string, Task>
    decreases |rs|
  {
    if rs == [] then tasks else ApplyReports(ApplyReport(tasks, rs[0]), rs[1..])
  }

  /** How many task_started reports in rs name taskDir. */
  function StartsOf(rs: seq<Report>, taskDir: string): nat
    decreases |rs|
  {
    if rs == [] then 0
    else (if rs[0].StartedReport? && rs[0].taskDir == taskDir then 1 else 0) + StartsOf(rs[1..], taskDir)
  }

  /**
   * Over any sequence of worker reports no row is created or lost, and each
   * task's try_count grows by exactly the number of task_started reports for
   * it: it never decreases.
   */
  lemma {:induction false} ReportsCountTries(tasks: map<string, Task>, rs: seq<Report>)
    ensures ApplyReports(tasks, rs).Keys == tasks.Keys
    ensures forall k :: k in tasks ==> ApplyReports(tasks, rs)[k].tryCount == tasks[k].tryCount + StartsOf(rs, k)
    decreases |rs|
  {
    if rs != [] {
      var next := ApplyReport(tasks, rs[0]);
      assert next.Keys == tasks.Keys;
      assert forall k :: k in tasks ==>
        next[k].tryCount == tasks[k].tryCount + (if rs[0].StartedReport? && rs[0].taskDir == k then 1 else 0);
      ReportsCountTries(next, rs[1..]);
    }
  }

  // ---------------------------------------------------------------------------
  // Queries

  function RowOf(tasks: map<string, Task>, k: string): TaskRow
    requires k in tasks
  {
    TaskRow(tasks[k].runId, k, tasks[k].groupNumber)
  }

  /** SELECT run_id, task_dir, group_number FROM tasks WHERE status = ?, scanning keys in order. */
  function Matching(tasks: map<string, Task>, keys: seq<string>, status: int): (rows: seq<TaskRow>)
    ensures |rows| <= |keys|
    ensures forall row :: row in rows ==>
      row.taskDir in keys && row.taskDir in tasks && tasks[row.taskDir].status == status && row == RowOf(tasks, row.taskDir)
  {
    if keys == [] then []
    else
      var k := keys[|keys| - 1];
      Matching(tasks, keys[..|keys| - 1], status) + (if k in tasks && tasks[k].status == status then [RowOf(tasks, k)] else [])
  }

  /** The scan misses no task with the status. */
  lemma {:induction false} MatchingComplete(tasks: map<string, Task>, keys: seq<string>, status: int, k: string)
    requires k in keys && k in tasks && tasks[k].status == status
    ensures RowOf(tasks, k) in Matching(tasks, keys, status)
    decreases |keys|
  {
    var last := keys[|keys| - 1];
    if k != last {
      assert k in keys[..|keys| - 1] by {
        var i :| 0 <= i < |keys| && keys[i] == k;
        assert keys[..|keys| - 1][i] == k;
      }
      MatchingComplete(tasks, keys[..|keys| - 1], status, k);
    }
  }

  /** A task counted by count_unfinished_tasks_by_group_number for run runId and group g. */
  predicate CountsAsUnfinished(t: Task, runId: int, g: int) {
    t.runId == runId && t.groupNumber == g && !IsFinished(t.status)
  }

  /** SELECT count(*) ... WHERE status NOT IN (FAILED, SUCCESS) AND run_id = ?, for one group, over keys. */
  function UnfinishedIn(tasks: map<string, Task>, keys: seq<string>, runId: int, g: int): nat {
    if keys == [] then 0
    else
      var k := keys[|keys| - 1];
      UnfinishedIn(tasks, keys[..|keys| - 1], runId, g) + (if k in tasks && CountsAsUnfinished(tasks[k], runId, g) then 1 else 0)
  }

  /** The GROUP BY form of the same scan: every group with unfinished tasks of the run, with their number. */
  function UnfinishedByGroup(tasks: map<string, Task>, keys: seq<string>, runId: int): map<int, int> {
    if keys == [] then map[]
    else
      var m := UnfinishedByGroup(tasks, keys[..|keys| - 1], runId);
      var k := keys[|keys| - 1];
      if k in tasks && tasks[k].runId == runId && !IsFinished(tasks[k].status) then
        var g := tasks[k].groupNumber;
        m[g := if g in m then m[g] + 1 else 1]
      else m
  }

  /** The grouped counts list exactly the groups with a positive count, each with its count. */
  lemma {:induction false} UnfinishedByGroupCounts(tasks: map<string, Task>, keys: seq<string>, runId: int)
    ensures forall g :: g in UnfinishedByGroup(tasks, keys, runId) <==> UnfinishedIn(tasks, keys, runId, g) > 0
    ensures forall g :: g in UnfinishedByGroup(tasks, keys, runId) ==>
      UnfinishedByGroup(tasks, keys, runId)[g] == UnfinishedIn(tasks, keys, runId, g)
    decreases |keys|
  {
    if keys != [] {
      UnfinishedByGroupCounts(tasks, keys[..|keys| - 1], runId);
    }
  }

  /** The unfinished tasks of a run in one group. */
  ghost function UnfinishedSet(tasks: map<string, Task>, runId: int, g: int): set<string> {
    set k | k in tasks && CountsAsUnfinished(tasks[k], runId, g)
  }

  /** Over distinct keys, the count is the number of unfinished tasks among them. */
  lemma {:induction false} UnfinishedInCounts(tasks: map<string, Task>, keys: seq<string>, runId: int, g: int)
    requires Distinct(keys)
    ensures UnfinishedIn(tasks, keys, runId, g)
         == |set k | k in keys && k in tasks && CountsAsUnfinished(tasks[k], runId, g)|
    decreases |keys|
  {
    var s := set k | k in keys && k in tasks && CountsAsUnfinished(tasks[k], runId, g);
    if keys != [] {
      var front := keys[..|keys| - 1];
      var last := keys[|keys| - 1];
      var s0 := set k | k in front && k in tasks && CountsAsUnfinished(tasks[k], runId, g);
      UnfinishedInCounts(tasks, front, runId, g);
      assert keys == front + [last];
      assert forall i :: 0 <= i < |front| ==> front[i] == keys[i];
      if last in tasks && CountsAsUnfinished(tasks[last], runId, g) {
        assert s == s0 + {last};
      } else {
        assert s == s0;
      }
    }
  }

  /** On a well-formed ledger the scan counts every unfinished task of the run in the group, each once. */
  lemma UnfinishedInIsCount(l: Ledger, runId: int, g: int)
    requires WellFormed(l)
    ensures UnfinishedIn(l.tasks, l.order, runId, g) == |UnfinishedSet(l.tasks, runId, g)|
  {
    UnfinishedInCounts(l.tasks, l.order, runId, g);
    assert (set k | k in l.order && k in l.tasks && CountsAsUnfinished(l.tasks[k], runId, g)) == UnfinishedSet(l.tasks, runId, g);
  }

  /** SELECT run_id FROM RUNS WHERE run_dir = ?, first row: the earliest run registered under dir. */
  function FirstRunIndex(runs: seq<Run>, dir: string): (r: Option<nat>)
    ensures r.None? <==> forall i :: 0 <= i < |runs| ==> runs[i].runDir != dir
    ensures r.Some? ==> (r.value < |runs| && runs[r.value].runDir == dir
      && forall j :: 0 <= j < r.value ==> runs[j].runDir != dir)
  {
    if runs == [] then None
    else if runs[0].runDir == dir then Some(0)
    else
      match FirstRunIndex(runs[1..], dir)
      case None => None
      case Some(i) => Some(i + 1)
  }

  // ---------------------------------------------------------------------------
  // taskset_created: parsing the task definition file

  /** One line of a task definition file: "<group> <task_dir>". */
  datatype Entry = Entry(group: int, dir: string)

  datatype LineParse = Blank | Parsed(entry: Entry) | Malformed

  /**
   * One line: strip it; skip it if empty; otherwise it must split on " " into
   * exactly two fields and the first must be an integer.
   */
  function ParseLine(line: string): LineParse {
    var t := Strip(line);
    if t == [] then Blank
    else
      var fields := Split(t, ' ');
      if |fields| != 2 then Malformed
      else match ParseInt(fields[0])
        case None => Malformed
        case Some(g) => Parsed(Entry(g, fields[1]))
  }

  /** Either the entries of all lines in order, or the index of the first line that raised ValueError. */
  datatype ParseResult = ParseOk(entries: seq<Entry>) | ParseError(line: nat)

  /** The per-line results of a file, in order. */
  function ParseLines(lines: seq<string>): seq<LineParse> {
    seq(|lines|, j requires 0 <= j < |lines| => ParseLine(lines[j]))
  }

  /** The reading loop over per-line results: it stops at the first malformed line and skips blank ones. */
  function Collect(ps: seq<LineParse>): ParseResult {
    if ps == [] then ParseOk([])
    else
      match Collect(ps[..|ps| - 1])
      case ParseError(i) => ParseError(i)
      case ParseOk(es) =>
        match ps[|ps| - 1]
        case Blank => ParseOk(es)
        case Parsed(e) => ParseOk(es + [e])
        case Malformed => ParseError(|ps| - 1)
  }

  /** Reading a whole task definition file. */
  function ParseAll(lines: seq<string>): ParseResult {
    Collect(ParseLines(lines))
  }

  /** A line is skipped exactly when it is all whitespace. */
  lemma BlankLines(line: string)
    ensures ParseLine(line) == Blank <==> forall i :: 0 <= i < |line| ==> IsSpace(line[i])
  {
    StripEmptyIffBlank(line);
  }

  /** A line that parses is, once stripped, the group's digits, one space, and a task_dir without spaces. */
  lemma ParsedLineShape(line: string)
    requires ParseLine(line).Parsed?
    ensures var e := ParseLine(line).entry;
      exists field :: Strip(line) == field + " " + e.dir && ParseInt(field) == Some(e.group)
        && ' ' !in field && ' ' !in e.dir
  {
    var t := Strip(line);
    var fields := Split(t, ' ');
    SplitJoin(t, ' ');
    assert JoinWith(fields[1..], ' ') == fields[1];
    assert t == fields[0] + " " + fields[1];
  }

  /** str(n) is never empty, starts with a digit or '-', and holds no space. */
  lemma ShowIntShape(n: int)
    ensures ShowInt(n) != [] && !IsSpace(ShowInt(n)[0]) && ' ' !in ShowInt(n)
  {
    var d := ShowNat(if n < 0 then -n else n);
    assert forall i :: 0 <= i < |d| ==> d[i] != ' ';
    if n < 0 {
      assert ShowInt(n) == ['-'] + d;
    }
  }

  /** str(group) + " " + task_dir */
  function FormatLine(e: Entry): string {
    ShowInt(e.group) + " " + e.dir
  }

  /** Writing an entry as a definition line and parsing it back gives the entry, for any task_dir the format can carry. */
  lemma FormatLineParses(e: Entry)
    requires e.dir != [] && ' ' !in e.dir && !IsSpace(e.dir[|e.dir| - 1])
    ensures ParseLine(FormatLine(e)) == Parsed(e)
  {
    var head := ShowInt(e.group);
    ShowIntShape(e.group);
    var line := head + [' '] + e.dir;
    assert line == FormatLine(e);
    assert line[0] == head[0];
    assert line[|line| - 1] == e.dir[|e.dir| - 1];
    StripKeeps(line);
    assert Split(line, ' ') == [head, e.dir] by {
      SplitPrefix(head, ' ', e.dir);
      NoSeparatorOneField(e.dir, ' ');
    }
    ShowIntParses(e.group);
  }

  /** Reading succeeds exactly when no line is malformed. */
  lemma {:induction false} CollectOkIff(ps: seq<LineParse>)
    ensures Collect(ps).ParseOk? <==> forall j :: 0 <= j < |ps| ==> !ps[j].Malformed?
    decreases |ps|
  {
    if ps != [] {
      var front := ps[..|ps| - 1];
      CollectOkIff(front);
      assert forall j :: 0 <= j < |front| ==> front[j] == ps[j];
    }
  }

  /** A failed read names the first malformed line. */
  lemma {:induction false} CollectErrorIsFirst(ps: seq<LineParse>)
    requires Collect(ps).ParseError?
    ensures Collect(ps).line < |ps| && ps[Collect(ps).line].Malformed?
    ensures forall j :: 0 <= j < Collect(ps).line ==> !ps[j].Malformed?
    decreases |ps|
  {
    var front := ps[..|ps| - 1];
    assert forall j :: 0 <= j < |front| ==> front[j] == ps[j];
    if Collect(front).ParseError? {
      CollectErrorIsFirst(front);
    } else {
      CollectOkIff(front);
    }
  }

  /** Every entry read comes from a line that parses to it. */
  lemma {:induction false} CollectSound(ps: seq<LineParse>)
    requires Collect(ps).ParseOk?
    ensures forall e :: e in Collect(ps).entries ==> Parsed(e) in ps
    decreases |ps|
  {
    if ps != [] {
      var front := ps[..|ps| - 1];
      CollectSound(front);
      assert forall x :: x in front ==> x in ps;
    }
  }

  /** Every line that parses contributes its entry, and blank lines contribute nothing. */
  lemma {:induction false} CollectComplete(ps: seq<LineParse>)
    requires Collect(ps).ParseOk?
    ensures forall j :: 0 <= j < |ps| && ps[j].Parsed? ==> ps[j].entry in Collect(ps).entries
    ensures |Collect(ps).entries| == |ps| - Blanks(ps)
    decreases |ps|
  {
    if ps != [] {
      var front := ps[..|ps| - 1];
      CollectComplete(front);
      assert forall j :: 0 <= j < |front| ==> front[j] == ps[j];
    }
  }

  /** The number of blank lines. */
  function Blanks(ps: seq<LineParse>): (n: nat)
    ensures n <= |ps|
  {
    if ps == [] then 0 else Blanks(ps[..|ps| - 1]) + (if ps[|ps| - 1].Blank? then 1 else 0)
  }

  /** Once a line has failed to parse, later lines do not matter. */
  lemma {:induction false} CollectErrorSticks(ps: seq<LineParse>, i: nat)
    requires i <= |ps|
    requires Collect(ps[..i]).ParseError?
    ensures Collect(ps) == Collect(ps[..i])
    decreases |ps|
  {
    if i < |ps| {
      var front := ps[..|ps| - 1];
      assert front[..i] == ps[..i];
      CollectErrorSticks(front, i);
    } else {
      assert ps[..i] == ps;
    }
  }

  // ---------------------------------------------------------------------------
  // taskset_created: inserting the rows

  /** A freshly registered task: CREATED, never tried, on no node, without a job id. */
  function NewTask(runId: int, group: int): Task {
    Task(runId, CREATED, 0, None, None, group)
  }

  /** The smallest and largest values of a 64-bit SQLite INTEGER. */
  const MinInt64: int := -0x8000_0000_0000_0000
  const MaxInt64: int := 0x7FFF_FFFF_FFFF_FFFF

  /** A group number the sqlite3 module can bind as an INTEGER parameter. */
  predicate FitsInteger(g: int) {
    MinInt64 <= g <= MaxInt64
  }

  /** The task table after the INSERTs, and why the INSERT loop stopped early, if it did. */
  datatype Insertion = Insertion(tasks: map<string, Task>, order: seq<string>, failure: Option<Failure>)

  /**
   * One INSERT per entry, in order, under task_dir = join(run_dir, dir). An
   * INSERT raises and stops the loop when the group does not fit a 64-bit
   * INTEGER (OverflowError while binding, before SQLite sees the row) or when
   * the task_dir is already in the table (IntegrityError); the rows inserted
   * before it stay, because the transaction commits on exit even when an
   * exception leaves the block.
   */
  function InsertEntries(tasks: map<string, Task>, order: seq<string>, runId: int, runDir: string, entries: seq<Entry>): Insertion {
    if entries == [] then Insertion(tasks, order, None)
    else
      var prev := InsertEntries(tasks, order, runId, runDir, entries[..|entries| - 1]);
      if prev.failure.Some? then prev
      else
        var e := entries[|entries| - 1];
        var key := PathJoin(runDir, e.dir);
        if !FitsInteger(e.group) then prev.(failure := Some(GroupTooLarge(e.group)))
        else if key in prev.tasks then prev.(failure := Some(DuplicateTask(key)))
        else Insertion(prev.tasks[key := NewTask(runId, e.group)], prev.order + [key], None)
  }

  /** Once an INSERT has failed, later entries are not inserted. */
  lemma {:induction false} FailedInsertStops(tasks: map<string, Task>, order: seq<string>, runId: int, runDir: string, entries: seq<Entry>, i: nat)
    requires i <= |entries|
    requires InsertEntries(tasks, order, runId, runDir, entries[..i]).failure.Some?
    ensures InsertEntries(tasks, order, runId, runDir, entries) == InsertEntries(tasks, order, runId, runDir, entries[..i])
    decreases |entries|
  {
    if i < |entries| {
      var front := entries[..|entries| - 1];
      assert front[..i] == entries[..i];
      FailedInsertStops(tasks, order, runId, runDir, front, i);
    } else {
      assert entries[..i] == entries;
    }
  }
  /** The INSERT of the next entry, after INSERTs that all succeeded. */
  lemma InsertNext(tasks: map<string, Task>, order: seq<string>, runId: int, runDir: string, entries: seq<Entry>, i: nat)
    requires i < |entries|
    requires InsertEntries(tasks, order, runId, runDir, entries[..i]).failure.None?
    ensures var prev := InsertEntries(tasks, order, runId, runDir, entries[..i]);
      var e := entries[i];
      var key := PathJoin(runDir, e.dir);
      InsertEntries(tasks, order, runId, runDir, entries[..i + 1]) ==
        if !FitsInteger(e.group) then prev.(failure := Some(GroupTooLarge(e.group)))
        else if key in prev.tasks then prev.(failure := Some(DuplicateTask(key)))
        else Insertion(prev.tasks[key := NewTask(runId, e.group)], prev.order + [key], None)
  {
    assert entries[..i + 1][..i] == entries[..i];
  }

  /** Listing a key not yet listed keeps the listing duplicate-free. */
  lemma AppendKeepsDistinct(order: seq<string>, key: string)
    requires Distinct(order) && key !in order
    ensures Distinct(order + [key])
  {
    var o := order + [key];
    forall i, j | 0 <= i < j < |o| ensures o[i] != o[j] {
      assert o[i] == order[i];
      if j < |order| { assert o[j] == order[j]; }
    }
  }

  /** The INSERT loop keeps the order a duplicate-free listing of the keys, and only appends to it. */
  lemma {:induction false} InsertKeepsListing(tasks: map<string, Task>, order: seq<string>, runId: int, runDir: string, entries: seq<Entry>)
    requires (forall k :: k in tasks <==> k in order) && Distinct(order)
    ensures var r := InsertEntries(tasks, order, runId, runDir, entries);
      && (forall k :: k in r.tasks <==> k in r.order)
      && Distinct(r.order)
      && |order| <= |r.order| && r.order[..|order|] == order
    decreases |entries|
  {
    if entries != [] {
      var front := entries[..|entries| - 1];
      InsertKeepsListing(tasks, order, runId, runDir, front);
      var prev := InsertEntries(tasks, order, runId, runDir, front);
      var key := PathJoin(runDir, entries[|entries| - 1].dir);
      if prev.failure.None? && FitsInteger(entries[|entries| - 1].group) && key !in prev.tasks {
        AppendKeepsDistinct(prev.order, key);
        assert (prev.order + [key])[..|order|] == prev.order[..|order|];
      }
    }
  }

  /** The INSERT loop never changes an existing row; each new row is the fresh task of an entry whose joined path is its key. */
  lemma {:induction false} InsertAddsFreshTasks(tasks: map<string, Task>, order: seq<string>, runId: int, runDir: string, entries: seq<Entry>)
    ensures var r := InsertEntries(tasks, order, runId, runDir, entries);
      && (forall k :: k in tasks ==> k in r.tasks && r.tasks[k] == tasks[k])
      && (forall k :: k in r.tasks && k !in tasks ==>
            exists e :: e in entries && k == PathJoin(runDir, e.dir) && r.tasks[k] == NewTask(runId, e.group))
    decreases |entries|
  {
    if entries != [] {
      var front := entries[..|entries| - 1];
      InsertAddsFreshTasks(tasks, order, runId, runDir, front);
      assert forall x :: x in front ==> x in entries;
      assert entries[|entries| - 1] in entries;
    }
  }

  /**
   * When no INSERT failed every entry has its row, every group fits a 64-bit
   * INTEGER and the order grew by one key per entry; a failed INSERT names a
   * key the table already holds or a group of the file that does not fit.
   */
  lemma {:induction false} InsertCoversEntries(tasks: map<string, Task>, order: seq<string>, runId: int, runDir: string, entries: seq<Entry>)
    ensures var r := InsertEntries(tasks, order, runId, runDir, entries);
      && (r.failure.Some? ==> r.failure.value.DuplicateTask? || r.failure.value.GroupTooLarge?)
      && (r.failure.Some? && r.failure.value.DuplicateTask? ==> r.failure.value.taskDir in r.tasks)
      && (r.failure.Some? && r.failure.value.GroupTooLarge? ==>
            !FitsInteger(r.failure.value.group) && exists e :: e in entries && e.group == r.failure.value.group)
      && (r.failure.None? ==> |r.order| == |order| + |entries|)
      && (r.failure.None? ==> forall e :: e in entries ==> PathJoin(runDir, e.dir) in r.tasks && FitsInteger(e.group))
    decreases |entries|
  {
    if entries != [] {
      var front := entries[..|entries| - 1];
      InsertCoversEntries(tasks, order, runId, runDir, front);
      assert entries == front + [entries[|entries| - 1]];
      assert forall e :: e in front ==> e in entries;
    }
  }

  /** Why taskset_created raised. */
  datatype Failure =
    | MalformedLine(line: nat)       // ValueError while parsing the file
    | UnknownRunDir                  // IndexError: no run has this run_dir
    | DuplicateTask(taskDir: string) // IntegrityError: the task_dir is already a key
    | GroupTooLarge(group: int)      // OverflowError: the group does not fit a 64-bit INTEGER

  datatype Outcome = Ok | Err(failure: Failure)

  /** The store's contents and the call's outcome after taskset_created. */
  datatype Applied = Applied(ledger: Ledger, outcome: Outcome)

  /** taskset_created(run_dir, path) on the lines of the file at path. */
  function TasksetCreatedSpec(l: Ledger, runDir: string, lines: seq<string>): Applied {
    match ParseAll(lines)
    case ParseError(i) => Applied(l, Err(MalformedLine(i)))
    case ParseOk(entries) =>
      match FirstRunIndex(l.runs, runDir)
      case None => Applied(l, Err(UnknownRunDir))
      case Some(i) =>
        var ins := InsertEntries(l.tasks, l.order, l.runs[i].runId, runDir, entries);
        Applied(l.(tasks := ins.tasks, order := ins.order),
                if ins.failure.None? then Ok else Err(ins.failure.value))
  }

  /**
   * taskset_created keeps the ledger well formed and never changes the runs
   * or an existing task; a malformed line or an unknown run_dir changes
   * nothing at all.
   */
  lemma TasksetCreatedKeepsLedger(l: Ledger, runDir: string, lines: seq<string>)
    requires WellFormed(l)
    ensures var a := TasksetCreatedSpec(l, runDir, lines);
      && WellFormed(a.ledger)
      && a.ledger.runs == l.runs
      && (forall k :: k in l.tasks ==> k in a.ledger.tasks && a.ledger.tasks[k] == l.tasks[k])
      && (ParseAll(lines).ParseError? || FirstRunIndex(l.runs, runDir).None? ==> a.ledger == l && a.outcome.Err?)
  {
    match ParseAll(lines)
    case ParseError(_) =>
    case ParseOk(entries) =>
      match FirstRunIndex(l.runs, runDir)
      case None =>
      case Some(i) =>
        var runId := l.runs[i].runId;
        InsertKeepsListing(l.tasks, l.order, runId, runDir, entries);
        InsertAddsFreshTasks(l.tasks, l.order, runId, runDir, entries);
  }

  /**
   * Each task taskset_created adds is CREATED with try_count 0, sits under
   * join(run_dir, dir) for one of the file's entries, has that entry's group,
   * and belongs to the first run registered under run_dir.
   */
  lemma TasksetCreatedNewTasks(l: Ledger, runDir: string, lines: seq<string>, k: string)
    requires k in TasksetCreatedSpec(l, runDir, lines).ledger.tasks && k !in l.tasks
    ensures ParseAll(lines).ParseOk? && FirstRunIndex(l.runs, runDir).Some?
    ensures var run := l.runs[FirstRunIndex(l.runs, runDir).value];
      && run.runDir == runDir
      && exists e :: e in ParseAll(lines).entries && k == PathJoin(runDir, e.dir)
           && TasksetCreatedSpec(l, runDir, lines).ledger.tasks[k] == NewTask(run.runId, e.group)
  {
    var entries := ParseAll(lines).entries;
    var i := FirstRunIndex(l.runs, runDir).value;
    InsertAddsFreshTasks(l.tasks, l.order, l.runs[i].runId, runDir, entries);
  }

  /** When taskset_created succeeds, every entry of the file has its task. */
  lemma TasksetCreatedCoversFile(l: Ledger, runDir: string, lines: seq<string>)
    requires TasksetCreatedSpec(l, runDir, lines).outcome == Ok
    ensures ParseAll(lines).ParseOk?
    ensures forall e :: e in ParseAll(lines).entries ==> PathJoin(runDir, e.dir) in TasksetCreatedSpec(l, runDir, lines).ledger.tasks
  {
    var entries := ParseAll(lines).entries;
    var i := FirstRunIndex(l.runs, runDir).value;
    InsertCoversEntries(l.tasks, l.order, l.runs[i].runId, runDir, entries);
  }
  // ---------------------------------------------------------------------------
  // The store

  class TaskStore {
    var tasks: map<string, Task>
    var order: seq<string>
    var runs: seq<Run>
    var warnings: seq<Warning>

    function State(): Ledger
      reads this
    {
      Ledger(tasks, order, runs)
    }

    ghost predicate Valid()
      reads this
    {
      WellFormed(State())
    }

    /** A store on a fresh database file: empty tables. */
    constructor ()
      ensures Valid()
      ensures tasks == map[] && order == [] && runs == [] && warnings == []
    {
      tasks, order, runs, warnings := map[], [], [], [];
    }

    /** get_version: the protocol version string. */
    function GetVersion(): string {
      "1"
    }

    /**
     * run_created: its first argument, though named run_id, is stored as
     * run_dir; the run_id is the next AUTOINCREMENT value.
     */
    method RunCreated(runDir: string, name: string, configPath: string, parameters: string) returns (ok: bool)
      requires Valid()
      modifies this
      ensures Valid() && ok
      ensures runs == old(runs) + [Run(|old(runs)| + 1, runDir, name, configPath, parameters)]
      ensures tasks == old(tasks) && order == old(order) && warnings == old(warnings)
    {
      runs := runs + [Run(|runs| + 1, runDir, name, configPath, parameters)];
      ok := true;
    }

    /** The loop that reads the definition file into (group, task_dir) pairs. */
    static method ParseTaskDefinition(lines: seq<string>) returns (r: ParseResult)
      ensures r == ParseAll(lines)
    {
      ghost var ps := ParseLines(lines);
      var entries: seq<Entry> := [];
      var i := 0;
      while i < |lines|
        invariant 0 <= i <= |lines|
        invariant Collect(ps[..i]) == ParseOk(entries)
      {
        assert ps[..i + 1][..i] == ps[..i];
        var parsed := ParseLine(lines[i]);
        assert ps[i] == parsed;
        if parsed.Malformed? {
          CollectErrorSticks(ps, i + 1);
          return ParseError(i);
        } else if parsed.Parsed? {
          entries := entries + [parsed.entry];
        }
        i := i + 1;
      }
      assert ps[..i] == ps;
      r := ParseOk(entries);
    }

    /** taskset_created(run_dir, task_definition_path), given the file's lines. */
    method TasksetCreated(runDir: string, lines: seq<string>) returns (r: Outcome)
      requires Valid()
      modifies this
      ensures Valid()
      ensures Applied(State(), r) == TasksetCreatedSpec(old(State()), runDir, lines)
      ensures warnings == old(warnings)
    {
      TasksetCreatedKeepsLedger(State(), runDir, lines);
      var parsed := ParseTaskDefinition(lines);
      if parsed.ParseError? {
        return Err(MalformedLine(parsed.line));
      }
      var found := FirstRunIndex(runs, runDir);
      if found.None? {
        return Err(UnknownRunDir);
      }
      var runId := runs[found.value].runId;
      var entries := parsed.entries;
      var i := 0;
      while i < |entries|
        invariant 0 <= i <= |entries|
        invariant runs == old(runs) && warnings == old(warnings)
        invariant InsertEntries(old(tasks), old(order), runId, runDir, entries[..i]) == Insertion(tasks, order, None)
      {
        InsertNext(old(tasks), old(order), runId, runDir, entries, i);
        var key := PathJoin(runDir, entries[i].dir);
        if !FitsInteger(entries[i].group) {
          FailedInsertStops(old(tasks), old(order), runId, runDir, entries, i + 1);
          assert entries[..|entries|] == entries;
          return Err(GroupTooLarge(entries[i].group));
        }
        if key in tasks {
          FailedInsertStops(old(tasks), old(order), runId, runDir, entries, i + 1);
          assert entries[..|entries|] == entries;
          return Err(DuplicateTask(key));
        }
        tasks := tasks[key := NewTask(runId, entries[i].group)];
        order := order + [key];
        i := i + 1;
      }
      assert entries[..i] == entries;
      r := Ok;
    }

    /** task_submitted: status SUBMITTED and external_id; a warning and no change for an unknown task_dir. */
    method TaskSubmitted(taskDir: string, externalId: string) returns (ok: bool)
      requires Valid()
      modifies this
      ensures Valid() && ok
      ensures tasks == Submitted(old(tasks), taskDir, externalId)
      ensures order == old(order) && runs == old(runs)
      ensures warnings == old(warnings) + (if taskDir in old(tasks) then [] else [NoRecord("task_submitted", taskDir)])
    {
      if taskDir in tasks {
        tasks := tasks[taskDir := tasks[taskDir].(status := SUBMITTED, externalId := Some(externalId))];
      } else {
        warnings := warnings + [NoRecord("task_submitted", taskDir)];
      }
      ok := true;
    }

    /** task_started: try_count + 1, node_name and status STARTED; a warning and no change for an unknown task_dir. */
    method TaskStarted(taskDir: string, nodeName: string) returns (ok: bool)
      requires Valid()
      modifies this
      ensures Valid() && ok
      ensures tasks == Started(old(tasks), taskDir, nodeName)
      ensures order == old(order) && runs == old(runs)
      ensures warnings == old(warnings) + (if taskDir in old(tasks) then [] else [NoRecord("task_started", taskDir)])
    {
      if taskDir in tasks {
        var t := tasks[taskDir];
        tasks := tasks[taskDir := t.(tryCount := t.tryCount + 1, nodeName := Some(nodeName), status := STARTED)];
      } else {
        warnings := warnings + [NoRecord("task_started", taskDir)];
      }
      ok := true;
    }

    /** task_failed: status FAILED; a warning and no change for an unknown task_dir. */
    method TaskFailed(taskDir: string) returns (ok: bool)
      requires Valid()
      modifies this
      ensures Valid() && ok
      ensures tasks == WithStatus(old(tasks), taskDir, FAILED)
      ensures order == old(order) && runs == old(runs)
      ensures warnings == old(warnings) + (if taskDir in old(tasks) then [] else [NoRecord("task_failed", taskDir)])
    {
      if taskDir in tasks {
        tasks := tasks[taskDir := tasks[taskDir].(status := FAILED)];
      } else {
        warnings := warnings + [NoRecord("task_failed", taskDir)];
      }
      ok := true;
    }

    /** task_completed: status SUCCESS; a warning and no change for an unknown task_dir. */
    method TaskCompleted(taskDir: string) returns (ok: bool)
      requires Valid()
      modifies this
      ensures Valid() && ok
      ensures tasks == WithStatus(old(tasks), taskDir, SUCCESS)
      ensures order == old(order) && runs == old(runs)
      ensures warnings == old(warnings) + (if taskDir in old(tasks) then [] else [NoRecord("task_completed", taskDir)])
    {
      if taskDir in tasks {
        tasks := tasks[taskDir := tasks[taskDir].(status := SUCCESS)];
      } else {
        warnings := warnings + [NoRecord("task_completed", taskDir)];
      }
      ok := true;
    }

    /** node_disappeared: every task whose node_name is the node goes to READY. */
    method NodeDisappeared(nodeName: string) returns (ok: bool)
      requires Valid()
      modifies this
      ensures Valid() && ok
      ensures tasks == NodeReset(old(tasks), nodeName)
      ensures order == old(order) && runs == old(runs) && warnings == old(warnings)
    {
      tasks := map k | k in tasks :: if tasks[k].nodeName == Some(nodeName) then tasks[k].(status := READY) else tasks[k];
      ok := true;
    }

    /**
     * find_tasks_by_status(status, limit): no rows for limit 0; otherwise the
     * matching rows in table order, the first `limit` of them for a positive
     * limit and all of them for None or a negative limit (SQLite reads a
     * negative LIMIT as no limit).
     */
    function FindTasksByStatus(status: int, limit: Option<int>): (r: seq<TaskRow>)
      reads this
      ensures forall row :: row in r ==> row.taskDir in tasks && tasks[row.taskDir].status == status && row == RowOf(tasks, row.taskDir)
      ensures limit == Some(0) ==> r == []
      ensures limit.Some? && limit.value > 0 ==>
        |r| == (if limit.value < |Matching(tasks, order, status)| then limit.value else |Matching(tasks, order, status)|)
      ensures limit.None? || limit.value < 0 ==> r == Matching(tasks, order, status)
      ensures |r| <= |Matching(tasks, order, status)| && r == Matching(tasks, order, status)[..|r|]
    {
      var all := Matching(tasks, order, status);
      if limit == Some(0) then []
      else if limit.Some? && 0 < limit.value < |all| then
        assert forall row :: row in all[..limit.value] ==> row in all;
        all[..limit.value]
      else all
    }

    /**
     * count_unfinished_tasks_by_group_number(run_id): for each group, the
     * number of the run's tasks neither FAILED nor SUCCESS; groups without
     * such tasks are absent.
     */
    method CountUnfinishedTasksByGroupNumber(runId: int) returns (counts: map<int, int>)
      requires Valid()
      ensures forall g :: g in counts <==> UnfinishedIn(tasks, order, runId, g) > 0
      ensures forall g :: g in counts ==> counts[g] == UnfinishedIn(tasks, order, runId, g)
    {
      counts := map[];
      var i := 0;
      while i < |order|
        invariant 0 <= i <= |order|
        invariant forall g :: g in counts <==> UnfinishedIn(tasks, order[..i], runId, g) > 0
        invariant forall g :: g in counts ==> counts[g] == UnfinishedIn(tasks, order[..i], runId, g)
      {
        assert order[..i + 1][..i] == order[..i];
        var t := tasks[order[i]];
        if t.runId == runId && !IsFinished(t.status) {
          var g := t.groupNumber;
          counts := counts[g := if g in counts then counts[g] + 1 else 1];
        }
        i := i + 1;
      }
      assert order[..i] == order;
    }

    /** get_config_path(run_id): (run_dir, flock_config_path), or None where Python raises IndexError. */
    function GetConfigPath(runId: int): (r: Option<(string, string)>)
      reads this
      requires Valid()
      ensures r.Some? <==> exists i :: 0 <= i < |runs| && runs[i].runId == runId
      ensures forall i :: 0 <= i < |runs| && runs[i].runId == runId ==> r == Some((runs[i].runDir, runs[i].configPath))
    {
      if 1 <= runId <= |runs| then
        assert runs[runId - 1].runId == runId;
        Some((runs[runId - 1].runDir, runs[runId - 1].configPath))
      else None
    }
  }
}
