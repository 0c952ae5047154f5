/**
 The import worker over its store: any number of process lives, each of which may end in the
 middle of a file, and the documents they leave.
 */
module ImportWorker {
  import opened Wrappers
  import opened CorpusImport

  function Files(tasks: seq<Task>): seq<File> {
    Map((t: Task) => t.file, tasks)
  }

  /** The rows of all files, in the order in which their tasks were created. */
  function AllRows(files: seq<File>): seq<Row> {
    if files == [] then [] else AllRows(files[..|files| - 1]) + RowsOf(files[|files| - 1])
  }

  /** Where the rows of the i-th file begin. */
  function Start(files: seq<File>, i: nat): nat
    requires i <= |files|
  {
    |AllRows(files[..i])|
  }

  lemma {:induction false} AllRowsStep(files: seq<File>, i: nat)
    requires i < |files|
    ensures AllRows(files[..i + 1]) == AllRows(files[..i]) + RowsOf(files[i])
  {
    assert files[..i + 1][..i] == files[..i];
  }

  lemma {:induction false} AllRowsBegin(files: seq<File>, i: nat)
    requires i <= |files|
    ensures AllRows(files[..i]) <= AllRows(files)
  {
    if i < |files| {
      var init := files[..|files| - 1];
      AllRowsBegin(init, i);
      assert init[..i] == files[..i];
    } else {
      assert files[..i] == files;
    }
  }

  lemma {:induction false} SliceBehind(a: seq<Row>, b: seq<Row>, all: seq<Row>)
    requires a + b <= all
    ensures |a| + |b| <= |all| && all[|a|..|a| + |b|] == b
  {
  }

  lemma {:induction false} RowsOfFile(files: seq<File>, i: nat)
    requires i < |files|
    ensures Start(files, i) + |RowsOf(files[i])| == Start(files, i + 1) <= |AllRows(files)|
    ensures AllRows(files)[Start(files, i)..Start(files, i + 1)] == RowsOf(files[i])
  {
    AllRowsStep(files, i);
    AllRowsBegin(files, i + 1);
    SliceBehind(AllRows(files[..i]), RowsOf(files[i]), AllRows(files));
  }

  lemma {:induction false} StartsAscend(files: seq<File>, i: nat, j: nat)
    requires i <= j <= |files|
    ensures Start(files, i) <= Start(files, j)
    decreases j
  {
    if i < j {
      RowsOfFile(files, j - 1);
      StartsAscend(files, i, j - 1);
    }
  }

  lemma StartOfAll(files: seq<File>)
    ensures Start(files, |files|) == |AllRows(files)|
  {
    assert files[..|files|] == files;
  }

  /**
   The documents are those of a single import of the first `rows` rows of everything; from the
   `next` file on nothing is finished, and a finished file has all its rows imported.
   */
  ghost predicate Reached(first: seq<Doc>, docs: seq<Doc>, tasks: seq<Task>, next: nat, rows: nat) {
    var files := Files(tasks);
    && next <= |tasks|
    && Start(files, next) <= rows <= |AllRows(files)|
    && docs == Imported(first, AllRows(files)[..rows])
    && Marked(files, tasks, next, rows)
  }

  ghost predicate Marked(files: seq<File>, tasks: seq<Task>, next: nat, rows: nat)
    requires |files| == |tasks|
  {
    && (forall i :: next <= i < |tasks| ==> !tasks[i].Finished())
    && (forall i :: 0 <= i < |tasks| && tasks[i].Finished() ==> Start(files, i + 1) <= rows)
  }

  ghost predicate Sound(first: seq<Doc>, docs: seq<Doc>, tasks: seq<Task>) {
    exists next, rows :: Reached(first, docs, tasks, next, rows)
  }

  predicate AllFinished(tasks: seq<Task>) {
    forall i :: 0 <= i < |tasks| ==> tasks[i].Finished()
  }

  /** No task is under way. */
  predicate Idle(tasks: seq<Task>) {
    forall i :: 0 <= i < |tasks| ==> tasks[i].status != Processing
  }

  /**
   Every finished task's report accounts for each of its rows. It succeeded exactly when its file was
   empty, or had a proper head and was read to its end.
   */
  ghost predicate Accounted(tasks: seq<Task>) {
    forall i :: 0 <= i < |tasks| && tasks[i].Finished() ==>
      var r := tasks[i].report;
      r.total == |RowsOf(tasks[i].file)| == r.success + r.failed + r.skipped &&
      |r.errors| == Min(MAX_ERRORS, r.failed + r.skipped) &&
      (tasks[i].status.Succeeded? <==>
        tasks[i].file.head.NoHead? || (Readable(tasks[i].file) && !tasks[i].file.broken))
  }

  /** Once every task is finished, the documents are those of one uninterrupted import. */
  lemma {:induction false} FinishedIsImported(first: seq<Doc>, docs: seq<Doc>, tasks: seq<Task>)
    requires Sound(first, docs, tasks) && AllFinished(tasks)
    ensures docs == Imported(first, AllRows(Files(tasks)))
  {
    var next: nat, rows: nat :| Reached(first, docs, tasks, next, rows);
    var files := Files(tasks);
    StartOfAll(files);
    if |tasks| > 0 {
      assert tasks[|tasks| - 1].Finished();
    }
    assert AllRows(files)[..rows] == AllRows(files);
  }

  /** How an attempt at a task ends. `Died` is the end of the process. */
  datatype Attempt = Recorded | Unrecorded | Died

  lemma {:induction false} PartOfFile(files: seq<File>, i: nat, upTo: nat)
    requires i < |files| && upTo <= |RowsOf(files[i])|
    ensures Start(files, i) + upTo <= |AllRows(files)|
    ensures AllRows(files)[Start(files, i)..Start(files, i) + upTo] == RowsOf(files[i])[..upTo]
  {
    RowsOfFile(files, i);
    SliceOfSlice(AllRows(files), Start(files, i), Start(files, i + 1), upTo);
  }

  lemma SliceOfSlice<T>(s: seq<T>, from: nat, to: nat, n: nat)
    requires from + n <= to <= |s|
    ensures s[from..to][..n] == s[from..from + n]
  {
  }

  /** The documents after importing some part of the rows, begun before, once more. */
  lemma {:induction false} PartImports(first: seq<Doc>, docs: seq<Doc>, all: seq<Row>, start: nat, rows: nat,
                                       part: seq<Row>, upTo: nat)
    requires start <= rows <= |all| && start + upTo <= |all| && part == all[start..start + upTo]
    requires docs == Imported(first, all[..rows])
    ensures Imported(docs, part) == Imported(first, all[..Max(rows, start + upTo)])
  {
    ImportingAgain(first, all, start, start + upTo, rows);
  }

  lemma {:induction false} BegunBefore(files: seq<File>, next: nat, rows: nat, i: nat, upTo: nat)
    requires i <= next <= |files| && i < |files| && upTo <= |RowsOf(files[i])|
    requires Start(files, next) <= rows <= |AllRows(files)|
    ensures Start(files, i) <= rows && Start(files, i) + upTo <= |AllRows(files)|
  {
    PartOfFile(files, i, upTo);
    StartsAscend(files, i, next);
  }

  /** The documents after an attempt that got some way into a file begun before. */
  lemma {:induction false} AttemptImports(first: seq<Doc>, docs: seq<Doc>, files: seq<File>, next: nat, rows: nat,
                                          i: nat, upTo: nat)
    requires next <= |files| && i < |files| && i <= next && upTo <= |RowsOf(files[i])|
    requires Start(files, next) <= rows <= |AllRows(files)| && docs == Imported(first, AllRows(files)[..rows])
    ensures var rows' := Max(rows, Start(files, i) + upTo);
      && rows' <= |AllRows(files)|
      && Imported(docs, RowsOf(files[i])[..upTo]) == Imported(first, AllRows(files)[..rows'])
  {
    BegunBefore(files, next, rows, i, upTo);
    PartOfFile(files, i, upTo);
    var all, part, start := AllRows(files), RowsOf(files[i])[..upTo], Start(files, i);
    assert part == all[start..start + upTo] && start <= rows;
    PartImports(first, docs, all, start, rows, part, upTo);
  }

  lemma {:induction false} AttemptMarks(files: seq<File>, tasks: seq<Task>, next: nat, rows: nat, i: nat, task: Task,
                                        next': nat, rows': nat)
    requires |files| == |tasks| && i < |tasks| && Marked(files, tasks, next, rows)
    requires next <= next' && rows <= rows' && (i < next' || !task.Finished())
    requires task.Finished() ==> Start(files, i + 1) <= rows'
    ensures Marked(files, tasks[i := task], next', rows')
  {
  }

  /**
   One attempt at the i-th file, begun before, imports its rows up to some point; it is not marked
   finished unless all of them are.
   */
  lemma {:induction false} AttemptKeepsReached(first: seq<Doc>, docs: seq<Doc>, tasks: seq<Task>, next: nat, rows: nat,
                                               i: nat, upTo: nat, task: Task) returns (next': nat, rows': nat)
    requires Reached(first, docs, tasks, next, rows) && i < |tasks| && i <= next
    requires upTo <= |RowsOf(tasks[i].file)| && task.file == tasks[i].file
    requires task.Finished() ==> upTo == |RowsOf(tasks[i].file)|
    ensures Reached(first, Imported(docs, RowsOf(tasks[i].file)[..upTo]), tasks[i := task], next', rows')
    ensures next' == if upTo == |RowsOf(tasks[i].file)| then Max(next, i + 1) else next
  {
    var files := Files(tasks);
    assert Files(tasks[i := task]) == files && files[i] == tasks[i].file;
    AttemptImports(first, docs, files, next, rows, i, upTo);
    RowsOfFile(files, i);
    rows' := Max(rows, Start(files, i) + upTo);
    next' := if upTo == |RowsOf(files[i])| then Max(next, i + 1) else next;
    AttemptMarks(files, tasks, next, rows, i, task, next', rows');
  }

  // ----- The store and the worker -----

  /** Whether the process dies before it is done with `rows` rows. */
  predicate Dies(stop: Option<nat>, rows: nat) {
    stop.Some? && stop.value <= rows
  }

  /** How many rows an attempt gets through. */
  function Through(stop: Option<nat>, rows: nat): nat {
    if Dies(stop, rows) then stop.value else rows
  }

  function HowItEnds(stop: Option<nat>, recorded: bool, rows: nat): Attempt {
    if Dies(stop, rows) then Died else if recorded then Recorded else Unrecorded
  }

  function FinishedTask(task: Task, docs: seq<Doc>, faults: nat -> Fault): Task {
    Task(task.file, EndStatus(task.file), ReportOf(Run(docs, RowsOf(task.file), faults)))
  }

  /** `appendImportError`. */
  function AppendError(errs: seq<Problem>, f: Problem): seq<Problem> {
    var short := f.(reason := Shortened(f.reason));
    if |errs| >= MAX_ERRORS then errs else errs + [short]
  }

  /** The running counters agree with the specification of the rows so far. */
  ghost predicate Counts(p: Progress, docs: seq<Doc>, total: nat, success: nat, failed: nat, skipped: nat,
                         errs: seq<Problem>)
  {
    && docs == p.docs && total == p.total && success == p.success && failed == p.failed && skipped == p.skipped
    && errs == First(MAX_ERRORS, p.problems)
  }

  lemma {:induction false} AppendKeepsFirst(problems: seq<Problem>, f: Problem)
    ensures AppendError(First(MAX_ERRORS, problems), f)
         == First(MAX_ERRORS, problems + [f.(reason := Shortened(f.reason))])
  {
  }

  /** One row further: whatever was counted, its problem is appended if it has one. */
  lemma {:induction false} CountOne(p: Progress, row: Row, fault: Fault, errs: seq<Problem>)
    requires errs == First(MAX_ERRORS, p.problems)
    ensures First(MAX_ERRORS, Step(p, row, fault).problems) ==
      match Judge(p.docs, row, fault)
      case Stored => errs
      case Rejected(kind, reason) => AppendError(errs, Problem(row.line, RowTitle(row), reason, kind))
  {
    match Judge(p.docs, row, fault)
    case Stored =>
    case Rejected(kind, reason) =>
      AppendKeepsFirst(p.problems, Problem(row.line, RowTitle(row), reason, kind));
  }

  class CorpusStore {
    var docs: seq<Doc>
    var tasks: seq<Task>

    constructor (docs: seq<Doc>)
      ensures this.docs == docs && tasks == []
    {
      this.docs, tasks := docs, [];
    }

    method CreateImportTask(file: File)
      modifies this`tasks
      ensures tasks == old(tasks) + [Task(file, Pending, NOTHING)]
    {
      tasks := tasks + [Task(file, Pending, NOTHING)];
    }

    /** Puts every task that was under way back in the queue. */
    method RecoverImportTasks()
      modifies this`tasks
      ensures |tasks| == |old(tasks)|
      ensures forall i :: 0 <= i < |tasks| ==>
        tasks[i] == if old(tasks)[i].status == Processing then old(tasks)[i].(status := Pending) else old(tasks)[i]
    {
      for i := 0 to |tasks|
        invariant |tasks| == |old(tasks)|
        invariant forall j :: i <= j < |tasks| ==> tasks[j] == old(tasks)[j]
        invariant forall j :: 0 <= j < i ==>
          tasks[j] == if old(tasks)[j].status == Processing then old(tasks)[j].(status := Pending) else old(tasks)[j]
      {
        if tasks[i].status == Processing {
          tasks := tasks[i := tasks[i].(status := Pending)];
        }
      }
    }

    /** Claims the earliest pending task. */
    method ClaimImportTask() returns (claimed: Option<nat>)
      modifies this`tasks
      ensures claimed.None? ==> tasks == old(tasks) && forall i :: 0 <= i < |tasks| ==> tasks[i].status != Pending
      ensures claimed.Some? ==>
        && claimed.value < |old(tasks)| && old(tasks)[claimed.value].status == Pending
        && (forall i :: 0 <= i < claimed.value ==> old(tasks)[i].status != Pending)
        && tasks == old(tasks)[claimed.value := old(tasks)[claimed.value].(status := Processing)]
    {
      for i := 0 to |tasks|
        invariant forall j :: 0 <= j < i ==> tasks[j].status != Pending
      {
        if tasks[i].status == Pending {
          tasks := tasks[i := tasks[i].(status := Processing)];
          return Some(i);
        }
      }
      claimed := None;
    }

    /** Imports the rows of the i-th task; the process dies after `stop` of them, if that is not past the end. */
    method ProcessImportTask(i: nat, faults: nat -> Fault, stop: Option<nat>, recorded: bool) returns (how: Attempt)
      requires i < |tasks|
      modifies this
      ensures var task := old(tasks)[i];
        var rows := RowsOf(task.file);
        && how == HowItEnds(stop, recorded, |rows|)
        && docs == Run(old(docs), rows[..Through(stop, |rows|)], faults).docs
        && tasks == if how.Recorded? then old(tasks)[i := FinishedTask(task, old(docs), faults)] else old(tasks)
    {
      var file := tasks[i].file;
      if file.head.NoHead? || file.head.BadHead? || !ValidHead(file.head.fields) {
        if Dies(stop, 0) {
          return Died;
        }
        var status := if file.head.NoHead? then Succeeded else Failed;
        how := FinishImportTask(i, status, NOTHING, recorded);
        return;
      }
      var died, report := ImportRows(file.rows, faults, stop);
      if died {
        return Died;
      }
      assert file.rows[..|file.rows|] == file.rows;
      var status := if file.broken then Failed else Succeeded;
      how := FinishImportTask(i, status, report, recorded);
    }

    /** The row loop. */
    method ImportRows(rows: seq<Row>, faults: nat -> Fault, stop: Option<nat>) returns (died: bool, report: Report)
      modifies this`docs
      ensures died == Dies(stop, |rows|)
      ensures docs == Run(old(docs), rows[..Through(stop, |rows|)], faults).docs
      ensures !died ==> report == ReportOf(Run(old(docs), rows, faults))
    {
      ghost var before := docs;
      var total, success, failed, skipped := 0, 0, 0, 0;
      var errs: seq<Problem> := [];
      var k := 0;
      while k < |rows|
        invariant k <= |rows|
        invariant Counts(Run(before, rows[..k], faults), docs, total, success, failed, skipped, errs)
        invariant stop.Some? ==> k <= stop.value
      {
        if stop == Some(k) {
          return true, NOTHING;
        }
        assert rows[..k + 1][..k] == rows[..k];
        var row, fault := rows[k], faults(k);
        CountOne(Run(before, rows[..k], faults), row, fault, errs);
        k := k + 1;
        total := total + 1;
        var verdict := ImportRow(row, fault);
        if verdict.Stored? {
          success := success + 1;
          continue;
        }
        if verdict.kind == KindSkipped {
          skipped := skipped + 1;
        } else {
          failed := failed + 1;
        }
        errs := AppendError(errs, Problem(row.line, RowTitle(row), verdict.reason, verdict.kind));
      }
      assert rows[..k] == rows;
      died, report := stop == Some(k), Report(total, success, failed, skipped, errs);
    }

    /** The part of the row loop that touches the documents. */
    method ImportRow(row: Row, fault: Fault) returns (verdict: Verdict)
      modifies this`docs
      ensures verdict == Judge(old(docs), row, fault) && docs == DocsAfter(old(docs), row, fault)
    {
      if !ValidRow(row) {
        return Rejected(KindFailed, INVALID);
      }
      var basic := DocOf(row);
      if fault.LookupFails? {
        return Rejected(KindFailed, fault.reason);
      }
      if Has(docs, Key(basic)) {
        return Rejected(KindSkipped, DUPLICATE);
      }
      if fault.Stores() {
        docs := docs + [basic];
      }
      verdict := if fault.Fine? then Stored else Rejected(KindFailed, fault.reason);
    }

    method FinishImportTask(i: nat, status: Status, report: Report, recorded: bool) returns (how: Attempt)
      requires i < |tasks|
      modifies this`tasks
      ensures how == if recorded then Recorded else Unrecorded
      ensures tasks == if recorded then old(tasks)[i := Task(old(tasks)[i].file, status, report)] else old(tasks)
    {
      if recorded {
        tasks := tasks[i := Task(tasks[i].file, status, report)];
        return Recorded;
      }
      how := Unrecorded;
    }
  }

  /** What one life of the process meets; everything is told per tick of the worker's loop. */
  datatype Life = Life(ticks: nat, faults: nat -> nat -> Fault, stop: nat -> Option<nat>, recorded: nat -> bool)

  /** What happens to the store: a file is uploaded, or a process lives. */
  datatype Episode = Uploaded(file: File) | Lived(life: Life)

  /** Nothing but vectors fails. */
  ghost predicate Stores(life: Life) {
    forall t :: AllStore(life.faults(t))
  }

  /** The process does not die, its final writes work, and it ticks at least once for each of `n` tasks. */
  ghost predicate Undisturbed(life: Life, n: nat) {
    life.ticks >= n && forall t :: life.stop(t).None? && life.recorded(t)
  }

  /** What holds of the store whenever no process is running. */
  ghost predicate Good(first: seq<Doc>, docs: seq<Doc>, tasks: seq<Task>) {
    Sound(first, docs, tasks) && Accounted(tasks)
  }

  /** While the worker runs, everything from some file on is still pending. */
  ghost predicate Running(first: seq<Doc>, docs: seq<Doc>, tasks: seq<Task>) {
    && Accounted(tasks)
    && exists next, rows :: Reached(first, docs, tasks, next, rows) && PendingFrom(tasks, next)
  }

  ghost predicate PendingFrom(tasks: seq<Task>, next: nat) {
    forall i :: next <= i < |tasks| ==> tasks[i].status == Pending
  }

  ghost predicate FinishedBefore(tasks: seq<Task>, n: nat) {
    forall i :: 0 <= i < n && i < |tasks| ==> tasks[i].Finished()
  }

  /** The tasks after a recovery: those under way are pending again. */
  ghost predicate Recovered(tasks: seq<Task>, tasks': seq<Task>) {
    |tasks'| == |tasks| &&
    forall i :: 0 <= i < |tasks| ==>
      tasks'[i] == if tasks[i].status == Processing then tasks[i].(status := Pending) else tasks[i]
  }

  lemma {:induction false} RecoveryKeepsReached(first: seq<Doc>, docs: seq<Doc>, tasks: seq<Task>, tasks': seq<Task>,
                                                next: nat, rows: nat)
    requires Reached(first, docs, tasks, next, rows) && Recovered(tasks, tasks')
    ensures Files(tasks') == Files(tasks) && Reached(first, docs, tasks', next, rows) && PendingFrom(tasks', next)
  {
    assert Files(tasks') == Files(tasks);
  }

  lemma {:induction false} RecoveryStarts(first: seq<Doc>, docs: seq<Doc>, tasks: seq<Task>, tasks': seq<Task>)
    requires Good(first, docs, tasks) && Recovered(tasks, tasks')
    ensures Running(first, docs, tasks') && Files(tasks') == Files(tasks) && Idle(tasks')
  {
    var next: nat, rows: nat :| Reached(first, docs, tasks, next, rows);
    RecoveryKeepsReached(first, docs, tasks, tasks', next, rows);
  }

  lemma {:induction false} RunningIsGood(first: seq<Doc>, docs: seq<Doc>, tasks: seq<Task>)
    requires Running(first, docs, tasks)
    ensures Good(first, docs, tasks)
  {
  }

  predicate Earliest(tasks: seq<Task>, i: nat) {
    i < |tasks| && tasks[i].status == Pending && forall j :: 0 <= j < i ==> tasks[j].status != Pending
  }

  /** A task after an attempt at it. */
  function Attempted(task: Task, docs: seq<Doc>, faults: nat -> Fault, how: Attempt): Task {
    if how.Recorded? then FinishedTask(task, docs, faults) else task.(status := Processing)
  }

  lemma {:induction false} AttemptAccounts(tasks: seq<Task>, i: nat, docs: seq<Doc>, faults: nat -> Fault, how: Attempt)
    requires Accounted(tasks) && i < |tasks|
    ensures Accounted(tasks[i := Attempted(tasks[i], docs, faults, how)])
  {
    ReportsAddUp(docs, RowsOf(tasks[i].file), faults);
  }

  lemma {:induction false} TickReaches(first: seq<Doc>, docs: seq<Doc>, tasks: seq<Task>, i: nat, upTo: nat, task: Task,
                                       next: nat, rows: nat) returns (next': nat, rows': nat)
    requires Reached(first, docs, tasks, next, rows) && PendingFrom(tasks, next) && Earliest(tasks, i)
    requires upTo <= |RowsOf(tasks[i].file)| && task.file == tasks[i].file
    requires task.Finished() ==> upTo == |RowsOf(tasks[i].file)|
    ensures Reached(first, Imported(docs, RowsOf(tasks[i].file)[..upTo]), tasks[i := task], next', rows')
    ensures upTo == |RowsOf(tasks[i].file)| ==> PendingFrom(tasks[i := task], next')
  {
    assert next < |tasks| ==> tasks[next].status == Pending;
    next', rows' := AttemptKeepsReached(first, docs, tasks, next, rows, i, upTo, task);
  }

  /** One attempt at the earliest pending task, from its claim to its end. */
  lemma {:induction false} TickKeeps(first: seq<Doc>, docs: seq<Doc>, tasks: seq<Task>, i: nat, faults: nat -> Fault,
                                     upTo: nat, how: Attempt)
    requires Running(first, docs, tasks) && AllStore(faults) && Earliest(tasks, i)
    requires upTo <= |RowsOf(tasks[i].file)| && (how.Died? || upTo == |RowsOf(tasks[i].file)|)
    ensures var docs' := Run(docs, RowsOf(tasks[i].file)[..upTo], faults).docs;
      var tasks' := tasks[i := Attempted(tasks[i], docs, faults, how)];
      && Files(tasks') == Files(tasks)
      && Good(first, docs', tasks') && (!how.Died? ==> Running(first, docs', tasks'))
  {
    var next: nat, rows: nat :| Reached(first, docs, tasks, next, rows) && PendingFrom(tasks, next);
    var task := Attempted(tasks[i], docs, faults, how);
    RunImports(docs, RowsOf(tasks[i].file)[..upTo], faults);
    var next', rows' := TickReaches(first, docs, tasks, i, upTo, task, next, rows);
    assert Files(tasks[i := task]) == Files(tasks);
    AttemptAccounts(tasks, i, docs, faults, how);
  }

  /** How far an undisturbed life has come: nothing is under way, and one more task is finished with each tick. */
  ghost predicate OnTrack(tasks: seq<Task>, ticks: nat) {
    Idle(tasks) && FinishedBefore(tasks, ticks)
  }

  lemma {:induction false} TickGoesOn(tasks: seq<Task>, ticks: nat, i: nat, task: Task)
    requires OnTrack(tasks, ticks) && Earliest(tasks, i) && task.Finished()
    ensures OnTrack(tasks[i := task], ticks + 1)
  {
    if ticks < |tasks| && ticks != i {
      assert ticks < i ==> tasks[ticks].Finished();
    }
  }

  /** One turn of the worker's loop. */
  method Tick(sto: CorpusStore, faults: nat -> Fault, stop: Option<nat>, recorded: bool,
              ghost first: seq<Doc>, ghost ticks: nat) returns (died: bool)
    requires Running(first, sto.docs, sto.tasks) && AllStore(faults)
    modifies sto
    ensures Files(sto.tasks) == old(Files(sto.tasks))
    ensures Good(first, sto.docs, sto.tasks) && (!died ==> Running(first, sto.docs, sto.tasks))
    ensures stop.None? ==> !died
    ensures stop.None? && recorded && old(OnTrack(sto.tasks, ticks)) ==> OnTrack(sto.tasks, ticks + 1)
  {
    ghost var queue, docs := sto.tasks, sto.docs;
    var claimed := sto.ClaimImportTask();
    if claimed.None? {
      RunningIsGood(first, docs, queue);
      return false;
    }
    var i := claimed.value;
    assert sto.tasks[i].file == queue[i].file;
    var how := sto.ProcessImportTask(i, faults, stop, recorded);
    assert sto.tasks == queue[i := Attempted(queue[i], docs, faults, how)];
    TickKeeps(first, docs, queue, i, faults, Through(stop, |RowsOf(queue[i].file)|), how);
    if how.Recorded? && OnTrack(queue, ticks) {
      TickGoesOn(queue, ticks, i, Attempted(queue[i], docs, faults, how));
    }
    died := how.Died?;
  }

  /**
   `ImportWorker.Run` for the ticks of one life. It keeps the store good however it ends, and if
   nothing disturbs it, it finishes every task.
   */
  method RunWorker(sto: CorpusStore, life: Life, ghost first: seq<Doc>) returns (died: bool)
    requires Stores(life) && Good(first, sto.docs, sto.tasks)
    modifies sto
    ensures Good(first, sto.docs, sto.tasks) && Files(sto.tasks) == old(Files(sto.tasks))
    ensures Undisturbed(life, |old(sto.tasks)|) ==> AllFinished(sto.tasks)
  {
    ghost var was := sto.tasks;
    sto.RecoverImportTasks();
    RecoveryStarts(first, sto.docs, was, sto.tasks);
    for tick := 0 to life.ticks
      invariant Running(first, sto.docs, sto.tasks) && Files(sto.tasks) == Files(was)
      invariant Undisturbed(life, |was|) ==> OnTrack(sto.tasks, tick)
    {
      died := Tick(sto, life.faults(tick), life.stop(tick), life.recorded(tick), first, tick);
      if died {
        return true;
      }
    }
    RunningIsGood(first, sto.docs, sto.tasks);
    assert |Files(sto.tasks)| == |was|;
    died := false;
  }

  lemma {:induction false} OneMoreFile(files: seq<File>, file: File)
    ensures AllRows(files + [file]) == AllRows(files) + RowsOf(file)
  {
    assert (files + [file])[..|files|] == files;
  }

  lemma {:induction false} StartStays(files: seq<File>, file: File, i: nat)
    requires i <= |files|
    ensures Start(files + [file], i) == Start(files, i)
  {
    assert (files + [file])[..i] == files[..i];
  }

  lemma {:induction false} UploadKeepsMarked(files: seq<File>, tasks: seq<Task>, file: File, next: nat, rows: nat)
    requires |files| == |tasks| && Marked(files, tasks, next, rows)
    ensures Marked(files + [file], tasks + [Task(file, Pending, NOTHING)], next, rows)
  {
    var more := tasks + [Task(file, Pending, NOTHING)];
    forall i | 0 <= i < |more| && more[i].Finished()
      ensures Start(files + [file], i + 1) <= rows
    {
      assert more[i] == tasks[i];
      StartStays(files, file, i + 1);
    }
  }

  lemma {:induction false} PrefixStays(a: seq<Row>, b: seq<Row>, n: nat)
    requires n <= |a|
    ensures (a + b)[..n] == a[..n]
  {
  }

  lemma {:induction false} UploadKeepsReached(first: seq<Doc>, docs: seq<Doc>, tasks: seq<Task>, file: File,
                                              next: nat, rows: nat)
    requires Reached(first, docs, tasks, next, rows)
    ensures var more := tasks + [Task(file, Pending, NOTHING)];
      Reached(first, docs, more, next, rows) && Files(more) == Files(tasks) + [file]
  {
    var more := tasks + [Task(file, Pending, NOTHING)];
    assert Files(more) == Files(tasks) + [file];
    OneMoreFile(Files(tasks), file);
    StartStays(Files(tasks), file, next);
    UploadKeepsMarked(Files(tasks), tasks, file, next, rows);
    PrefixStays(AllRows(Files(tasks)), RowsOf(file), rows);
  }

  lemma {:induction false} UploadKeeps(first: seq<Doc>, docs: seq<Doc>, tasks: seq<Task>, file: File)
    requires Good(first, docs, tasks)
    ensures var more := tasks + [Task(file, Pending, NOTHING)];
      Good(first, docs, more) && Files(more) == Files(tasks) + [file]
  {
    var next: nat, rows: nat :| Reached(first, docs, tasks, next, rows);
    UploadKeepsReached(first, docs, tasks, file, next, rows);
  }

  function Uploads(episodes: seq<Episode>): seq<File> {
    if episodes == [] then []
    else
      var k := |episodes| - 1;
      Uploads(episodes[..k]) + if episodes[k].Uploaded? then [episodes[k].file] else []
  }

  method Upload(sto: CorpusStore, file: File, ghost first: seq<Doc>)
    requires Good(first, sto.docs, sto.tasks)
    modifies sto
    ensures Good(first, sto.docs, sto.tasks) && Files(sto.tasks) == old(Files(sto.tasks)) + [file]
  {
    UploadKeeps(first, sto.docs, sto.tasks, file);
    sto.CreateImportTask(file);
  }

  /**
   Any number of uploads and process lives, each dying anywhere and losing any final writes, and
   then one undisturbed life: the documents are those of one uninterrupted import of all uploaded
   rows, and every task is finished and accounts for its rows.
   */
  method Serve(sto: CorpusStore, episodes: seq<Episode>, last: Life)
    requires sto.tasks == []
    requires forall e :: e in episodes && e.Lived? ==> Stores(e.life)
    requires Stores(last) && Undisturbed(last, |Uploads(episodes)|)
    modifies sto
    ensures sto.docs == Imported(old(sto.docs), AllRows(Uploads(episodes)))
    ensures Files(sto.tasks) == Uploads(episodes) && AllFinished(sto.tasks) && Accounted(sto.tasks)
  {
    ghost var first := sto.docs;
    assert Reached(first, sto.docs, [], 0, 0);
    for i := 0 to |episodes|
      invariant Good(first, sto.docs, sto.tasks) && Files(sto.tasks) == Uploads(episodes[..i])
    {
      assert episodes[..i + 1][..i] == episodes[..i];
      match episodes[i]
      case Uploaded(file) => Upload(sto, file, first);
      case Lived(life) => var _ := RunWorker(sto, life, first);
    }
    assert episodes[..|episodes|] == episodes;
    assert |sto.tasks| == |Files(sto.tasks)|;
    var _ := RunWorker(sto, last, first);
    FinishedIsImported(first, sto.docs, sto.tasks);
  }
}
