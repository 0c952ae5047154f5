/**
 The corpus import: a worker that claims uploaded files one at a time and imports their rows, may
 die at any point, and starts over with the same file.
 */
module CorpusImport {
  import opened Wrappers
  import opened Text

  /** A parsed line of a file, with the number of the line it starts on. */
  datatype Row = Row(line: int, fields: seq<string>)

  datatype Head = NoHead | BadHead | HeadFields(fields: seq<string>)

  /** What the CSV reader makes of a file: its head, its rows, and whether it breaks off after them. */
  datatype File = File(head: Head, rows: seq<Row>, broken: bool)

  datatype Doc = Doc(title: string, heading: string, content: string)

  datatype Kind = KindFailed | KindSkipped

  datatype Problem = Problem(line: int, title: string, reason: string, kind: Kind)

  datatype Status = Pending | Processing | Succeeded | Failed

  /** The counters and details a finished task carries. */
  datatype Report = Report(total: nat, success: nat, failed: nat, skipped: nat, errors: seq<Problem>)

  const NOTHING := Report(0, 0, 0, 0, [])

  datatype Task = Task(file: File, status: Status, report: Report) {
    predicate Finished() {
      status.Succeeded? || status.Failed?
    }
  }

  /**
   How the database and the embedding service treat one row. When only the vector fails, the
   document is already stored.
   */
  datatype Fault = Fine | LookupFails(reason: string) | InsertFails(reason: string) | VectorFails(reason: string) {
    predicate Stores() {
      Fine? || VectorFails?
    }
  }

  const MAX_ERRORS := 500
  const MAX_REASON := 200
  const INVALID := "数据无效"
  const DUPLICATE := "重复文档: title+heading 已存在，跳过"

  predicate ValidHead(rec: seq<string>) {
    |rec| >= 3 && Lower(rec[0]) == "title" && Lower(rec[1]) == "heading" && Lower(rec[2]) == "content"
  }

  /** Whether the file's rows are read at all. */
  predicate Readable(f: File) {
    f.head.HeadFields? && ValidHead(f.head.fields)
  }

  function RowsOf(f: File): seq<Row> {
    if Readable(f) then f.rows else []
  }

  /** How a task on this file ends: an empty file is no failure. */
  function EndStatus(f: File): Status {
    if f.head.NoHead? then Succeeded
    else if !Readable(f) || f.broken then Failed
    else Succeeded
  }

  predicate ValidRow(row: Row) {
    |row.fields| >= 3 && row.fields[0] != "" && row.fields[1] != "" && row.fields[2] != ""
  }

  function RowTitle(row: Row): string {
    if row.fields != [] then row.fields[0] else ""
  }

  /** Line separators as some spreadsheets write them become newlines. */
  function Cleaned(text: string): string {
    Map(c => if c == '\U{2028}' then '\n' else c, text)
  }

  function DocOf(row: Row): Doc
    requires ValidRow(row)
  {
    Doc(row.fields[0], row.fields[1], Cleaned(row.fields[2]))
  }

  /** What identifies a document. */
  function Key(d: Doc): (string, string) {
    (d.title, d.heading)
  }

  predicate Has(docs: seq<Doc>, key: (string, string)) {
    exists d :: d in docs && Key(d) == key
  }

  // ----- One row -----

  datatype Verdict = Stored | Rejected(kind: Kind, reason: string)

  function Judge(docs: seq<Doc>, row: Row, fault: Fault): Verdict {
    if !ValidRow(row) then Rejected(KindFailed, INVALID)
    else if fault.LookupFails? then Rejected(KindFailed, fault.reason)
    else if Has(docs, Key(DocOf(row))) then Rejected(KindSkipped, DUPLICATE)
    else if fault.Fine? then Stored
    else Rejected(KindFailed, fault.reason)
  }

  /** The row's document is new to the store. */
  predicate Fresh(docs: seq<Doc>, row: Row) {
    ValidRow(row) && !Has(docs, Key(DocOf(row)))
  }

  function DocsAfter(docs: seq<Doc>, row: Row, fault: Fault): seq<Doc> {
    if Fresh(docs, row) && fault.Stores() then docs + [DocOf(row)] else docs
  }

  function Shortened(reason: string): string {
    if |reason| > MAX_REASON then reason[..MAX_REASON] else reason
  }

  function ProblemOf(row: Row, verdict: Verdict): Problem
    requires verdict.Rejected?
  {
    Problem(row.line, RowTitle(row), Shortened(verdict.reason), verdict.kind)
  }

  // ----- All rows -----

  /** An import under way: the documents, and every problem so far. */
  datatype Progress = Progress(docs: seq<Doc>, total: nat, success: nat, failed: nat, skipped: nat,
                               problems: seq<Problem>)

  function Step(p: Progress, row: Row, fault: Fault): Progress {
    var docs := DocsAfter(p.docs, row, fault);
    match Judge(p.docs, row, fault)
    case Stored => p.(docs := docs, total := p.total + 1, success := p.success + 1)
    case Rejected(kind, reason) =>
      var problems := p.problems + [ProblemOf(row, Rejected(kind, reason))];
      if kind.KindFailed? then Progress(docs, p.total + 1, p.success, p.failed + 1, p.skipped, problems)
      else Progress(docs, p.total + 1, p.success, p.failed, p.skipped + 1, problems)
  }

  /** `faults(i)` is what the i-th row of this attempt meets. */
  function Run(docs: seq<Doc>, rows: seq<Row>, faults: nat -> Fault): Progress {
    if rows == [] then Progress(docs, 0, 0, 0, 0, [])
    else Step(Run(docs, rows[..|rows| - 1], faults), rows[|rows| - 1], faults(|rows| - 1))
  }

  function First(n: nat, problems: seq<Problem>): seq<Problem> {
    if |problems| <= n then problems else problems[..n]
  }

  function ReportOf(p: Progress): Report {
    Report(p.total, p.success, p.failed, p.skipped, First(MAX_ERRORS, p.problems))
  }

  /** Every row is counted once, and every row that is not a success leaves one problem. */
  ghost predicate Balanced(p: Progress) {
    p.total == p.success + p.failed + p.skipped && |p.problems| == p.failed + p.skipped
  }

  lemma {:induction false} RunIsBalanced(docs: seq<Doc>, rows: seq<Row>, faults: nat -> Fault)
    ensures Balanced(Run(docs, rows, faults)) && Run(docs, rows, faults).total == |rows|
  {
    if rows != [] {
      RunIsBalanced(docs, rows[..|rows| - 1], faults);
    }
  }

  /** A finished report accounts for every row, and its details are the first problems, at most 500. */
  lemma {:induction false} ReportsAddUp(docs: seq<Doc>, rows: seq<Row>, faults: nat -> Fault)
    ensures var r := ReportOf(Run(docs, rows, faults));
      && r.total == |rows| == r.success + r.failed + r.skipped
      && |r.errors| == Min(MAX_ERRORS, r.failed + r.skipped)
      && r.errors <= Run(docs, rows, faults).problems
  {
    RunIsBalanced(docs, rows, faults);
  }

  ghost predicate LinesAscend(rows: seq<Row>) {
    forall i, j :: 0 <= i < j < |rows| ==> rows[i].line < rows[j].line
  }

  /** The problems name rows of the file, each at most once and in file order, by line and title. */
  ghost predicate InFileOrder(problems: seq<Problem>, rows: seq<Row>) {
    && (forall i, j :: 0 <= i < j < |problems| ==> problems[i].line < problems[j].line)
    && (forall i :: 0 <= i < |problems| ==>
          |problems[i].reason| <= MAX_REASON && Names(problems[i], rows))
  }

  ghost predicate Names(problem: Problem, rows: seq<Row>) {
    exists k :: 0 <= k < |rows| && problem.line == rows[k].line && problem.title == RowTitle(rows[k])
  }

  lemma {:induction false} NamesMore(problem: Problem, rows: seq<Row>, row: Row)
    requires Names(problem, rows)
    ensures Names(problem, rows + [row])
  {
    var k :| 0 <= k < |rows| && problem.line == rows[k].line && problem.title == RowTitle(rows[k]);
    assert (rows + [row])[k] == rows[k];
  }

  lemma {:induction false} OrderGrows(problems: seq<Problem>, rows: seq<Row>, row: Row)
    requires InFileOrder(problems, rows) && forall k :: 0 <= k < |rows| ==> rows[k].line < row.line
    ensures InFileOrder(problems, rows + [row])
    ensures forall p: Problem :: p.line == row.line && p.title == RowTitle(row) && |p.reason| <= MAX_REASON ==>
      InFileOrder(problems + [p], rows + [row])
  {
    forall i | 0 <= i < |problems|
      ensures Names(problems[i], rows + [row]) && problems[i].line < row.line
    {
      NamesMore(problems[i], rows, row);
    }
    assert (rows + [row])[|rows|] == row;
  }

  lemma {:induction false} StepAppends(p: Progress, row: Row, fault: Fault)
    ensures var after := Step(p, row, fault).problems;
      || after == p.problems
      || (exists f: Problem :: f.line == row.line && f.title == RowTitle(row) && |f.reason| <= MAX_REASON
           && after == p.problems + [f])
  {
    match Judge(p.docs, row, fault)
    case Stored =>
    case Rejected(kind, reason) =>
      var f := ProblemOf(row, Rejected(kind, reason));
      assert |f.reason| <= MAX_REASON && Step(p, row, fault).problems == p.problems + [f];
  }

  lemma {:induction false} ProblemsInFileOrder(docs: seq<Doc>, rows: seq<Row>, faults: nat -> Fault)
    requires LinesAscend(rows)
    ensures InFileOrder(Run(docs, rows, faults).problems, rows)
  {
    if rows != [] {
      var k := |rows| - 1;
      ProblemsInFileOrder(docs, rows[..k], faults);
      var p := Run(docs, rows[..k], faults);
      OrderGrows(p.problems, rows[..k], rows[k]);
      assert rows == rows[..k] + [rows[k]];
      StepAppends(p, rows[k], faults(k));
    }
  }

  // ----- The documents -----

  /** The documents after the rows, when nothing keeps a document from being stored. */
  function Imported(docs: seq<Doc>, rows: seq<Row>): seq<Doc> {
    if rows == [] then docs else DocsAfter(Imported(docs, rows[..|rows| - 1]), rows[|rows| - 1], Fine)
  }

  ghost predicate AllStore(faults: nat -> Fault) {
    forall i :: faults(i).Stores()
  }

  /** Failing vectors do not matter for the documents. */
  lemma {:induction false} RunImports(docs: seq<Doc>, rows: seq<Row>, faults: nat -> Fault)
    requires AllStore(faults)
    ensures Run(docs, rows, faults).docs == Imported(docs, rows)
  {
    if rows != [] {
      RunImports(docs, rows[..|rows| - 1], faults);
    }
  }

  ghost predicate Unique(docs: seq<Doc>) {
    forall i, j :: 0 <= i < j < |docs| ==> Key(docs[i]) != Key(docs[j])
  }

  /** Whatever fails, documents are only added, and no title and heading occur twice. */
  lemma {:induction false} RunKeepsUnique(docs: seq<Doc>, rows: seq<Row>, faults: nat -> Fault)
    requires Unique(docs)
    ensures Unique(Run(docs, rows, faults).docs) && docs <= Run(docs, rows, faults).docs
  {
    if rows != [] {
      var k := |rows| - 1;
      RunKeepsUnique(docs, rows[..k], faults);
      AddKeepsUnique(Run(docs, rows[..k], faults).docs, rows[k], faults(k));
    }
  }

  lemma AddKeepsUnique(docs: seq<Doc>, row: Row, fault: Fault)
    requires Unique(docs)
    ensures Unique(DocsAfter(docs, row, fault))
  {
    if Fresh(docs, row) {
      forall i | 0 <= i < |docs|
        ensures Key(docs[i]) != Key(DocOf(row))
      {
        assert docs[i] in docs;
      }
    }
  }

  /** The document is what this row holds, with its line separators replaced. */
  predicate Holds(d: Doc, row: Row) {
    && |row.fields| >= 3 && row.fields[0] != "" && row.fields[1] != "" && row.fields[2] != ""
    && d.title == row.fields[0] && d.heading == row.fields[1] && |d.content| == |row.fields[2]|
    && forall j :: 0 <= j < |d.content| ==>
         d.content[j] == if row.fields[2][j] == '\U{2028}' then '\n' else row.fields[2][j]
  }

  /** Whatever fails, every document was there before or is what some row of the file holds. */
  lemma {:induction false} DocsComeFromRows(docs: seq<Doc>, rows: seq<Row>, faults: nat -> Fault, d: Doc)
    requires d in Run(docs, rows, faults).docs
    ensures d in docs || exists row :: row in rows && Holds(d, row)
  {
    if rows != [] {
      var k := |rows| - 1;
      assert rows[k] in rows && forall row :: row in rows[..k] ==> row in rows;
      if d in Run(docs, rows[..k], faults).docs {
        DocsComeFromRows(docs, rows[..k], faults, d);
      } else {
        assert Holds(d, rows[k]);
      }
    }
  }

  /** The documents a run adds, told from the front: each row that is valid and whose key is new. */
  function Firsts(seen: set<(string, string)>, rows: seq<Row>): seq<Doc>
    decreases |rows|
  {
    if rows == [] then []
    else if ValidRow(rows[0]) && Key(DocOf(rows[0])) !in seen then
      [DocOf(rows[0])] + Firsts(seen + {Key(DocOf(rows[0]))}, rows[1..])
    else Firsts(seen, rows[1..])
  }

  ghost predicate Sees(seen: set<(string, string)>, docs: seq<Doc>) {
    forall key :: key in seen <==> Has(docs, key)
  }

  lemma SeesOneMore(seen: set<(string, string)>, docs: seq<Doc>, d: Doc)
    requires Sees(seen, docs)
    ensures Sees(seen + {Key(d)}, docs + [d])
  {
    assert d in docs + [d];
    forall key
      ensures Has(docs + [d], key) <==> Has(docs, key) || key == Key(d)
    {
      assert forall e :: e in docs + [d] <==> e in docs || e == d;
    }
  }

  lemma {:induction false} ImportedFromFront(docs: seq<Doc>, rows: seq<Row>)
    requires rows != []
    ensures Imported(docs, rows) == Imported(DocsAfter(docs, rows[0], Fine), rows[1..])
  {
    if |rows| > 1 {
      var k := |rows| - 1;
      ImportedFromFront(docs, rows[..k]);
      assert rows[..k][1..] == rows[1..][..k - 1];
    }
  }

  /** The first row of each new title and heading wins, in file order. */
  lemma {:induction false} FirstOccurrenceWins(docs: seq<Doc>, rows: seq<Row>, seen: set<(string, string)>)
    requires Sees(seen, docs)
    ensures Imported(docs, rows) == docs + Firsts(seen, rows)
    decreases |rows|
  {
    if rows != [] {
      ImportedFromFront(docs, rows);
      if Fresh(docs, rows[0]) {
        var d := DocOf(rows[0]);
        SeesOneMore(seen, docs, d);
        FirstOccurrenceWins(docs + [d], rows[1..], seen + {Key(d)});
        Assoc(docs, [d], Firsts(seen + {Key(d)}, rows[1..]));
      } else {
        FirstOccurrenceWins(docs, rows[1..], seen);
      }
    } else {
      assert docs + [] == docs;
    }
  }

  function Invalids(rows: seq<Row>): nat {
    if rows == [] then 0 else Invalids(rows[..|rows| - 1]) + if ValidRow(rows[|rows| - 1]) then 0 else 1
  }

  lemma {:induction false} FailuresAreInvalid(docs: seq<Doc>, rows: seq<Row>)
    ensures var p := Run(docs, rows, _ => Fine);
      p.failed == Invalids(rows) && |p.docs| == |docs| + p.success
  {
    if rows != [] {
      FailuresAreInvalid(docs, rows[..|rows| - 1]);
    }
  }

  /** With nothing failing: the invalid rows fail, the first valid rows of new keys succeed, the rest is skipped. */
  lemma {:induction false} CountsTellTheRows(docs: seq<Doc>, rows: seq<Row>, seen: set<(string, string)>)
    requires Sees(seen, docs)
    ensures var r := ReportOf(Run(docs, rows, _ => Fine));
      && r.failed == Invalids(rows)
      && r.success == |Firsts(seen, rows)|
      && r.skipped == |rows| - Invalids(rows) - |Firsts(seen, rows)|
  {
    FailuresAreInvalid(docs, rows);
    RunImports(docs, rows, _ => Fine);
    FirstOccurrenceWins(docs, rows, seen);
    RunIsBalanced(docs, rows, _ => Fine);
  }

  // ----- Crashing and starting over -----

  lemma {:induction false} ImportedAppend(docs: seq<Doc>, a: seq<Row>, b: seq<Row>)
    ensures Imported(docs, a + b) == Imported(Imported(docs, a), b)
  {
    if b == [] {
      assert a + b == a;
    } else {
      var k := |b| - 1;
      assert (a + b)[..|a + b| - 1] == a + b[..k];
      ImportedAppend(docs, a, b[..k]);
    }
  }

  /** The store holds the key of every valid row. */
  ghost predicate Covers(docs: seq<Doc>, rows: seq<Row>) {
    forall i :: 0 <= i < |rows| && ValidRow(rows[i]) ==> Has(docs, Key(DocOf(rows[i])))
  }

  lemma HasMore(docs: seq<Doc>, row: Row, key: (string, string))
    ensures Has(docs, key) ==> Has(DocsAfter(docs, row, Fine), key)
    ensures ValidRow(row) ==> Has(DocsAfter(docs, row, Fine), Key(DocOf(row)))
  {
    if ValidRow(row) && Fresh(docs, row) {
      assert DocOf(row) in docs + [DocOf(row)];
    }
    if Has(docs, key) {
      var d :| d in docs && Key(d) == key;
      assert d in DocsAfter(docs, row, Fine);
    }
  }

  lemma {:induction false} ImportedCovers(docs: seq<Doc>, rows: seq<Row>)
    ensures Covers(Imported(docs, rows), rows)
  {
    if rows != [] {
      var k := |rows| - 1;
      ImportedCovers(docs, rows[..k]);
      forall i | 0 <= i < |rows| && ValidRow(rows[i])
        ensures Has(Imported(docs, rows), Key(DocOf(rows[i])))
      {
        HasMore(Imported(docs, rows[..k]), rows[k], Key(DocOf(rows[i])));
        if i < k {
          assert rows[..k][i] == rows[i];
        }
      }
    }
  }

  lemma {:induction false} CoveredAddNothing(docs: seq<Doc>, rows: seq<Row>)
    requires Covers(docs, rows)
    ensures Imported(docs, rows) == docs
  {
    if rows != [] {
      CoveredAddNothing(docs, rows[..|rows| - 1]);
    }
  }

  /**
   Importing some rows again, after all rows up to any later or earlier point were imported, leaves
   the documents of a single import up to the further of the two ends.
   */
  lemma {:induction false} ImportingAgain(docs: seq<Doc>, rows: seq<Row>, from: nat, to: nat, done: nat)
    requires from <= to <= |rows| && from <= done <= |rows|
    ensures Imported(Imported(docs, rows[..done]), rows[from..to]) == Imported(docs, rows[..Max(done, to)])
  {
    var sofar := Imported(docs, rows[..done]);
    var end := Min(done, to);
    ImportedCovers(docs, rows[..done]);
    assert Covers(sofar, rows[from..end]) by {
      assert forall i :: 0 <= i < end - from ==> rows[from..end][i] == rows[..done][from + i];
    }
    CoveredAddNothing(sofar, rows[from..end]);
    if to > done {
      assert rows[from..to] == rows[from..done] + rows[done..to];
      ImportedAppend(sofar, rows[from..done], rows[done..to]);
      assert rows[..to] == rows[..done] + rows[done..to];
      ImportedAppend(docs, rows[..done], rows[done..to]);
    } else {
      assert end == to;
    }
  }

  // ----- What the counters say about the documents -----

  /** The i-th row is valid, has this key, and nothing keeps a document from being stored. */
  predicate Puts(rows: seq<Row>, faults: nat -> Fault, i: nat, key: (string, string)) {
    i < |rows| && ValidRow(rows[i]) && faults(i).Stores() && Key(DocOf(rows[i])) == key
  }

  /** The i-th row is the first to store its key, and its vector fails. */
  ghost predicate FirstUnvectored(docs: seq<Doc>, rows: seq<Row>, faults: nat -> Fault, i: nat) {
    && i < |rows| && ValidRow(rows[i]) && faults(i).VectorFails?
    && var key := Key(DocOf(rows[i]));
    && !Has(docs, key) && forall j: nat :: j < i ==> !Puts(rows, faults, j, key)
  }

  /** How many rows are the first to store their key, but without a vector. */
  ghost function Unvectored(docs: seq<Doc>, rows: seq<Row>, faults: nat -> Fault): nat {
    if rows == [] then 0
    else
      var k := |rows| - 1;
      Unvectored(docs, rows[..k], faults) + if FirstUnvectored(docs, rows, faults, k) then 1 else 0
  }

  lemma {:induction false} HasOneMore(docs: seq<Doc>, d: Doc, key: (string, string))
    ensures Has(docs + [d], key) <==> Has(docs, key) || Key(d) == key
  {
    assert forall e :: e in docs + [d] <==> e in docs || e == d;
  }

  /** Whatever fails, the store holds a key exactly when it held it before or some row put it there. */
  lemma {:induction false} RunHasExactly(docs: seq<Doc>, rows: seq<Row>, faults: nat -> Fault, key: (string, string))
    ensures Has(Run(docs, rows, faults).docs, key) <==>
      Has(docs, key) || exists j: nat :: j < |rows| && Puts(rows, faults, j, key)
  {
    if rows != [] {
      var k := |rows| - 1;
      RunHasExactly(docs, rows[..k], faults, key);
      assert forall j: nat :: j < k ==> Puts(rows[..k], faults, j, key) == Puts(rows, faults, j, key);
      var before := Run(docs, rows[..k], faults).docs;
      assert (exists j: nat :: j < |rows| && Puts(rows, faults, j, key)) <==>
        (exists j: nat :: j < k && Puts(rows[..k], faults, j, key)) || Puts(rows, faults, k, key);
      if ValidRow(rows[k]) {
        HasOneMore(before, DocOf(rows[k]), key);
      }
      assert Run(docs, rows, faults).docs == DocsAfter(before, rows[k], faults(k));
    }
  }

  /** The i-th row is valid, and its key is in the store before it: from the start, or put there by an earlier row. */
  ghost predicate KnownBefore(docs: seq<Doc>, rows: seq<Row>, faults: nat -> Fault, i: nat) {
    i < |rows| && ValidRow(rows[i]) &&
    (Has(docs, Key(DocOf(rows[i]))) || exists j: nat :: j < i && Puts(rows, faults, j, Key(DocOf(rows[i]))))
  }

  /** How far the counters moved, and the problems that were added. */
  predicate Moved(p: Progress, q: Progress, success: nat, failed: nat, skipped: nat, problems: seq<Problem>) {
    && q.total == p.total + 1 && q.success == p.success + success
    && q.failed == p.failed + failed && q.skipped == p.skipped + skipped
    && q.problems == p.problems + problems
  }

  /** The i-th row failed for this reason, of which the first 200 characters are kept. */
  predicate FailedFor(p: Progress, q: Progress, row: Row, reason: string) {
    Moved(p, q, 0, 1, 0, [Problem(row.line, RowTitle(row), reason[..Min(200, |reason|)], KindFailed)])
  }

  lemma ShortenedIsPrefix(reason: string)
    ensures Shortened(reason) == reason[..Min(200, |reason|)]
  {
    assert reason[..|reason|] == reason;
  }

  lemma NoticesAreShort()
    ensures Shortened(INVALID) == INVALID && Shortened(DUPLICATE) == DUPLICATE
  {
    assert |INVALID| == 4 && |DUPLICATE| == 26;
  }

  /**
   What becomes of each row, told by the rows and faults up to it: an invalid row fails, then one
   that cannot be looked up; one whose key is known is skipped; any other succeeds unless it cannot be
   stored or gets no vector.
   */
  lemma {:induction false} EveryRowIsReported(docs: seq<Doc>, rows: seq<Row>, faults: nat -> Fault, i: nat)
    requires i < |rows|
    ensures var p, q := Run(docs, rows[..i], faults), Run(docs, rows[..i + 1], faults);
      if !ValidRow(rows[i]) then FailedFor(p, q, rows[i], INVALID)
      else if faults(i).LookupFails? then FailedFor(p, q, rows[i], faults(i).reason)
      else if KnownBefore(docs, rows, faults, i) then
        Moved(p, q, 0, 0, 1, [Problem(rows[i].line, RowTitle(rows[i]), DUPLICATE, KindSkipped)])
      else if faults(i).Fine? then Moved(p, q, 1, 0, 0, [])
      else FailedFor(p, q, rows[i], faults(i).reason)
  {
    var before := rows[..i];
    assert rows[..i + 1][..i] == before;
    var p := Run(docs, before, faults);
    assert p.problems + [] == p.problems;
    NoticesAreShort();
    ShortenedIsPrefix(INVALID);
    if !faults(i).Fine? {
      ShortenedIsPrefix(faults(i).reason);
    }
    if ValidRow(rows[i]) {
      var key := Key(DocOf(rows[i]));
      RunHasExactly(docs, before, faults, key);
      assert forall j: nat :: j < i ==> Puts(before, faults, j, key) == Puts(rows, faults, j, key);
    }
  }

  /** A row is unvectored exactly when its document is new where the import has come to, and its vector fails. */
  lemma {:induction false} UnvectoredIsFresh(docs: seq<Doc>, rows: seq<Row>, faults: nat -> Fault)
    requires rows != []
    ensures var k := |rows| - 1;
      FirstUnvectored(docs, rows, faults, k) <==>
        Fresh(Run(docs, rows[..k], faults).docs, rows[k]) && faults(k).VectorFails?
  {
    var k := |rows| - 1;
    if ValidRow(rows[k]) {
      var key := Key(DocOf(rows[k]));
      RunHasExactly(docs, rows[..k], faults, key);
      assert forall j: nat :: j < k ==> Puts(rows[..k], faults, j, key) == Puts(rows, faults, j, key);
    }
  }

  /**
   A success is a new document, but not the other way round: the documents grow by the successes
   and by the rows that are the first to store their key while their vector fails.
   */
  lemma {:induction false} SuccessesAreNewDocs(docs: seq<Doc>, rows: seq<Row>, faults: nat -> Fault)
    ensures var p := Run(docs, rows, faults);
      |p.docs| == |docs| + p.success + Unvectored(docs, rows, faults)
  {
    if rows != [] {
      SuccessesAreNewDocs(docs, rows[..|rows| - 1], faults);
      UnvectoredIsFresh(docs, rows, faults);
    }
  }

  lemma {:induction false} NoneUnvectored(docs: seq<Doc>, rows: seq<Row>, faults: nat -> Fault)
    ensures Unvectored(docs, rows, faults) == 0 <==>
      forall i: nat :: i < |rows| ==> !FirstUnvectored(docs, rows, faults, i)
  {
    if rows != [] {
      var k := |rows| - 1;
      NoneUnvectored(docs, rows[..k], faults);
      forall i: nat | i < k
        ensures FirstUnvectored(docs, rows[..k], faults, i) <==> FirstUnvectored(docs, rows, faults, i)
      {
        if ValidRow(rows[i]) {
          var key := Key(DocOf(rows[i]));
          assert forall j: nat :: j < i ==> Puts(rows[..k], faults, j, key) == Puts(rows, faults, j, key);
        }
      }
    }
  }

  /** The successes count the new documents exactly when no first row of a key loses its vector. */
  lemma {:induction false} SuccessesCountNewDocsExactly(docs: seq<Doc>, rows: seq<Row>, faults: nat -> Fault)
    ensures var p := Run(docs, rows, faults);
      |p.docs| == |docs| + p.success <==> forall i: nat :: i < |rows| ==> !FirstUnvectored(docs, rows, faults, i)
  {
    SuccessesAreNewDocs(docs, rows, faults);
    NoneUnvectored(docs, rows, faults);
  }

  /**
   A new row whose vector fails is reported as failed although its document is stored, and the next
   attempt, with nothing failing, skips it as a duplicate.
   */
  lemma {:induction false} UnvectoredIsSkippedLater(docs: seq<Doc>, row: Row, reason: string)
    requires Fresh(docs, row)
    ensures var first := Run(docs, [row], _ => VectorFails(reason));
      var second := Run(first.docs, [row], _ => Fine);
      && first.docs == docs + [DocOf(row)] && first.success == 0 && first.failed == 1
      && second.docs == first.docs && second.success == 0 && second.failed == 0 && second.skipped == 1
  {
    assert [row][..0] == [];
    HasOneMore(docs, DocOf(row), Key(DocOf(row)));
  }
}
