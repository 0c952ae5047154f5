/**
 The raw records of tool calls: full results are stored under a handle when they are truncated for
 the model, and read back page by page. Handles are row ids; 0 is not a valid one.
 */
module ToolRecords {
  import opened Wrappers
  import opened Truncation
  import opened Llm

  /** The identity a request's context carries; 0 stands for a missing turn or conversation. */
  datatype Scope = Scope(turn: nat, session: nat, owner: nat) {
    predicate Complete() {
      turn != 0 && session != 0
    }
  }

  /** `ToolRecordSpill`, without the sequence number, arguments and duration. */
  datatype Spill = Spill(callId: string, tool: string, status: ToolStatus, content: string, preview: string,
                         spilled: bool, code: ErrorCode)

  datatype Record = Record(turn: nat, session: nat, owner: nat, callId: string, tool: string, status: ToolStatus,
                           content: string, preview: string, spilled: bool, code: ErrorCode)

  datatype Table = Table(records: map<nat, Record>, nextId: nat) {
    ghost predicate Valid() {
      nextId > 0 && forall id :: id in records ==> 0 < id < nextId
    }
  }

  datatype Error = NoTurnScope | Forbidden | Unavailable

  function RecordOf(scope: Scope, input: Spill): Record {
    Record(scope.turn, scope.session, scope.owner, input.callId, input.tool, input.status,
           input.content, input.preview, input.spilled, input.code)
  }

  function Create(t: Table, scope: Scope, input: Spill): Table {
    Table(t.records[t.nextId := RecordOf(scope, input)], t.nextId + 1)
  }

  predicate Matches(t: Table, scope: Scope, callId: string, id: nat) {
    id in t.records && t.records[id].turn == scope.turn && t.records[id].callId == callId
  }

  /**
   What `UpsertToolRecord` may do: refresh the status of any one matching row, or add a row; nothing
   when it has no scope, its lookup fails or its write does not land.
   */
  ghost predicate Upserted(t: Table, t': Table, scope: Scope, input: Spill, find: Db, write: Db) {
    if !scope.Complete() || !find.Acked? || write.Refused? then t' == t
    else if exists id :: Matches(t, scope, input.callId, id) then
      exists id :: Matches(t, scope, input.callId, id) &&
        t' == t.(records := t.records[id := t.records[id].(status := input.status, code := input.code)])
    else t' == Create(t, scope, input.(spilled := false, preview := input.content))
  }

  /** What `SpillToolResult` does: a lost reply leaves a row whose handle nobody learns. */
  ghost predicate Spilled(t: Table, t': Table, scope: Scope, input: Spill, db: Db) {
    t' == if scope.Complete() && !db.Refused? then Create(t, scope, input) else t
  }

  datatype Op =
    | DoSpill(scope: Scope, input: Spill, db: Db)
    | DoUpsert(scope: Scope, input: Spill, find: Db, write: Db)

  ghost predicate Step(t: Table, t': Table, op: Op) {
    match op
    case DoSpill(scope, input, db) => Spilled(t, t', scope, input, db)
    case DoUpsert(scope, input, find, write) => Upserted(t, t', scope, input, find, write)
  }

  /** What never changes about a stored result: whose it is and its full text. */
  ghost predicate Keeps(t: Table, t': Table) {
    forall id :: id in t.records ==>
      && id in t'.records
      && t'.records[id].content == t.records[id].content
      && t'.records[id].session == t.records[id].session
      && t'.records[id].owner == t.records[id].owner
  }

  lemma StepKeeps(t: Table, t': Table, op: Op)
    requires t.Valid() && Step(t, t', op)
    ensures t'.Valid() && Keeps(t, t')
  {
    if op.DoUpsert? && op.scope.Complete() && op.find.Acked? && !op.write.Refused? {
      if exists id :: Matches(t, op.scope, op.input.callId, id) {
        var id :| Matches(t, op.scope, op.input.callId, id) &&
          t' == t.(records := t.records[id := t.records[id].(status := op.input.status, code := op.input.code)]);
      }
    }
  }

  /**
   A handle's text is written once: whatever spills and upserts follow, of any calls in any
   turns, the text and the owner behind every existing handle stay the same.
   */
  lemma {:induction false} ContentNeverChanges(tables: seq<Table>, ops: seq<Op>)
    requires |tables| == |ops| + 1 && tables[0].Valid()
    requires forall i :: 0 <= i < |ops| ==> Step(tables[i], tables[i + 1], ops[i])
    ensures tables[|ops|].Valid() && Keeps(tables[0], tables[|ops|])
  {
    if |ops| > 0 {
      StepKeeps(tables[0], tables[1], ops[0]);
      forall i | 0 <= i < |ops| - 1
        ensures Step(tables[1..][i], tables[1..][i + 1], ops[1..][i])
      {
        assert Step(tables[i + 1], tables[i + 2], ops[i + 1]);
      }
      ContentNeverChanges(tables[1..], ops[1..]);
    }
  }

  // ----- Reading back -----

  const DEFAULT_LIMIT := 4000
  const MAX_LIMIT := 8000

  function Offset(offset: int, total: nat): nat {
    if offset < 0 then 0 else if offset > total then total else offset
  }

  function Limit(limit: int): nat {
    if limit <= 0 then DEFAULT_LIMIT else if limit > MAX_LIMIT then MAX_LIMIT else limit
  }

  function Page(content: string, offset: int, limit: int): string {
    content[Offset(offset, |content|)..Min(Offset(offset, |content|) + Limit(limit), |content|)]
  }

  /** A page read at the end of what was read before continues it, and is not empty before the end. */
  lemma {:induction false} PageContinues(content: string, from: nat, limit: int)
    requires from <= |content|
    ensures var page := Page(content, from, limit);
      && from + |page| <= |content|
      && content[..from] + page == content[..from + |page|]
      && (from < |content| ==> |page| > 0)
  {
  }

  /**
   A page begins at the offset, or at the nearer end of the text if that is outside it, and has as
   many characters as were asked for, if so many are left: 4000 when none were asked for, and never
   more than 8000.
   */
  lemma {:induction false} PageIsWhatWasAsked(content: string, offset: int, limit: int)
    ensures var page := Page(content, offset, limit);
      var from := if offset < 0 then 0 else Min(offset, |content|);
      && from + |page| <= |content| && page == content[from..from + |page|]
      && (from + |page| < |content| ==> |page| == if limit < 1 then 4000 else Min(limit, 8000))
      && |page| <= if limit < 1 then 4000 else Min(limit, 8000)
  {
  }

  predicate Readable(t: Table, scope: Scope, handle: nat) {
    scope.Complete() && handle != 0 && handle in t.records
    && t.records[handle].session == scope.session && t.records[handle].owner == scope.owner
  }

  /**
   A stored text is for its own session and owner alone: after any spills and upserts, a scope reads
   the handle exactly when it has a turn and is of the session and the owner that stored it.
   */
  lemma {:induction false} OnlyItsOwnReads(tables: seq<Table>, ops: seq<Op>, scope: Scope, input: Spill, reader: Scope)
    requires |tables| == |ops| + 1 && tables[0].Valid() && scope.turn != 0 && scope.session != 0
    requires ops != [] && (ops[0] == DoSpill(scope, input, Acked) || ops[0] == DoSpill(scope, input, Unacked))
    requires forall i :: 0 <= i < |ops| ==> Step(tables[i], tables[i + 1], ops[i])
    ensures var last, handle := tables[|ops|], tables[0].nextId;
      && (Readable(last, reader, handle) <==>
            reader.turn != 0 && reader.session == scope.session && reader.owner == scope.owner)
      && handle in last.records && last.records[handle].content == input.content
  {
    assert Step(tables[0], tables[1], ops[0]);
    StepKeeps(tables[0], tables[1], ops[0]);
    forall i | 0 <= i < |ops| - 1
      ensures Step(tables[1..][i], tables[1..][i + 1], ops[1..][i])
    {
      assert Step(tables[i + 1], tables[i + 2], ops[i + 1]);
    }
    ContentNeverChanges(tables[1..], ops[1..]);
  }

  /**
   An upsert that lands leaves a row of the call with its status and code; every other row stays as it
   was, and a row is added exactly when the call had none.
   */
  lemma {:induction false} UpsertsLand(t: Table, t': Table, scope: Scope, input: Spill, write: Db) returns (id: nat)
    requires t.Valid() && scope.turn != 0 && scope.session != 0 && !write.Refused?
    requires Step(t, t', DoUpsert(scope, input, Acked, write))
    ensures id in t'.records && t'.records[id].turn == scope.turn && t'.records[id].callId == input.callId
    ensures t'.records[id].status == input.status && t'.records[id].code == input.code
    ensures forall other :: other in t.records && other != id ==>
      other in t'.records && t'.records[other] == t.records[other]
    ensures t'.records.Keys == t.records.Keys + {id}
    ensures id !in t.records <==>
      forall k :: k in t.records ==> t.records[k].turn != scope.turn || t.records[k].callId != input.callId
  {
    if exists k :: Matches(t, scope, input.callId, k) {
      id :| Matches(t, scope, input.callId, id) &&
        t' == t.(records := t.records[id := t.records[id].(status := input.status, code := input.code)]);
    } else {
      id := t.nextId;
      assert forall k :: k in t.records && t.records[k].turn == scope.turn && t.records[k].callId == input.callId ==>
        Matches(t, scope, input.callId, k);
    }
  }

  /** Pages no longer than 8000 characters are shown as they are, exactly when the limit is off or at least 8000. */
  lemma PagesAreNeverCut(limit: int)
    ensures (forall content: string, offset, want, handle ::
              Shown(limit, TOOL_RESULT_READ, Page(content, offset, want), handle) == Page(content, offset, want))
       <==> limit <= 0 || limit >= MAX_LIMIT
  {
    if limit <= 0 || limit >= MAX_LIMIT {
      forall content: string, offset, want, handle
        ensures Shown(limit, TOOL_RESULT_READ, Page(content, offset, want), handle) == Page(content, offset, want)
      {
        assert |Page(content, offset, want)| <= MAX_LIMIT;
      }
    } else {
      var long := seq(MAX_LIMIT, _ => 'x');
      var page := Page(long, 0, MAX_LIMIT);
      assert page == long;
      PreviewIsBounded(limit, page);
      assert Shown(limit, TOOL_RESULT_READ, Page(long, 0, MAX_LIMIT), None) != page;
    }
  }

  // ----- The store -----

  class RecordStore {
    var records: map<nat, Record>
    var nextId: nat

    ghost function Abs(): Table
      reads this
    {
      Table(records, nextId)
    }

    constructor ()
      ensures Abs() == Table(map[], 1) && Abs().Valid()
    {
      records, nextId := map[], 1;
    }

    method CreateToolRecord(scope: Scope, input: Spill, db: Db) returns (res: Result<nat, Error>)
      requires Abs().Valid()
      modifies this
      ensures Abs().Valid()
      ensures Abs() == if db.Refused? then old(Abs()) else Create(old(Abs()), scope, input)
      ensures res == if db.Acked? then Success(old(nextId)) else Failure(Unavailable)
    {
      var handle := nextId;
      if !db.Refused? {
        records := records[handle := RecordOf(scope, input)];
        nextId := handle + 1;
      }
      res := if db.Acked? then Success(handle) else Failure(Unavailable);
    }

    /** Stores the full text of a truncated result; the handle is new and reads exactly that text. */
    method SpillToolResult(scope: Scope, input: Spill, db: Db) returns (res: Result<nat, Error>)
      requires Abs().Valid()
      modifies this
      ensures Abs().Valid() && Spilled(old(Abs()), Abs(), scope, input, db)
      ensures res.Success? <==> scope.Complete() && db.Acked?
      ensures res.Success? ==>
        && res.value !in old(records)
        && Readable(Abs(), scope, res.value)
        && records[res.value].content == input.content
    {
      if !scope.Complete() {
        return Failure(NoTurnScope);
      }
      res := CreateToolRecord(scope, input, db);
    }

    /** One row per (turn, call): refreshes its status, or adds the row if there is none. */
    method UpsertToolRecord(scope: Scope, input: Spill, find: Db, write: Db) returns (res: Result<(), Error>)
      requires Abs().Valid()
      modifies this
      ensures Abs().Valid() && Upserted(old(Abs()), Abs(), scope, input, find, write) && Keeps(old(Abs()), Abs())
      ensures res.Success? <==> scope.Complete() && find.Acked? && write.Acked?
    {
      ghost var t := Abs();
      if !scope.Complete() {
        return Failure(NoTurnScope);
      }
      var exist := FindToolRecord(scope, input.callId, find);
      if exist.Failure? {
        return Failure(exist.error);
      }
      if exist.value.Some? {
        var id := exist.value.value;
        if !write.Refused? {
          records := records[id := records[id].(status := input.status, code := input.code)];
        }
        assert Matches(t, scope, input.callId, id);
      } else {
        var _ := CreateToolRecord(scope, input.(spilled := false, preview := input.content), write);
      }
      StepKeeps(t, Abs(), DoUpsert(scope, input, find, write));
      res := if write.Acked? then Success(()) else Failure(Unavailable);
    }

    /** Some row of the turn and call, in no particular order. */
    method FindToolRecord(scope: Scope, callId: string, db: Db) returns (res: Result<Option<nat>, Error>)
      ensures res.Success? <==> db.Acked?
      ensures res.Success? && res.value.Some? ==> Matches(Abs(), scope, callId, res.value.value)
      ensures res.Success? && res.value.None? ==> forall id :: !Matches(Abs(), scope, callId, id)
    {
      if !db.Acked? {
        return Failure(Unavailable);
      }
      var hits := set id | id in records && records[id].turn == scope.turn && records[id].callId == callId;
      if hits == {} {
        forall id
          ensures !Matches(Abs(), scope, callId, id)
        {
          assert id !in hits;
        }
        return Success(None);
      }
      var id :| id in hits;
      res := Success(Some(id));
    }

    /** One page of a stored result and the total length, for the same session and owner only. */
    method ReadToolRecord(scope: Scope, handle: nat, offset: int, limit: int, db: Db)
      returns (res: Result<(string, nat), Error>)
      ensures res.Success? <==> Readable(Abs(), scope, handle) && db.Acked?
      ensures res.Success? ==> records[handle].session == scope.session && records[handle].owner == scope.owner
      ensures res.Success? ==>
        var content := records[handle].content;
        && res.value == (Page(content, offset, limit), |content|)
      ensures res == Failure(Unavailable) <==> scope.Complete() && handle != 0 && !db.Acked?
    {
      if !scope.Complete() || handle == 0 {
        return Failure(Forbidden);
      }
      if !db.Acked? {
        return Failure(Unavailable);
      }
      if handle !in records || records[handle].session != scope.session || records[handle].owner != scope.owner {
        return Failure(Forbidden);
      }
      var runes := records[handle].content;
      var total := |runes|;
      var from, count := offset, limit;
      if from < 0 {
        from := 0;
      }
      if from > total {
        from := total;
      }
      if count <= 0 {
        count := DEFAULT_LIMIT;
      }
      if count > MAX_LIMIT {
        count := MAX_LIMIT;
      }
      var end := from + count;
      if end > total {
        end := total;
      }
      res := Success((runes[from..end], total));
    }

    method Do(op: Op)
      requires Abs().Valid()
      modifies this
      ensures Abs().Valid() && Step(old(Abs()), Abs(), op) && Keeps(old(Abs()), Abs())
    {
      ghost var t := Abs();
      match op {
        case DoSpill(scope, input, db) => var _ := SpillToolResult(scope, input, db);
        case DoUpsert(scope, input, find, write) => var _ := UpsertToolRecord(scope, input, find, write);
      }
      StepKeeps(t, Abs(), op);
    }

    /** Any operations, one after the other. */
    method DoAll(ops: seq<Op>)
      requires Abs().Valid()
      modifies this
      ensures Abs().Valid() && Keeps(old(Abs()), Abs())
    {
      for i := 0 to |ops|
        invariant Abs().Valid() && Keeps(old(Abs()), Abs())
      {
        Do(ops[i]);
      }
    }
  }

  /**
   Reading a handle from offset 0, each time at the offset the returned lengths add up to, until
   they reach the returned total, ends and yields the full text: with any requested limits, and with
   any other call's record written before each page.
   */
  method ReadAll(sto: RecordStore, scope: Scope, handle: nat, limits: nat -> int, between: nat -> Op)
    returns (text: string, pages: nat)
    requires sto.Abs().Valid() && Readable(sto.Abs(), scope, handle)
    modifies sto
    ensures text == old(sto.records[handle].content)
    ensures sto.Abs().Valid() && Readable(sto.Abs(), scope, handle) && sto.records[handle].content == text
    ensures pages <= Max(1, |text|)
  {
    ghost var full := sto.records[handle].content;
    sto.Do(between(0));
    var page := sto.ReadToolRecord(scope, handle, 0, limits(0), Acked);
    PageContinues(full, 0, limits(0));
    var total := page.value.1;
    text, pages := page.value.0, 1;
    while |text| < total
      invariant sto.Abs().Valid() && Readable(sto.Abs(), scope, handle)
      invariant sto.records[handle].content == full && total == |full|
      invariant |text| <= total && text == full[..|text|]
      invariant pages <= Max(1, |text|)
      decreases total - |text|
    {
      sto.Do(between(pages));
      page := sto.ReadToolRecord(scope, handle, |text|, limits(pages), Acked);
      PageContinues(full, |text|, limits(pages));
      text, pages := text + page.value.0, pages + 1;
    }
    assert full[..|full|] == full;
  }
}
