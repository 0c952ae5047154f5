/** One batch of tool calls: concurrent execution, results in call order. */
module ToolExecutor {
  import opened Wrappers
  import opened Llm
  import opened Truncation
  import ToolRecords

  /** `ToolSeqCounter`. */
  class ToolSeqCounter {
    var n: int

    constructor ()
      ensures n == 0
    {
      n := 0;
    }

    /** Reserves `count` numbers and returns the first of them. */
    method Next(count: nat) returns (base: int)
      modifies this
      ensures base == old(n) && n == old(n) + count
    {
      n := n + count;
      base := n - count;
    }
  }

  /**
   How a call that gets as far as its hook and its tool comes out. `handle` is what the spiller
   returned, if there is one and it worked; `Lost` is a goroutine that ends without a result.
   */
  datatype Outcome =
    | Blocked(reason: string)
    | InvokeFailed(error: string)
    | Returned(text: string, terminate: bool, isError: bool, handle: Option<string>)
    | Panicked(detail: string)
    | Lost

  /**
   What the executor's texts depend on: truncation, what is shown of a result, the JSON parser's
   verdict on arguments, and the wording of error texts.
   */
  datatype Env = Env(cut: string -> string, show: (string, string, Option<string>) -> string,
                     parseError: string -> Option<string>, describe: (string, ErrorCode, string) -> string)

  /** The executor under a limit of `limit` characters. */
  function LimitedEnv(limit: int, parseError: string -> Option<string>,
                      describe: (string, ErrorCode, string) -> string): Env {
    Env(text => Truncate(limit, text), (tool, full, handle) => Shown(limit, tool, full, handle), parseError, describe)
  }

  function ErrorResult(env: Env, tc: ToolCall, code: ErrorCode, detail: string, seqNo: int): ToolResult {
    ToolResult(tc.id, tc.name, env.cut(env.describe(tc.name, code, detail)), false,
               if code.Rejected? then StatusRejected else StatusError, code, tc.arguments, seqNo)
  }

  /** `callTool`: what one goroutine leaves in its slot. */
  function CallTool(env: Env, tc: ToolCall, outcome: Outcome, seqNo: int): Option<ToolResult> {
    if tc.typ != "function" then Some(ErrorResult(env, tc, UnsupportedType, tc.typ, seqNo))
    else if tc.arguments != "" && tc.arguments != "{}" && env.parseError(tc.arguments).Some? then
      Some(ErrorResult(env, tc, InvalidArguments, env.parseError(tc.arguments).value, seqNo))
    else
      match outcome
      case Blocked(reason) => Some(ErrorResult(env, tc, Rejected, reason, seqNo))
      case InvokeFailed(error) => Some(ErrorResult(env, tc, ExecutionFailed, error, seqNo))
      case Panicked(detail) => Some(ErrorResult(env, tc, Panic, detail, seqNo))
      case Returned(text, terminate, isError, handle) =>
        Some(ToolResult(tc.id, tc.name, env.show(tc.name, text, handle), terminate,
                        if isError then StatusError else StatusOk, if isError then ToolError else NoError,
                        tc.arguments, seqNo))
      case Lost => None
  }

  /** A slot that no goroutine filled gets an error result, so that every call stays answered. */
  function Filled(env: Env, tc: ToolCall, slot: Option<ToolResult>, seqNo: int): ToolResult {
    slot.GetOr(ErrorResult(env, tc, ExecutionFailed, "tool call did not complete", seqNo))
  }

  /** The slots after every goroutine has ended. */
  function Slots(env: Env, calls: seq<ToolCall>, outcomes: seq<Outcome>, base: int): seq<Option<ToolResult>>
    requires |outcomes| == |calls|
  {
    seq(|calls|, i requires 0 <= i < |calls| => CallTool(env, calls[i], outcomes[i], base + i))
  }

  function FillAll(env: Env, calls: seq<ToolCall>, slots: seq<Option<ToolResult>>, base: int): (rs: seq<ToolResult>)
    requires |slots| == |calls|
    ensures |rs| == |calls|
  {
    seq(|calls|, i requires 0 <= i < |calls| => Filled(env, calls[i], slots[i], base + i))
  }

  /** What the calls end up with, in call order. */
  function Results(env: Env, calls: seq<ToolCall>, outcomes: seq<Outcome>, base: int): (rs: seq<ToolResult>)
    requires |outcomes| == |calls|
    ensures |rs| == |calls|
  {
    FillAll(env, calls, Slots(env, calls, outcomes, base), base)
  }

  /** The call gets as far as its hook. */
  predicate Reaches(env: Env, tc: ToolCall) {
    tc.typ == "function" && (tc.arguments == "" || tc.arguments == "{}" || env.parseError(tc.arguments).None?)
  }

  /** What a result says of an outcome, field by field; `seqNo` is the call's number. */
  predicate Tells(env: Env, tc: ToolCall, outcome: Outcome, seqNo: int, r: ToolResult) {
    && r.callId == tc.id && r.name == tc.name && r.arguments == tc.arguments && r.seqNo == seqNo
    && (r.status.StatusOk? <==> Reaches(env, tc) && outcome.Returned? && !outcome.isError)
    && (r.status.StatusRejected? <==> Reaches(env, tc) && outcome.Blocked?)
    && (r.terminate <==> Reaches(env, tc) && outcome.Returned? && outcome.terminate)
    && match r.code
       case NoError => r.status.StatusOk? && r.content == env.show(tc.name, outcome.text, outcome.handle)
       case ToolError =>
         Reaches(env, tc) && outcome.Returned? && r.content == env.show(tc.name, outcome.text, outcome.handle)
       case Rejected =>
         r.status.StatusRejected? && r.content == env.cut(env.describe(tc.name, Rejected, outcome.reason))
       case Panic =>
         Reaches(env, tc) && outcome.Panicked? && r.content == env.cut(env.describe(tc.name, Panic, outcome.detail))
       case UnsupportedType =>
         tc.typ != "function" && r.content == env.cut(env.describe(tc.name, UnsupportedType, tc.typ))
       case InvalidArguments =>
         && !Reaches(env, tc) && tc.typ == "function"
         && r.content == env.cut(env.describe(tc.name, InvalidArguments, env.parseError(tc.arguments).value))
       case ExecutionFailed =>
         && Reaches(env, tc) && (outcome.InvokeFailed? || outcome.Lost?)
         && r.content == env.cut(env.describe(tc.name, ExecutionFailed,
                                   if outcome.InvokeFailed? then outcome.error else "tool call did not complete"))
  }

  /** Each call of a batch is answered by its own result, which tells how it came out, in an event and in a message. */
  lemma {:induction false} BatchTells(env: Env, messages: seq<Message>, calls: seq<ToolCall>, think: string,
                                      outcomes: seq<Outcome>, base: int, i: nat) returns (r: ToolResult)
    requires i < |calls| == |outcomes|
    ensures Tells(env, calls[i], outcomes[i], base + i, r)
    ensures var (events, updated, stop) := Batch(env, messages, calls, think, outcomes, base);
      && |events| == |calls| && |updated| == |messages| + 1 + |calls| && updated[..|messages|] == messages
      && events[i] == Event("", "", [], "", false, None, Some(r))
      && updated[|messages|] == Message(ASSISTANT, "", think, calls, "")
      && updated[|messages| + 1 + i] == Message(TOOL, r.content, "", [], calls[i].id)
      && (stop ==> r.terminate)
  {
    var rs := Results(env, calls, outcomes, base);
    r := rs[i];
    assert r == Filled(env, calls[i], CallTool(env, calls[i], outcomes[i], base + i), base + i);
    var more := BatchMessages(calls, think, rs);
    assert more[0] == Message(ASSISTANT, "", think, calls, "") && more[1 + i] == ToolMessage(calls[i], r);
  }

  /** How much longer than the limit the text of this outcome may be. */
  function Excess(env: Env, tc: ToolCall, outcome: Outcome): nat {
    if Reaches(env, tc) && outcome.Returned? && outcome.handle.Some? then |SpillNotice(outcome.handle.value)| else 0
  }

  /** Everything this executor shows or cuts is within the limit, but for a handle. */
  ghost predicate Limits(env: Env, limit: int) {
    && (forall text :: |env.cut(text)| <= limit)
    && (forall tool, full, handle: Option<string> ::
          |env.show(tool, full, handle)| <= limit + if handle.Some? then |SpillNotice(handle.value)| else 0)
  }

  lemma {:induction false} LimitedEnvLimits(limit: int, parseError: string -> Option<string>,
                                            describe: (string, ErrorCode, string) -> string)
    requires 0 < limit <= MAX_INT
    ensures Limits(LimitedEnv(limit, parseError, describe), limit)
  {
    var env := LimitedEnv(limit, parseError, describe);
    forall text
      ensures |env.cut(text)| <= limit
    {
      PreviewIsBounded(limit, text);
    }
    forall tool, full, handle: Option<string>
      ensures |env.show(tool, full, handle)| <= limit + if handle.Some? then |SpillNotice(handle.value)| else 0
    {
      ShownPassesTheLimitExactly(limit, tool, full, handle);
    }
  }

  lemma {:induction false} ToldTextIsBounded(limit: int, env: Env, tc: ToolCall, outcome: Outcome, seqNo: int,
                                             r: ToolResult)
    requires Limits(env, limit) && Tells(env, tc, outcome, seqNo, r)
    ensures |r.content| <= limit + Excess(env, tc, outcome)
  {
  }

  /**
   Under a limit no tool message is longer than it, error texts included, but for the handle notice of
   a text that was stored.
   */
  lemma {:induction false} BatchTextsAreBounded(limit: int, parseError: string -> Option<string>,
                                                describe: (string, ErrorCode, string) -> string,
                                                messages: seq<Message>, calls: seq<ToolCall>, think: string,
                                                outcomes: seq<Outcome>, base: int, i: nat)
    requires 0 < limit <= MAX_INT && i < |calls| == |outcomes|
    ensures var env := LimitedEnv(limit, parseError, describe);
      var updated := Batch(env, messages, calls, think, outcomes, base).1;
      && |updated| == |messages| + 1 + |calls|
      && |updated[|messages| + 1 + i].content| <= limit + Excess(env, calls[i], outcomes[i])
  {
    var env := LimitedEnv(limit, parseError, describe);
    var r := BatchTells(env, messages, calls, think, outcomes, base, i);
    LimitedEnvLimits(limit, parseError, describe);
    ToldTextIsBounded(limit, env, calls[i], outcomes[i], base + i, r);
  }

  /** Each result belongs to its call and carries its call's number. */
  lemma {:induction false} ResultsMatchCalls(env: Env, calls: seq<ToolCall>, outcomes: seq<Outcome>, base: int)
    requires |outcomes| == |calls|
    ensures var rs := Results(env, calls, outcomes, base);
      forall i :: 0 <= i < |calls| ==>
        rs[i].callId == calls[i].id && rs[i].name == calls[i].name && rs[i].seqNo == base + i
  {
    var rs := Results(env, calls, outcomes, base);
    forall i | 0 <= i < |calls|
      ensures rs[i].callId == calls[i].id && rs[i].name == calls[i].name && rs[i].seqNo == base + i
    {
      assert rs[i] == Filled(env, calls[i], CallTool(env, calls[i], outcomes[i], base + i), base + i);
    }
  }

  function ResultEvent(r: ToolResult): Event {
    Event("", "", [], "", false, None, Some(r))
  }

  function ResultEvents(rs: seq<ToolResult>): seq<Event> {
    Map(ResultEvent, rs)
  }

  function ToolMessage(tc: ToolCall, r: ToolResult): Message {
    Message(TOOL, r.content, "", [], tc.id)
  }

  function ToolMessages(calls: seq<ToolCall>, rs: seq<ToolResult>): (ms: seq<Message>)
    requires |rs| == |calls|
    ensures |ms| == |rs| && forall i :: 0 <= i < |rs| ==> ms[i] == ToolMessage(calls[i], rs[i])
  {
    seq(|rs|, i requires 0 <= i < |rs| => ToolMessage(calls[i], rs[i]))
  }

  /** The assistant message with its calls, and one tool message for each of them. */
  function BatchMessages(calls: seq<ToolCall>, think: string, rs: seq<ToolResult>): seq<Message>
    requires |rs| == |calls|
  {
    [Message(ASSISTANT, "", think, calls, "")] + ToolMessages(calls, rs)
  }

  predicate AllTerminate(rs: seq<ToolResult>) {
    forall i :: 0 <= i < |rs| ==> rs[i].terminate
  }

  /** What one batch adds up to: its events, the longer transcript, and whether to stop. */
  function Batch(env: Env, messages: seq<Message>, calls: seq<ToolCall>, think: string, outcomes: seq<Outcome>,
                 base: int): (seq<Event>, seq<Message>, bool)
    requires |outcomes| == |calls|
  {
    if calls == [] then ([], messages, false)
    else
      var rs := Results(env, calls, outcomes, base);
      (ResultEvents(rs), messages + BatchMessages(calls, think, rs), AllTerminate(rs))
  }

  lemma ToolMessageAnswers(tc: ToolCall, r: ToolResult)
    ensures TagOf(ToolMessage(tc, r)) == Answer(tc.id)
  {
    ToolIsKnown();
  }

  lemma AssistantAsks(calls: seq<ToolCall>, think: string)
    requires calls != []
    ensures TagOf(Message(ASSISTANT, "", think, calls, "")) == Ask(CallIds(calls))
  {
    AssistantIsKnown();
  }

  lemma ToolMessagesAnswer(calls: seq<ToolCall>, rs: seq<ToolResult>)
    requires |rs| == |calls|
    ensures TagsOf(ToolMessages(calls, rs)) == AnswerTags(CallIds(calls))
  {
    forall i | 0 <= i < |calls|
      ensures TagsOf(ToolMessages(calls, rs))[i] == Answer(calls[i].id)
    {
      ToolMessageAnswers(calls[i], rs[i]);
    }
  }

  lemma {:induction false} BatchIsPaired(calls: seq<ToolCall>, think: string, rs: seq<ToolResult>)
    requires |rs| == |calls| > 0
    ensures WellPaired(BatchMessages(calls, think, rs))
  {
    var asking := Message(ASSISTANT, "", think, calls, "");
    AssistantAsks(calls, think);
    ToolMessagesAnswer(calls, rs);
    MapAppend(TagOf, [asking], ToolMessages(calls, rs));
    GroupIsPaired(CallIds(calls));
    assert Map(TagOf, [asking]) == [Ask(CallIds(calls))];
  }

  lemma GroupIsPaired(ids: seq<string>)
    ensures Paired([Ask(ids)] + AnswerTags(ids))
  {
    var ts := [Ask(ids)] + AnswerTags(ids);
    assert ts[1..|ids| + 1] == AnswerTags(ids) && ts[|ids| + 1..] == [];
  }

  /** A completion order of `n` calls: every one of them ends, in any order. */
  ghost predicate Schedule(order: seq<nat>, n: nat) {
    (forall i :: 0 <= i < n ==> i in order) && (forall k :: 0 <= k < |order| ==> order[k] < n)
  }

  /** The concurrent part: each goroutine fills its own slot, in completion order. */
  method Dispatch(env: Env, calls: seq<ToolCall>, outcomes: seq<Outcome>, base: int, order: seq<nat>)
    returns (results: array<Option<ToolResult>>)
    requires |outcomes| == |calls| && Schedule(order, |calls|)
    ensures fresh(results) && results[..] == Slots(env, calls, outcomes, base)
  {
    ghost var slots := Slots(env, calls, outcomes, base);
    var n := |calls|;
    results := new Option<ToolResult>[n](_ => None);
    var k := 0;
    while k < |order|
      invariant 0 <= k <= |order|
      invariant forall i :: 0 <= i < n && i in order[..k] ==> results[i] == slots[i]
    {
      var i := order[k];
      results[i] := CallTool(env, calls[i], outcomes[i], base + i);
      assert order[..k + 1] == order[..k] + [i];
      k := k + 1;
    }
    assert order[..k] == order;
  }

  /** What the sequential part has gathered from the first results. */
  ghost predicate Collected(calls: seq<ToolCall>, rs: seq<ToolResult>, asking: seq<Message>,
                            events: seq<Event>, updated: seq<Message>, allTerminate: bool)
    requires |rs| == |calls|
  {
    && events == ResultEvents(rs)
    && updated == asking + ToolMessages(calls, rs)
    && allTerminate == AllTerminate(rs)
  }

  lemma CollectStep(calls: seq<ToolCall>, rs: seq<ToolResult>, i: nat, asking: seq<Message>,
                    events: seq<Event>, updated: seq<Message>, allTerminate: bool)
    requires |rs| == |calls| && i < |calls|
    requires Collected(calls[..i], rs[..i], asking, events, updated, allTerminate)
    ensures Collected(calls[..i + 1], rs[..i + 1], asking, events + [ResultEvent(rs[i])],
                      updated + [ToolMessage(calls[i], rs[i])], allTerminate && rs[i].terminate)
  {
    assert rs[..i + 1] == rs[..i] + [rs[i]];
    var before, one := ToolMessages(calls[..i], rs[..i]), [ToolMessage(calls[i], rs[i])];
    assert ToolMessages(calls[..i + 1], rs[..i + 1]) == before + one;
    assert asking + before + one == asking + (before + one);
  }

  /** The sequential part: the assistant message, then events and tool messages in call order. */
  method Collect(env: Env, calls: seq<ToolCall>, results: array<Option<ToolResult>>, base: int, think: string,
                 messages: seq<Message>)
    returns (events: seq<Event>, updated: seq<Message>, allTerminate: bool)
    requires results.Length == |calls|
    ensures var rs := FillAll(env, calls, results[..], base);
      && events == ResultEvents(rs)
      && updated == messages + BatchMessages(calls, think, rs)
      && allTerminate == AllTerminate(rs)
  {
    ghost var rs := FillAll(env, calls, results[..], base);
    var asking := messages + [Message(ASSISTANT, "", think, calls, "")];
    events, updated, allTerminate := [], asking, true;
    for i := 0 to |calls|
      invariant Collected(calls[..i], rs[..i], asking, events, updated, allTerminate)
    {
      var r := Filled(env, calls[i], results[i], base + i);
      assert r == rs[i];
      CollectStep(calls, rs, i, asking, events, updated, allTerminate);
      if !r.terminate {
        allTerminate := false;
      }
      events := events + [ResultEvent(r)];
      updated := updated + [ToolMessage(calls[i], r)];
    }
    assert rs[..|calls|] == rs && calls[..|calls|] == calls;
  }

  /**
   Whatever the completion order and however the calls come out, a batch yields exactly one event
   and one tool message per call, in call order, numbered from the counter.
   */
  method ExecuteToolCalls(env: Env, counter: ToolSeqCounter?, messages: seq<Message>, calls: seq<ToolCall>,
                          think: string, outcomes: seq<Outcome>, order: seq<nat>)
    returns (events: seq<Event>, updated: seq<Message>, allTerminate: bool)
    requires |outcomes| == |calls| && Schedule(order, |calls|)
    modifies counter
    ensures (events, updated, allTerminate) ==
      Batch(env, messages, calls, think, outcomes, if counter == null then 0 else old(counter.n))
    ensures counter != null ==> counter.n == old(counter.n) + |calls|
  {
    if |calls| == 0 {
      return [], messages, false;
    }
    var base := 0;
    if counter != null {
      base := counter.Next(|calls|);
    }
    var results := Dispatch(env, calls, outcomes, base, order);
    events, updated, allTerminate := Collect(env, calls, results, base, think, messages);
  }

  // ----- Full texts behind the shown ones -----

  /** The handle reads this text, for this scope. */
  ghost predicate Holds(t: ToolRecords.Table, scope: ToolRecords.Scope, handle: nat, text: string) {
    ToolRecords.Readable(t, scope, handle) && t.records[handle].content == text
  }

  /**
   `spillToolResult` on the record store: the shown text is the preview, with a handle exactly when
   the full text had to be stored and its row was acknowledged, and that handle reads the full text.
   A refused insert, a missing scope and a missing store leave the records alone; a lost reply
   leaves a row without a handle.
   */
  method SpillToolResult(sto: ToolRecords.RecordStore?, limit: int, scope: ToolRecords.Scope, tc: ToolCall,
                         full: string, status: ToolStatus, code: ErrorCode, db: Db)
    returns (shown: string, handle: Option<nat>)
    requires sto != null ==> sto.Abs().Valid()
    modifies sto
    ensures sto != null ==> sto.Abs().Valid() && ToolRecords.Keeps(old(sto.Abs()), sto.Abs())
    ensures handle.Some? <==> sto != null && scope.Complete() && Spills(limit, tc.name, full) && db.Acked?
    ensures shown == Shown(limit, tc.name, full, if handle.Some? then Some(Dec(handle.value)) else None)
    ensures handle.Some? ==> Holds(sto.Abs(), scope, handle.value, full)
    ensures sto != null && handle.None? && !(scope.Complete() && Spills(limit, tc.name, full) && db.Unacked?) ==>
      sto.Abs() == old(sto.Abs())
  {
    var preview := Truncate(limit, full);
    if sto == null || preview == full || tc.name == TOOL_RESULT_READ {
      return preview, None;
    }
    ghost var t := sto.Abs();
    var input := ToolRecords.Spill(tc.id, tc.name, status, full, preview, true, code);
    var res := sto.SpillToolResult(scope, input, db);
    ToolRecords.StepKeeps(t, sto.Abs(), ToolRecords.DoSpill(scope, input, db));
    if res.Failure? {
      return preview, None;
    }
    shown, handle := preview + SpillNotice(Dec(res.value)), Some(res.value);
  }

  /** The call gets as far as its tool, and the tool returned. */
  predicate Returns(env: Env, tc: ToolCall, raw: Outcome) {
    Reaches(env, tc) && raw.Returned?
  }

  /** The full text of the call is stored under a handle that it shows. */
  predicate GetsHandle(env: Env, limit: int, scope: ToolRecords.Scope, tc: ToolCall, raw: Outcome, db: Db) {
    Returns(env, tc, raw) && Spills(limit, tc.name, raw.text) && scope.Complete() && db.Acked?
  }

  /** The outcome with the handle its call got. */
  function Handled(raw: Outcome, handle: Option<nat>): Outcome {
    if raw.Returned? then raw.(handle := if handle.Some? then Some(Dec(handle.value)) else None) else raw
  }

  function AllHandled(raw: seq<Outcome>, handles: seq<Option<nat>>): (os: seq<Outcome>)
    requires |raw| == |handles|
    ensures |os| == |raw|
  {
    seq(|raw|, i requires 0 <= i < |raw| => Handled(raw[i], handles[i]))
  }

  /** Whether the i-th call got a handle, and what it reads. */
  ghost predicate Stored(t: ToolRecords.Table, scope: ToolRecords.Scope, gets: bool, text: string,
                         handle: Option<nat>)
  {
    (handle.Some? <==> gets) && (handle.Some? ==> Holds(t, scope, handle.value, text))
  }

  function TextOf(raw: Outcome): string {
    if raw.Returned? then raw.text else ""
  }

  /** The calls that have ended have their handles. */
  ghost predicate AllStored(t: ToolRecords.Table, env: Env, limit: int, scope: ToolRecords.Scope, calls: seq<ToolCall>,
                            raw: seq<Outcome>, dbs: nat -> Db, handles: seq<Option<nat>>, ended: set<nat>) {
    |calls| == |raw| == |handles| &&
    forall i :: i in ended && i < |calls| ==>
      Stored(t, scope, GetsHandle(env, limit, scope, calls[i], raw[i], dbs(i)), TextOf(raw[i]), handles[i])
  }

  lemma {:induction false} OneMoreStored(t: ToolRecords.Table, t': ToolRecords.Table, env: Env, limit: int,
                                         scope: ToolRecords.Scope, calls: seq<ToolCall>, raw: seq<Outcome>,
                                         dbs: nat -> Db, handles: seq<Option<nat>>, ended: set<nat>, i: nat,
                                         handle: Option<nat>)
    requires AllStored(t, env, limit, scope, calls, raw, dbs, handles, ended) && ToolRecords.Keeps(t, t')
    requires i < |calls| && i !in ended
    requires Stored(t', scope, GetsHandle(env, limit, scope, calls[i], raw[i], dbs(i)), TextOf(raw[i]), handle)
    ensures AllStored(t', env, limit, scope, calls, raw, dbs, handles[i := handle], ended + {i})
  {
  }

  /** The spilling part of one goroutine. */
  method SpillOne(sto: ToolRecords.RecordStore, env: Env, limit: int, scope: ToolRecords.Scope, tc: ToolCall,
                  raw: Outcome, db: Db) returns (handle: Option<nat>)
    requires sto.Abs().Valid()
    modifies sto
    ensures sto.Abs().Valid() && ToolRecords.Keeps(old(sto.Abs()), sto.Abs())
    ensures Stored(sto.Abs(), scope, GetsHandle(env, limit, scope, tc, raw, db), TextOf(raw), handle)
  {
    if !Returns(env, tc, raw) {
      return None;
    }
    var status, code := StatusOk, NoError;
    if raw.isError {
      status, code := StatusError, ToolError;
    }
    var shown;
    shown, handle := SpillToolResult(sto, limit, scope, tc, raw.text, status, code, db);
  }

  /** The spilling part of all goroutines, in completion order; `dbs(i)` is how the i-th call's insert goes. */
  method SpillAll(sto: ToolRecords.RecordStore, env: Env, limit: int, scope: ToolRecords.Scope, calls: seq<ToolCall>,
                  raw: seq<Outcome>, dbs: nat -> Db, order: seq<nat>)
    returns (handles: seq<Option<nat>>, ghost ended: set<nat>)
    requires |raw| == |calls| && Schedule(order, |calls|) && sto.Abs().Valid()
    modifies sto
    ensures sto.Abs().Valid() && ToolRecords.Keeps(old(sto.Abs()), sto.Abs())
    ensures AllStored(sto.Abs(), env, limit, scope, calls, raw, dbs, handles, ended)
    ensures forall i :: 0 <= i < |calls| ==> i in ended
  {
    handles := seq(|calls|, _ => None);
    var done: set<nat> := {};
    for k := 0 to |order|
      invariant sto.Abs().Valid() && ToolRecords.Keeps(old(sto.Abs()), sto.Abs())
      invariant AllStored(sto.Abs(), env, limit, scope, calls, raw, dbs, handles, done)
      invariant forall j :: 0 <= j < k ==> order[j] in done
    {
      var i := order[k];
      if i !in done {
        ghost var t := sto.Abs();
        var handle := SpillOne(sto, env, limit, scope, calls[i], raw[i], dbs(i));
        OneMoreStored(t, sto.Abs(), env, limit, scope, calls, raw, dbs, handles, done, i, handle);
        handles, done := handles[i := handle], done + {i};
      }
    }
    ended := done;
    forall i | 0 <= i < |calls|
      ensures i in done
    {
      var n: nat := i;
      assert n in order;
    }
  }

  /** A batch whose executor spills to a record store. */
  method ExecuteAndSpill(sto: ToolRecords.RecordStore, limit: int, parseError: string -> Option<string>,
                         describe: (string, ErrorCode, string) -> string, scope: ToolRecords.Scope,
                         counter: ToolSeqCounter?, messages: seq<Message>, calls: seq<ToolCall>, think: string,
                         raw: seq<Outcome>, dbs: nat -> Db, order: seq<nat>)
    returns (updated: seq<Message>, handles: seq<Option<nat>>)
    requires |raw| == |calls| > 0 && Schedule(order, |calls|) && sto.Abs().Valid()
    modifies sto, counter
    ensures sto.Abs().Valid() && ToolRecords.Keeps(old(sto.Abs()), sto.Abs()) && |handles| == |calls|
    ensures var env := LimitedEnv(limit, parseError, describe);
      && (forall i :: 0 <= i < |calls| ==>
            Stored(sto.Abs(), scope, GetsHandle(env, limit, scope, calls[i], raw[i], dbs(i)), TextOf(raw[i]),
                   handles[i]))
      && |updated| == |messages| + 1 + |calls|
      && updated == Batch(env, messages, calls, think, AllHandled(raw, handles),
                          if counter == null then 0 else old(counter.n)).1
  {
    var env := LimitedEnv(limit, parseError, describe);
    ghost var ended;
    handles, ended := SpillAll(sto, env, limit, scope, calls, raw, dbs, order);
    var _, ms, _ := ExecuteToolCalls(env, counter, messages, calls, think, AllHandled(raw, handles), order);
    updated := ms;
  }

  /** What the i-th call of a batch shows the model: the preview of its text, and its handle if it got one. */
  lemma {:induction false} BatchShows(env: Env, limit: int, parseError: string -> Option<string>,
                                      describe: (string, ErrorCode, string) -> string, messages: seq<Message>,
                                      calls: seq<ToolCall>, think: string, raw: seq<Outcome>,
                                      handles: seq<Option<nat>>, base: int, i: nat)
    requires env == LimitedEnv(limit, parseError, describe) && i < |calls| == |raw| == |handles|
    requires Returns(env, calls[i], raw[i])
    ensures var updated := Batch(env, messages, calls, think, AllHandled(raw, handles), base).1;
      && |updated| == |messages| + 1 + |calls|
      && updated[|messages| + 1 + i].toolCallId == calls[i].id
      && updated[|messages| + 1 + i].content ==
           Shown(limit, calls[i].name, raw[i].text, if handles[i].Some? then Some(Dec(handles[i].value)) else None)
  {
    var outcomes := AllHandled(raw, handles);
    var rs := Results(env, calls, outcomes, base);
    ResultShows(env, limit, parseError, describe, calls[i], raw[i], handles[i], base + i);
    assert rs[i] == Filled(env, calls[i], CallTool(env, calls[i], outcomes[i], base + i), base + i);
    AnswerAt(messages, calls, think, rs, i);
  }

  lemma {:induction false} AnswerAt(messages: seq<Message>, calls: seq<ToolCall>, think: string,
                                    rs: seq<ToolResult>, i: nat)
    requires i < |calls| == |rs|
    ensures (messages + BatchMessages(calls, think, rs))[|messages| + 1 + i] == ToolMessage(calls[i], rs[i])
  {
    assert BatchMessages(calls, think, rs)[1 + i] == ToolMessage(calls[i], rs[i]);
  }

  lemma {:induction false} ResultShows(env: Env, limit: int, parseError: string -> Option<string>,
                                       describe: (string, ErrorCode, string) -> string, tc: ToolCall, raw: Outcome,
                                       handle: Option<nat>, seqNo: int)
    requires env == LimitedEnv(limit, parseError, describe) && Returns(env, tc, raw)
    ensures var slot := CallTool(env, tc, Handled(raw, handle), seqNo);
      && slot.Some?
      && slot.value.content == Shown(limit, tc.name, raw.text, if handle.Some? then Some(Dec(handle.value)) else None)
  {
  }

  /**
   End to end: in a batch with any outcomes and any completion order, the message of a call that
   returned shows the preview of its text, and a handle with it exactly when the text had to be stored
   and its row was acknowledged. The handle can be read off the message, and after any operations on
   the records, reading it page by page gives the full text.
   */
  method ShownHandleReadsBack(sto: ToolRecords.RecordStore, limit: int, parseError: string -> Option<string>,
                              describe: (string, ErrorCode, string) -> string, scope: ToolRecords.Scope,
                              counter: ToolSeqCounter?, messages: seq<Message>, calls: seq<ToolCall>, think: string,
                              raw: seq<Outcome>, dbs: nat -> Db, order: seq<nat>, i: nat,
                              later: seq<ToolRecords.Op>, limits: nat -> int, between: nat -> ToolRecords.Op)
    returns (message: Message, printed: Option<string>, text: string)
    requires i < |calls| == |raw| && Schedule(order, |calls|) && sto.Abs().Valid()
    modifies sto, counter
    ensures printed.Some? <==>
      GetsHandle(LimitedEnv(limit, parseError, describe), limit, scope, calls[i], raw[i], dbs(i))
    ensures printed.Some? ==>
      && message.toolCallId == calls[i].id
      && message.content == Truncate(limit, raw[i].text) + SpillNotice(printed.value)
      && printed == HandleIn(message.content) && text == raw[i].text
    ensures printed.None? && Returns(LimitedEnv(limit, parseError, describe), calls[i], raw[i]) ==>
      message.toolCallId == calls[i].id && message.content == Truncate(limit, raw[i].text)
  {
    var updated, handles := ExecuteAndSpill(sto, limit, parseError, describe, scope, counter, messages, calls, think,
                                            raw, dbs, order);
    ghost var env := LimitedEnv(limit, parseError, describe);
    message, printed, text := updated[|messages| + 1 + i], None, "";
    if Returns(env, calls[i], raw[i]) {
      BatchShows(env, limit, parseError, describe, messages, calls, think, raw, handles,
                 if counter == null then 0 else old(counter.n), i);
    }
    if handles[i].Some? {
      assert Holds(sto.Abs(), scope, handles[i].value, raw[i].text);
      NoticeNamesHandle(Truncate(limit, raw[i].text), handles[i].value);
      printed := HandleIn(message.content);
      sto.DoAll(later);
      DecReadsBack(handles[i].value);
      var pages;
      text, pages := ToolRecords.ReadAll(sto, scope, Value(printed.value), limits, between);
    }
  }
}
