/** Messages, tool calls and events, and what it means for a transcript to be well paired. */
module Llm {
  import opened Wrappers
  import opened Text

  datatype ToolCall = ToolCall(id: string, typ: string, name: string, arguments: string)

  datatype Message = Message(role: string, content: string, thinking: string,
                             toolCalls: seq<ToolCall>, toolCallId: string)

  datatype ToolStatus = StatusOk | StatusError | StatusRejected

  datatype ErrorCode =
    | NoError | InvalidArguments | UnsupportedType | Panic | ExecutionFailed | ToolError | Rejected

  /** `ToolResult`, without the measured duration. */
  datatype ToolResult = ToolResult(callId: string, name: string, content: string, terminate: bool,
                                   status: ToolStatus, code: ErrorCode, arguments: string, seqNo: int)

  datatype Usage = Usage(input: int, output: int, total: int)

  datatype Event = Event(delta: string, think: string, toolCalls: seq<ToolCall>, stopReason: string,
                         done: bool, usage: Option<Usage>, toolResult: Option<ToolResult>)

  const USER := "user"
  const SYSTEM := "system"
  const ASSISTANT := "assistant"
  const TOOL := "tool"

  datatype Role = SystemRole | UserRole | AssistantRole | ToolRole | UnknownRole

  /** The role a message is handled under: case and surrounding space do not matter. */
  function RoleOf(role: string): Role {
    var normal := Lower(TrimSpace(role));
    if normal == SYSTEM then SystemRole
    else if normal == USER then UserRole
    else if normal == ASSISTANT then AssistantRole
    else if normal == TOOL then ToolRole
    else UnknownRole
  }

  lemma UserIsKnown()
    ensures RoleOf(USER) == UserRole
  {
    TrimmedStays(USER);
    assert Lower(USER) == USER;
  }

  lemma AssistantIsKnown()
    ensures RoleOf(ASSISTANT) == AssistantRole
  {
    TrimmedStays(ASSISTANT);
    assert Lower(ASSISTANT) == ASSISTANT;
  }

  lemma ToolIsKnown()
    ensures RoleOf(TOOL) == ToolRole
  {
    TrimmedStays(TOOL);
    assert Lower(TOOL) == TOOL;
  }

  /** What matters of a message for pairing: it asks for calls, it answers one, or neither. */
  datatype Tag = Ask(ids: seq<string>) | Answer(id: string) | Plain

  function CallIds(calls: seq<ToolCall>): seq<string> {
    Map((tc: ToolCall) => tc.id, calls)
  }

  function TagFor(role: Role, m: Message): Tag {
    match role
    case AssistantRole => if m.toolCalls == [] then Plain else Ask(CallIds(m.toolCalls))
    case ToolRole => Answer(m.toolCallId)
    case UserRole => if m.toolCallId != "" then Answer(m.toolCallId) else Plain
    case _ => Plain
  }

  function TagOf(m: Message): Tag {
    TagFor(RoleOf(m.role), m)
  }

  function TagsOf(ms: seq<Message>): seq<Tag> {
    Map(TagOf, ms)
  }

  function AnswerTags(ids: seq<string>): seq<Tag> {
    Map((id: string) => Answer(id), ids)
  }

  /** Every asking message is followed at once by exactly its answers, and no answer stands elsewhere. */
  predicate Paired(ts: seq<Tag>) {
    ts == [] ||
    match ts[0]
    case Ask(ids) => |ids| < |ts| && ts[1..|ids| + 1] == AnswerTags(ids) && Paired(ts[|ids| + 1..])
    case Answer(_) => false
    case Plain => Paired(ts[1..])
  }

  predicate WellPaired(ms: seq<Message>) {
    Paired(TagsOf(ms))
  }

  lemma {:induction false} PairedTagsAppend(a: seq<Tag>, b: seq<Tag>)
    requires Paired(a) && Paired(b)
    ensures Paired(a + b)
  {
    if a == [] {
      assert a + b == b;
    } else {
      var n := if a[0].Ask? then |a[0].ids| else 0;
      assert (a + b)[n + 1..] == a[n + 1..] + b;
      assert (a + b)[1..n + 1] == a[1..n + 1];
      PairedTagsAppend(a[n + 1..], b);
    }
  }

  lemma PairedAppend(a: seq<Message>, b: seq<Message>)
    requires WellPaired(a) && WellPaired(b)
    ensures WellPaired(a + b)
  {
    PairedTagsAppend(TagsOf(a), TagsOf(b));
    MapAppend(TagOf, a, b);
  }

  /** A transcript without tool traffic is well paired. */
  lemma {:induction false} PlainIsPaired(ts: seq<Tag>)
    requires forall i :: 0 <= i < |ts| ==> ts[i].Plain?
    ensures Paired(ts)
  {
    if ts != [] {
      PlainIsPaired(ts[1..]);
    }
  }

  // ----- Folding a stream of events -----

  function Deltas(events: seq<Event>): string {
    if events == [] then "" else events[0].delta + Deltas(events[1..])
  }

  function Thinks(events: seq<Event>): string {
    if events == [] then "" else events[0].think + Thinks(events[1..])
  }

  /** The calls of the last event marked done. */
  function LastCalls(events: seq<Event>): seq<ToolCall> {
    if events == [] then []
    else if events[|events| - 1].done then events[|events| - 1].toolCalls
    else LastCalls(events[..|events| - 1])
  }

  lemma {:induction false} DeltasAppend(a: seq<Event>, b: seq<Event>)
    ensures Deltas(a + b) == Deltas(a) + Deltas(b)
  {
    if a == [] {
      assert a + b == b;
    } else {
      assert (a + b)[1..] == a[1..] + b;
      DeltasAppend(a[1..], b);
    }
  }

  lemma {:induction false} ThinksAppend(a: seq<Event>, b: seq<Event>)
    ensures Thinks(a + b) == Thinks(a) + Thinks(b)
  {
    if a == [] {
      assert a + b == b;
    } else {
      assert (a + b)[1..] == a[1..] + b;
      ThinksAppend(a[1..], b);
    }
  }

  /** One event further along a stream. */
  lemma FoldStep(events: seq<Event>, i: nat)
    requires i < |events|
    ensures Deltas(events[..i + 1]) == Deltas(events[..i]) + events[i].delta
    ensures Thinks(events[..i + 1]) == Thinks(events[..i]) + events[i].think
    ensures LastCalls(events[..i + 1]) == if events[i].done then events[i].toolCalls else LastCalls(events[..i])
  {
    assert events[..i + 1] == events[..i] + [events[i]];
    DeltasAppend(events[..i], [events[i]]);
    ThinksAppend(events[..i], [events[i]]);
    assert [events[i]][1..] == [];
    assert events[..i + 1][..|events[..i + 1]| - 1] == events[..i];
  }

  /** Appending one event. */
  lemma {:induction false} EventSnoc(events: seq<Event>, e: Event)
    ensures Deltas(events + [e]) == Deltas(events) + e.delta
    ensures Thinks(events + [e]) == Thinks(events) + e.think
    ensures LastCalls(events + [e]) == if e.done then e.toolCalls else LastCalls(events)
  {
    FoldStep(events + [e], |events|);
    assert (events + [e])[..|events|] == events && (events + [e])[..|events| + 1] == events + [e];
  }

  predicate NoneDone(events: seq<Event>) {
    forall i :: 0 <= i < |events| ==> !events[i].done
  }

  /** None of the events so far is done, so they deliver no calls. */
  ghost predicate Open(events: seq<Event>) {
    NoneDone(events) && LastCalls(events) == []
  }

  /** `last` comes last, and no event before it is done. */
  ghost predicate ClosedBy(events: seq<Event>, last: Event) {
    events != [] && Open(events[..|events| - 1]) && events[|events| - 1] == last
    && LastCalls(events) == if last.done then last.toolCalls else []
  }

  lemma {:induction false} OpenSnoc(events: seq<Event>, last: Event)
    requires Open(events)
    ensures ClosedBy(events + [last], last) && (!last.done ==> Open(events + [last]))
  {
    assert (events + [last])[..|events|] == events;
    EventSnoc(events, last);
  }

  /** The consumer went on after every one of the first `n` events. */
  ghost predicate AcceptedAll(accepts: nat -> bool, n: nat) {
    forall i: nat :: i < n ==> accepts(i)
  }

  // ----- Growing calls -----

  function CallWeight(call: ToolCall): nat {
    1 + |call.name| + |call.arguments|
  }

  /** How much has been accumulated in the calls. */
  function Weight(calls: seq<ToolCall>): nat {
    if calls == [] then 0 else Weight(calls[..|calls| - 1]) + CallWeight(calls[|calls| - 1])
  }

  lemma {:induction false} WeightSnoc(calls: seq<ToolCall>, call: ToolCall)
    ensures Weight(calls + [call]) == Weight(calls) + CallWeight(call)
  {
    assert (calls + [call])[..|calls|] == calls;
  }

  lemma {:induction false} WeightUpdate(calls: seq<ToolCall>, i: nat, call: ToolCall)
    requires i < |calls|
    ensures Weight(calls[i := call]) + CallWeight(calls[i]) == Weight(calls) + CallWeight(call)
  {
    var k := |calls| - 1;
    if i < k {
      WeightUpdate(calls[..k], i, call);
      assert calls[i := call][..k] == calls[..k][i := call];
    } else {
      assert calls[i := call][..k] == calls[..k];
    }
  }
}
