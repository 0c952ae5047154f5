/** The accumulator of Anthropic's streaming responses. */
module AnthropicStream {
  import opened Wrappers
  import opened Text
  import opened Llm
  import LineReader
  import opened Truncation

  datatype Tokens = Tokens(input: int, output: int)

  /** A parsed stream event, by what the accumulator does with it. */
  datatype StreamEvent =
    | ToolStart(index: nat, id: string, name: string)  // content_block_start of a tool_use block
    | TextDelta(text: string)
    | ThinkingDelta(thinking: string)
    | JsonDelta(index: nat, fragment: string)          // input_json_delta
    | MessageDelta(stopReason: string, tokens: Option<Tokens>)
    | MessageStop
    | MessageStart(tokens: Option<Tokens>)
    | Other                                            // block stop, ping, other blocks and deltas

  datatype Line = Noise | EndMark | Data(event: StreamEvent)

  datatype State = State(calls: seq<ToolCall>, stopReason: string, usage: Option<Usage>)

  const START := State([], "", None)

  /** A fragment the code takes for a stray thinking field and drops. */
  predicate Dropped(fragment: string) {
    var trimmed := TrimSpace(fragment);
    |trimmed| >= 9 && trimmed[..9] == "\"thinking"
  }

  function StartedId(index: nat, id: string): string {
    if id == "" then "toolu_" + Dec(index) else id
  }

  /** The calls after one event: arguments always go to the last call. */
  function NextCalls(calls: seq<ToolCall>, e: StreamEvent): seq<ToolCall> {
    match e
    case ToolStart(index, id, name) => calls + [ToolCall(StartedId(index, id), "function", name, "")]
    case JsonDelta(_, fragment) =>
      if calls == [] || fragment == "" || Dropped(fragment) then calls
      else
        var last := calls[|calls| - 1];
        calls[|calls| - 1 := last.(arguments := last.arguments + fragment)]
    case _ => calls
  }

  function StopReason(reason: string, calls: seq<ToolCall>): string {
    if reason == "end_turn" then "stop" else if calls != [] then "tool_calls" else reason
  }

  function NextUsage(usage: Option<Usage>, e: StreamEvent): Option<Usage> {
    match e
    case MessageStart(Some(t)) => Some(Usage(t.input, 0, t.input))
    case MessageDelta(_, Some(t)) =>
      var input := if usage.Some? then usage.value.input else 0;
      Some(Usage(input, t.output, input + t.output))
    case _ => usage
  }

  predicate Balanced(usage: Option<Usage>) {
    usage.Some? ==> usage.value.total == usage.value.input + usage.value.output
  }

  // ----- Accumulating calls -----

  function Calls(events: seq<StreamEvent>): seq<ToolCall> {
    if events == [] then [] else NextCalls(Calls(events[..|events| - 1]), events[|events| - 1])
  }

  /** The block indices of the tool_use blocks, in order. */
  function Starts(events: seq<StreamEvent>): seq<nat> {
    if events == [] then []
    else if events[|events| - 1].ToolStart? then Starts(events[..|events| - 1]) + [events[|events| - 1].index]
    else Starts(events[..|events| - 1])
  }

  /** The argument fragments sent for block `b`, in arrival order. */
  function Fragments(events: seq<StreamEvent>, b: nat): string {
    if events == [] then ""
    else
      var e := events[|events| - 1];
      Fragments(events[..|events| - 1], b) + if e.JsonDelta? && e.index == b then e.fragment else ""
  }

  /** Those of them that are not dropped. */
  function Kept(events: seq<StreamEvent>, b: nat): string {
    if events == [] then ""
    else
      var e := events[|events| - 1];
      Kept(events[..|events| - 1], b) + if e.JsonDelta? && e.index == b && !Dropped(e.fragment) then e.fragment else ""
  }

  /** Blocks come one after the other: fragments belong to the block started last, and no block starts twice. */
  predicate Sequential(events: seq<StreamEvent>) {
    events == [] ||
    var init, e := events[..|events| - 1], events[|events| - 1];
    && Sequential(init)
    && (e.JsonDelta? ==> Starts(init) != [] && Starts(init)[|Starts(init)| - 1] == e.index)
    && (e.ToolStart? ==> e.index !in Starts(init))
  }

  /** No fragment begins like the name of a thinking field. */
  predicate NothingDropped(events: seq<StreamEvent>) {
    forall i :: 0 <= i < |events| && events[i].JsonDelta? ==> !("\"thinking" <= TrimSpace(events[i].fragment))
  }

  ghost predicate Distinct(xs: seq<nat>) {
    forall i, j :: 0 <= i < j < |xs| ==> xs[i] != xs[j]
  }

  lemma {:induction false} NoStartNoFragments(events: seq<StreamEvent>, b: nat)
    requires Sequential(events) && b !in Starts(events)
    ensures Fragments(events, b) == "" && Kept(events, b) == ""
  {
    if events != [] {
      NoStartNoFragments(events[..|events| - 1], b);
    }
  }

  /** In a sequential stream each call collects the kept fragments of its own block, in order. */
  lemma {:induction false} CallsCollectKeptFragments(events: seq<StreamEvent>)
    requires Sequential(events)
    ensures |Calls(events)| == |Starts(events)| && Distinct(Starts(events))
    ensures forall i :: 0 <= i < |Calls(events)| ==> Calls(events)[i].arguments == Kept(events, Starts(events)[i])
  {
    if events != [] {
      var init, e := events[..|events| - 1], events[|events| - 1];
      CallsCollectKeptFragments(init);
      if e.ToolStart? {
        NoStartNoFragments(init, e.index);
      }
    }
  }

  lemma {:induction false} KeptIsAll(events: seq<StreamEvent>, b: nat)
    requires NothingDropped(events)
    ensures Kept(events, b) == Fragments(events, b)
  {
    if events != [] {
      var init := events[..|events| - 1];
      assert forall i :: 0 <= i < |init| ==> init[i] == events[i];
      KeptIsAll(init, b);
    }
  }

  /** The i-th event is a fragment for block `b` that is dropped. */
  predicate DropsAt(events: seq<StreamEvent>, b: nat, i: nat) {
    i < |events| && events[i].JsonDelta? && events[i].index == b && Dropped(events[i].fragment)
  }

  lemma {:induction false} KeptIsShorter(events: seq<StreamEvent>, b: nat)
    ensures |Kept(events, b)| <= |Fragments(events, b)|
    ensures (exists i: nat :: DropsAt(events, b, i)) ==> |Kept(events, b)| < |Fragments(events, b)|
  {
    if events != [] {
      var init, e := events[..|events| - 1], events[|events| - 1];
      KeptIsShorter(init, b);
      if i: nat :| DropsAt(events, b, i) {
        if i < |init| {
          assert DropsAt(init, b, i);
        } else {
          TrimIsShorter(e.fragment);
        }
      }
    }
  }

  lemma TrimIsShorter(s: string)
    ensures |TrimSpace(s)| <= |s|
  {
  }

  lemma {:induction false} FragmentsHaveStarts(events: seq<StreamEvent>, i: nat)
    requires Sequential(events) && i < |events| && events[i].JsonDelta?
    ensures events[i].index in Starts(events)
  {
    if i < |events| - 1 {
      FragmentsHaveStarts(events[..|events| - 1], i);
    }
  }

  /**
   In a sequential stream every call's arguments are the concatenation of its fragments in arrival
   order exactly when no fragment is dropped as a stray thinking field.
   */
  lemma {:induction false} CallsAreRebuiltExactly(events: seq<StreamEvent>)
    requires Sequential(events)
    ensures |Calls(events)| == |Starts(events)|
    ensures (forall i :: 0 <= i < |Calls(events)| ==>
              Calls(events)[i].arguments == Fragments(events, Starts(events)[i]))
       <==> NothingDropped(events)
  {
    CallsCollectKeptFragments(events);
    var starts := Starts(events);
    forall i | 0 <= i < |starts|
      ensures NothingDropped(events) ==> Kept(events, starts[i]) == Fragments(events, starts[i])
    {
      if NothingDropped(events) {
        KeptIsAll(events, starts[i]);
      }
    }
    if !NothingDropped(events) {
      var k :| 0 <= k < |events| && events[k].JsonDelta? && Dropped(events[k].fragment);
      FragmentsHaveStarts(events, k);
      var i :| 0 <= i < |starts| && starts[i] == events[k].index;
      assert DropsAt(events, starts[i], k);
      KeptIsShorter(events, starts[i]);
      assert Calls(events)[i].arguments != Fragments(events, starts[i]);
    }
  }

  // ----- The stream -----

  function EventsOf(lines: seq<Line>): seq<StreamEvent> {
    if lines == [] then []
    else if lines[|lines| - 1].Data? then EventsOf(lines[..|lines| - 1]) + [lines[|lines| - 1].event]
    else EventsOf(lines[..|lines| - 1])
  }

  function Said(e: StreamEvent): string {
    if e.TextDelta? then e.text else ""
  }

  function Thought(e: StreamEvent): string {
    if e.ThinkingDelta? then e.thinking else ""
  }

  function Texts(events: seq<StreamEvent>): string {
    if events == [] then "" else Texts(events[..|events| - 1]) + Said(events[|events| - 1])
  }

  function Thinkings(events: seq<StreamEvent>): string {
    if events == [] then "" else Thinkings(events[..|events| - 1]) + Thought(events[|events| - 1])
  }

  function NextState(st: State, e: StreamEvent): State {
    State(NextCalls(st.calls, e), if e.MessageDelta? then StopReason(e.stopReason, st.calls) else st.stopReason,
          NextUsage(st.usage, e))
  }

  /** The accumulator after these lines. */
  function StateOf(lines: seq<Line>): State {
    if lines == [] then START
    else
      var before := StateOf(lines[..|lines| - 1]);
      if lines[|lines| - 1].Data? then NextState(before, lines[|lines| - 1].event) else before
  }

  /** The event a stream event is passed on as, if any; `st` is the state after it. */
  function Pushed(e: StreamEvent, st: State): Option<Event> {
    match e
    case TextDelta(text) => Some(Event(text, "", st.calls, "", false, None, None))
    case ThinkingDelta(thinking) => Some(Event("", thinking, [], "", false, None, None))
    case MessageDelta(_, _) => Some(Event("", "", st.calls, st.stopReason, false, st.usage, None))
    case MessageStop => Some(Event("", "", st.calls, st.stopReason, true, st.usage, None))
    case MessageStart(_) => Some(Event("", "", [], "", false, st.usage, None))
    case _ => None
  }

  /** The event that closes a stream without message_stop. */
  function Closing(st: State): Event {
    Event("", "", [], st.stopReason, true, st.usage, None)
  }

  function PushOf(line: Line, st: State): Option<Event> {
    if line.Data? then Pushed(line.event, st) else None
  }

  /** The events pushed for the lines. */
  function Pushes(lines: seq<Line>): seq<Event> {
    if lines == [] then []
    else
      match PushOf(lines[|lines| - 1], StateOf(lines))
      case Some(event) => Pushes(lines[..|lines| - 1]) + [event]
      case None => Pushes(lines[..|lines| - 1])
  }

  datatype ParseEnd =
    | ByStop      // message_stop: the last event is done and carries the calls
    | ByEnd       // the end mark or the end of the input: the last event is done, without calls
    | Stopped     // the consumer stopped
    | ReadFailed

  /** The events after which the consumer's answer counts. */
  predicate Asks(e: StreamEvent) {
    e.TextDelta? || e.ThinkingDelta? || e.MessageDelta?
  }

  /** How reading ends at the last of these lines, if it ends there. */
  function EndAt(lines: seq<Line>, accepts: nat -> bool): Option<ParseEnd> {
    if lines == [] then None
    else
      match lines[|lines| - 1]
      case Noise => None
      case EndMark => Some(ByEnd)
      case Data(e) =>
        if e.MessageStop? then Some(ByStop)
        else if Asks(e) && |Pushes(lines)| > 0 && !accepts(|Pushes(lines)| - 1) then Some(Stopped)
        else None
  }

  function Ending(accepts: nat -> bool): seq<Line> -> Option<ParseEnd> {
    (lines: seq<Line>) => EndAt(lines, accepts)
  }

  /** Reading goes on past every one of these lines. */
  predicate GoesOn(lines: seq<Line>, accepts: nat -> bool) {
    LineReader.GoesOn(Ending(accepts), lines)
  }

  /** Reading stops right behind the first `used` lines, in this way. */
  predicate StopsAt(lines: seq<Line>, readFails: bool, accepts: nat -> bool, used: nat, end: ParseEnd) {
    LineReader.StopsAt(Ending(accepts), if readFails then ReadFailed else ByEnd, lines, used, end)
  }

  /** The events of a whole response of which `used` lines were read. */
  function Events(lines: seq<Line>, used: nat, end: ParseEnd): seq<Event>
    requires used <= |lines|
  {
    Pushes(lines[..used]) + if end.ByEnd? then [Closing(StateOf(lines[..used]))] else []
  }

  /** `handleStreamEvent`, without the push. */
  method HandleStreamEvent(e: StreamEvent, st: State) returns (next: State)
    ensures next == NextState(st, e)
  {
    next := st;
    match e {
      case ToolStart(index, id, name) =>
        var toolId := id;
        if toolId == "" {
          toolId := "toolu_" + Dec(index);
        }
        next := next.(calls := st.calls + [ToolCall(toolId, "function", name, "")]);
      case JsonDelta(_, fragment) =>
        if |st.calls| > 0 && fragment != "" {
          var lastIdx := |st.calls| - 1;
          if !Dropped(fragment) {
            var last := st.calls[lastIdx];
            next := next.(calls := st.calls[lastIdx := last.(arguments := last.arguments + fragment)]);
          }
        }
      case MessageDelta(reason, tokens) =>
        var sr := reason;
        if sr == "end_turn" {
          sr := "stop";
        } else if |st.calls| > 0 {
          sr := "tool_calls";
        }
        next := next.(stopReason := sr);
        if tokens.Some? {
          var usage := st.usage.GetOr(Usage(0, 0, 0));
          next := next.(usage := Some(Usage(usage.input, tokens.value.output, usage.input + tokens.value.output)));
        }
      case MessageStart(tokens) =>
        if tokens.Some? {
          next := next.(usage := Some(Usage(tokens.value.input, 0, tokens.value.input)));
        }
      case _ =>
    }
  }

  /** What is known between two lines. */
  ghost predicate Reading(events: seq<Event>, st: State, lines: seq<Line>, accepts: nat -> bool) {
    events == Pushes(lines) && st == StateOf(lines) && GoesOn(lines, accepts)
  }

  /** One line: the events and the state after it, and how it ends the stream, if it does. */
  method ReadLine(before: seq<Event>, st: State, lines: seq<Line>, i: nat, accepts: nat -> bool)
    returns (events: seq<Event>, next: State, end: Option<ParseEnd>)
    requires i < |lines| && Reading(before, st, lines[..i], accepts)
    ensures end == EndAt(lines[..i + 1], accepts)
    ensures end.None? ==> Reading(events, next, lines[..i + 1], accepts)
    ensures events == Pushes(lines[..i + 1]) + if end == Some(ByEnd) then [Closing(StateOf(lines[..i + 1]))] else []
  {
    ghost var read := lines[..i + 1];
    assert read[..i] == lines[..i] && read[i] == lines[i];
    events, next, end := before, st, None;
    match lines[i] {
      case Noise =>
      case EndMark =>
        events, end := before + [Closing(st)], Some(ByEnd);
      case Data(e) =>
        next := HandleStreamEvent(e, st);
        match Pushed(e, next) {
          case Some(event) => events := before + [event];
          case None =>
        }
        if e.MessageStop? {
          end := Some(ByStop);
        } else if Asks(e) && !accepts(|events| - 1) {
          end := Some(Stopped);
        }
    }
  }

  /**
   `parseStreamResponse`. The input and the consumer's answers determine everything: where reading
   stops and how, and every event pushed. The consumer's answer to the first event of a message is
   ignored.
   */
  method ParseStream(lines: seq<Line>, readFails: bool, accepts: nat -> bool)
    returns (events: seq<Event>, end: ParseEnd, used: nat)
    ensures StopsAt(lines, readFails, accepts, used, end)
    ensures events == Events(lines, used, end)
  {
    events := [];
    var st := START;
    for i := 0 to |lines|
      invariant Reading(events, st, lines[..i], accepts)
    {
      var ended;
      events, st, ended := ReadLine(events, st, lines, i, accepts);
      if ended.Some? {
        assert lines[..i + 1][..i] == lines[..i];
        return events, ended.value, i + 1;
      }
    }
    used := |lines|;
    assert lines[..|lines|] == lines;
    if readFails {
      return events, ReadFailed, used;
    }
    events, end := events + [Closing(st)], ByEnd;
  }

  // ----- What the consumer gets -----

  predicate AllBalanced(events: seq<Event>) {
    forall i :: 0 <= i < |events| ==> Balanced(events[i].usage)
  }

  /** One more line, read as one more event or none. */
  lemma {:induction false} LinesSnoc(lines: seq<Line>)
    requires lines != []
    ensures var before, last, now := EventsOf(lines[..|lines| - 1]), lines[|lines| - 1], EventsOf(lines);
      if last.Data? then
        && now == before + [last.event] && Calls(now) == NextCalls(Calls(before), last.event)
        && Texts(now) == Texts(before) + Said(last.event) && Thinkings(now) == Thinkings(before) + Thought(last.event)
      else now == before
  {
    var before, now := EventsOf(lines[..|lines| - 1]), EventsOf(lines);
    if lines[|lines| - 1].Data? {
      assert now[..|now| - 1] == before;
    }
  }

  /** The accumulated calls are those of the events read, and the usage adds up. */
  lemma {:induction false} StateIsFold(lines: seq<Line>)
    ensures StateOf(lines).calls == Calls(EventsOf(lines)) && Balanced(StateOf(lines).usage)
  {
    if lines != [] {
      StateIsFold(lines[..|lines| - 1]);
      LinesSnoc(lines);
    }
  }

  /** The events stream exactly the text and the thinking read, and every usage on them adds up. */
  ghost predicate Streams(events: seq<Event>, lines: seq<Line>) {
    && Deltas(events) == Texts(EventsOf(lines)) && Thinks(events) == Thinkings(EventsOf(lines))
    && AllBalanced(events)
  }

  /** An event passes on the text and the thinking of its stream event, and its usage adds up. */
  lemma {:induction false} PushedSays(e: StreamEvent, st: State)
    requires Balanced(st.usage)
    ensures match Pushed(e, st)
      case Some(event) => event.delta == Said(e) && event.think == Thought(e) && Balanced(event.usage)
      case None => Said(e) == "" && Thought(e) == ""
  {
  }

  lemma {:induction false} StreamsSnoc(events: seq<Event>, event: Event, before: seq<Line>, lines: seq<Line>)
    requires Streams(events, before) && Balanced(event.usage)
    requires Texts(EventsOf(lines)) == Texts(EventsOf(before)) + event.delta
    requires Thinkings(EventsOf(lines)) == Thinkings(EventsOf(before)) + event.think
    ensures Streams(events + [event], lines)
  {
    EventSnoc(events, event);
  }

  lemma {:induction false} PushesStream(lines: seq<Line>)
    ensures Streams(Pushes(lines), lines)
  {
    if lines != [] {
      var before, last := lines[..|lines| - 1], lines[|lines| - 1];
      PushesStream(before);
      LinesSnoc(lines);
      StateIsFold(lines);
      if last.Data? {
        PushedSays(last.event, StateOf(lines));
        match Pushed(last.event, StateOf(lines)) {
          case Some(event) => StreamsSnoc(Pushes(before), event, before, lines);
          case None =>
            var t, h := Texts(EventsOf(before)), Thinkings(EventsOf(before));
            assert t + "" == t && h + "" == h;
        }
      }
    }
  }

  /** No message starts in these lines. */
  predicate StartFree(lines: seq<Line>) {
    lines == [] ||
    var last := lines[|lines| - 1];
    StartFree(lines[..|lines| - 1]) && !(last.Data? && last.event.MessageStart?)
  }

  /** The consumer accepted the first `n` events, if no message starts in these lines. */
  ghost predicate Accepted(lines: seq<Line>, accepts: nat -> bool, n: nat) {
    StartFree(lines) ==> forall j: nat :: j < n ==> accepts(j)
  }

  lemma {:induction false} GoingOnIsAccepted(lines: seq<Line>, accepts: nat -> bool)
    requires GoesOn(lines, accepts)
    ensures Accepted(lines, accepts, |Pushes(lines)|)
  {
    if lines != [] && StartFree(lines) {
      GoingOnIsAccepted(lines[..|lines| - 1], accepts);
    }
  }

  lemma {:induction false} PushedIsOpen(line: Line, st: State)
    requires line != Data(MessageStop) && PushOf(line, st).Some?
    ensures !PushOf(line, st).value.done
  {
  }

  /** Only message_stop pushes a done event. */
  lemma {:induction false} PushesAreOpen(lines: seq<Line>)
    requires forall i :: 0 <= i < |lines| ==> lines[i] != Data(MessageStop)
    ensures Open(Pushes(lines))
  {
    if lines != [] {
      var before, last := lines[..|lines| - 1], lines[|lines| - 1];
      PushesAreOpen(before);
      if PushOf(last, StateOf(lines)).Some? {
        PushedIsOpen(last, StateOf(lines));
        OpenSnoc(Pushes(before), PushOf(last, StateOf(lines)).value);
      }
    }
  }

  lemma {:induction false} GoingOnIsOpen(lines: seq<Line>, accepts: nat -> bool)
    requires GoesOn(lines, accepts)
    ensures Open(Pushes(lines))
  {
    forall i | 0 <= i < |lines|
      ensures lines[i] != Data(MessageStop)
    {
      GoingOnIsLive(lines, accepts, i);
    }
    PushesAreOpen(lines);
  }

  /** Only the last event is done, and it carries `calls`. */
  ghost predicate Delivers(events: seq<Event>, calls: seq<ToolCall>) {
    && events != [] && ClosedBy(events, events[|events| - 1])
    && events[|events| - 1].done && events[|events| - 1].toolCalls == calls
  }

  /** How the events of a response end; `read` are the lines read. */
  ghost predicate Closes(events: seq<Event>, read: seq<Line>, accepts: nat -> bool, end: ParseEnd) {
    match end
    case ByStop => Delivers(events, Calls(EventsOf(read)))
    case ByEnd => Delivers(events, [])
    case Stopped => Open(events) && events != [] && !accepts(|events| - 1)
    case ReadFailed => Open(events)
  }

  /** The events of a response. */
  ghost predicate Streamed(events: seq<Event>, read: seq<Line>, accepts: nat -> bool, end: ParseEnd) {
    && Streams(events, read)
    && (events != [] ==> Accepted(read, accepts, |events| - 1))
    && Closes(events, read, accepts, end)
  }

  lemma {:induction false} ClosingStreams(events: seq<Event>, lines: seq<Line>, st: State)
    requires Streams(events, lines) && Balanced(st.usage)
    ensures Streams(events + [Closing(st)], lines)
  {
    EventSnoc(events, Closing(st));
    assert Deltas(events) + "" == Deltas(events) && Thinks(events) + "" == Thinks(events);
  }

  lemma {:induction false} EndIsStreamed(lines: seq<Line>, readFails: bool, accepts: nat -> bool)
    requires GoesOn(lines, accepts)
    ensures if readFails then Streamed(Pushes(lines), lines, accepts, ReadFailed)
            else Streamed(Pushes(lines) + [Closing(StateOf(lines))], lines, accepts, ByEnd)
  {
    GoingOnIsOpen(lines, accepts);
    GoingOnIsAccepted(lines, accepts);
    PushesStream(lines);
    StateIsFold(lines);
    ClosingStreams(Pushes(lines), lines, StateOf(lines));
    OpenSnoc(Pushes(lines), Closing(StateOf(lines)));
  }

  lemma {:induction false} DataIsStreamed(read: seq<Line>, accepts: nat -> bool, end: ParseEnd)
    requires read != [] && read[|read| - 1].Data? && GoesOn(read[..|read| - 1], accepts)
    requires EndAt(read, accepts) == Some(end)
    ensures Streamed(Pushes(read), read, accepts, end)
  {
    var before := read[..|read| - 1];
    GoingOnIsOpen(before, accepts);
    GoingOnIsAccepted(before, accepts);
    PushesStream(read);
    StateIsFold(read);
    OpenSnoc(Pushes(before), PushOf(read[|read| - 1], StateOf(read)).value);
  }

  /** The end mark adds nothing to what was read. */
  lemma {:induction false} MarkIsStreamed(read: seq<Line>, accepts: nat -> bool)
    requires read != [] && read[|read| - 1].EndMark? && GoesOn(read[..|read| - 1], accepts)
    ensures Streamed(Pushes(read) + [Closing(StateOf(read))], read, accepts, ByEnd)
  {
    var before := read[..|read| - 1];
    EndIsStreamed(before, false, accepts);
    MarkAddsNothing(read);
    MarkStays(Pushes(read) + [Closing(StateOf(read))], before, read, accepts);
  }

  lemma {:induction false} MarkAddsNothing(read: seq<Line>)
    requires read != [] && read[|read| - 1].EndMark?
    ensures var before := read[..|read| - 1];
      && EventsOf(read) == EventsOf(before) && Pushes(read) == Pushes(before) && StateOf(read) == StateOf(before)
      && StartFree(read) == StartFree(before)
  {
  }

  lemma {:induction false} MarkStays(events: seq<Event>, before: seq<Line>, read: seq<Line>, accepts: nat -> bool)
    requires EventsOf(read) == EventsOf(before) && StartFree(read) == StartFree(before)
    requires Streamed(events, before, accepts, ByEnd)
    ensures Streamed(events, read, accepts, ByEnd)
  {
  }

  /**
   What is pushed streams exactly the text and thinking read, and every usage on it adds up. Unless a
   message starts in what was read, the consumer accepted every event but perhaps the last.
   */
  lemma {:induction false} ResponseIsStreamed(lines: seq<Line>, readFails: bool, accepts: nat -> bool,
                                              used: nat, end: ParseEnd)
    requires StopsAt(lines, readFails, accepts, used, end)
    ensures var events, read := Events(lines, used, end), lines[..used];
      Streams(events, read) && (events != [] ==> Accepted(read, accepts, |events| - 1))
  {
    StopEndsSo(lines, readFails, accepts, used, end);
    StopIsStreamed(lines[..used], readFails, accepts, end);
  }

  /**
   At most one event is done, and it is the last: at message_stop it carries the accumulated calls,
   at the end mark or the end of the input none.
   */
  lemma {:induction false} ResponseIsClosed(lines: seq<Line>, readFails: bool, accepts: nat -> bool,
                                            used: nat, end: ParseEnd)
    requires StopsAt(lines, readFails, accepts, used, end)
    ensures Closes(Events(lines, used, end), lines[..used], accepts, end)
  {
    StopEndsSo(lines, readFails, accepts, used, end);
    StopIsStreamed(lines[..used], readFails, accepts, end);
  }

  lemma {:induction false} BeforeLast(lines: seq<Line>, used: nat)
    requires used <= |lines|
    ensures used > 0 ==> lines[..used][..used - 1] == lines[..used - 1]
  {
  }

  /** Reading these lines ends so at their end. */
  predicate EndsSo(read: seq<Line>, readFails: bool, accepts: nat -> bool, end: ParseEnd) {
    if GoesOn(read, accepts) then end == (if readFails then ReadFailed else ByEnd)
    else read != [] && GoesOn(read[..|read| - 1], accepts) && EndAt(read, accepts) == Some(end)
  }

  lemma {:induction false} StopIsStreamed(read: seq<Line>, readFails: bool, accepts: nat -> bool, end: ParseEnd)
    requires EndsSo(read, readFails, accepts, end)
    ensures Streamed(Pushes(read) + if end.ByEnd? then [Closing(StateOf(read))] else [], read, accepts, end)
  {
    assert Pushes(read) + [] == Pushes(read);
    if GoesOn(read, accepts) {
      EndIsStreamed(read, readFails, accepts);
    } else if read[|read| - 1].Data? {
      DataIsStreamed(read, accepts, end);
    } else {
      MarkIsStreamed(read, accepts);
    }
  }

  lemma {:induction false} StopEndsSo(lines: seq<Line>, readFails: bool, accepts: nat -> bool, used: nat, end: ParseEnd)
    requires StopsAt(lines, readFails, accepts, used, end)
    ensures EndsSo(lines[..used], readFails, accepts, end)
  {
    BeforeLast(lines, used);
  }

  // ----- What the events report -----

  /** The starts of tool_use blocks, in order. */
  function ToolStarts(events: seq<StreamEvent>): seq<StreamEvent> {
    if events == [] then []
    else ToolStarts(events[..|events| - 1]) + if events[|events| - 1].ToolStart? then [events[|events| - 1]] else []
  }

  /** In every stream there is one call for each start, with its name and its id, or one made of its index. */
  lemma {:induction false} CallsNameTheirStarts(events: seq<StreamEvent>)
    ensures |Calls(events)| == |ToolStarts(events)|
    ensures forall i :: 0 <= i < |Calls(events)| ==>
      var start, call := ToolStarts(events)[i], Calls(events)[i];
      && start.ToolStart? && call.name == start.name && call.typ == "function"
      && call.id == if start.id == "" then "toolu_" + Dec(start.index) else start.id
  {
    if events != [] {
      CallsNameTheirStarts(events[..|events| - 1]);
    }
  }

  /** The input tokens of the last message_start that reports any. */
  function InputTold(events: seq<StreamEvent>): int {
    if events == [] then 0
    else
      match events[|events| - 1]
      case MessageStart(Some(Tokens(input, _))) => input
      case _ => InputTold(events[..|events| - 1])
  }

  /** The output tokens of the last message_delta that reports any, unless a message_start has reported since. */
  function OutputTold(events: seq<StreamEvent>): int {
    if events == [] then 0
    else
      match events[|events| - 1]
      case MessageStart(Some(_)) => 0
      case MessageDelta(_, Some(Tokens(_, output))) => output
      case _ => OutputTold(events[..|events| - 1])
  }

  /** Whether tokens have been reported at all. */
  predicate AnyTold(events: seq<StreamEvent>) {
    exists e :: e in events && ((e.MessageStart? || e.MessageDelta?) && e.tokens.Some?)
  }

  /** How the message ended, by the last message_delta: calls count only if they started before it. */
  function StopTold(events: seq<StreamEvent>): string {
    if events == [] then ""
    else
      var before := events[..|events| - 1];
      match events[|events| - 1]
      case MessageDelta(reason, _) =>
        if reason == "end_turn" then "stop" else if ToolStarts(before) != [] then "tool_calls" else reason
      case _ => StopTold(before)
  }

  /** The event reports the usage and the stop reason of these stream events. */
  predicate Reports(event: Event, events: seq<StreamEvent>) {
    && event.stopReason == StopTold(events)
    && event.usage == if AnyTold(events) then Some(Usage(InputTold(events), OutputTold(events),
                                                         InputTold(events) + OutputTold(events)))
                      else None
  }

  lemma {:induction false} ToldSnoc(before: seq<StreamEvent>, e: StreamEvent)
    ensures var events := before + [e];
      && InputTold(events) == (if e.MessageStart? && e.tokens.Some? then e.tokens.value.input else InputTold(before))
      && OutputTold(events) == (if e.MessageStart? && e.tokens.Some? then 0
                                else if e.MessageDelta? && e.tokens.Some? then e.tokens.value.output
                                else OutputTold(before))
      && (AnyTold(events) <==> AnyTold(before) || ((e.MessageStart? || e.MessageDelta?) && e.tokens.Some?))
      && StopTold(events) == (if !e.MessageDelta? then StopTold(before)
                              else if e.stopReason == "end_turn" then "stop"
                              else if ToolStarts(before) != [] then "tool_calls" else e.stopReason)
  {
    var events := before + [e];
    assert events[..|events| - 1] == before;
    assert forall x :: x in events <==> x in before || x == e;
  }

  /** Nothing is reported before anything is told. */
  lemma {:induction false} UntoldIsNothing(events: seq<StreamEvent>)
    requires !AnyTold(events)
    ensures InputTold(events) == 0 && OutputTold(events) == 0
  {
    if events != [] {
      assert events[|events| - 1] in events;
      assert forall e :: e in events[..|events| - 1] ==> e in events;
      UntoldIsNothing(events[..|events| - 1]);
    }
  }

  function Report(st: State): Event {
    Event("", "", [], st.stopReason, false, st.usage, None)
  }

  lemma {:induction false} NextReports(st: State, before: seq<StreamEvent>, e: StreamEvent)
    requires Reports(Report(st), before) && st.calls == Calls(before)
    ensures Reports(Report(NextState(st, e)), before + [e])
  {
    ToldSnoc(before, e);
    CallsNameTheirStarts(before);
    if !AnyTold(before) {
      UntoldIsNothing(before);
    }
  }

  lemma {:induction false} StateReports(lines: seq<Line>)
    ensures Reports(Report(StateOf(lines)), EventsOf(lines))
  {
    if lines != [] {
      var before, last := lines[..|lines| - 1], lines[|lines| - 1];
      StateReports(before);
      StateIsFold(before);
      LinesSnoc(lines);
      if last.Data? {
        NextReports(StateOf(before), EventsOf(before), last.event);
      }
    }
  }

  /** What the consumer gets for one stream event; `told` are the stream events so far, including it. */
  ghost predicate PassedOn(e: StreamEvent, told: seq<StreamEvent>, passed: seq<Event>) {
    if e.TextDelta? then passed == [Event(e.text, "", Calls(told), "", false, None, None)]
    else if e.ThinkingDelta? then passed == [Event("", e.thinking, [], "", false, None, None)]
    else if e.MessageStart? then
      |passed| == 1 && passed[0] == Event("", "", [], "", false, passed[0].usage, None)
      && Reports(passed[0].(stopReason := StopTold(told)), told)
    else if e.MessageDelta? || e.MessageStop? then
      |passed| == 1 && passed[0].done == e.MessageStop? && passed[0].toolCalls == Calls(told)
      && passed[0].delta == "" && passed[0].think == "" && passed[0].toolResult.None? && Reports(passed[0], told)
    else passed == []
  }

  /** Every line is passed on by itself. */
  lemma {:induction false} LinesArePassedOn(lines: seq<Line>, i: nat) returns (passed: seq<Event>)
    requires i < |lines|
    ensures Pushes(lines[..i + 1]) == Pushes(lines[..i]) + passed
    ensures if lines[i].Data? then PassedOn(lines[i].event, EventsOf(lines[..i + 1]), passed) else passed == []
  {
    var read := lines[..i + 1];
    assert read[..i] == lines[..i] && read[i] == lines[i];
    StateReports(read);
    StateIsFold(read);
    var push := PushOf(lines[i], StateOf(read));
    passed := if push.Some? then [push.value] else [];
    assert Pushes(lines[..i]) + [] == Pushes(lines[..i]);
  }

  /** The event that ends a response reports its usage and its stop reason. */
  lemma {:induction false} DoneReports(lines: seq<Line>, readFails: bool, accepts: nat -> bool,
                                       used: nat, end: ParseEnd)
    requires StopsAt(lines, readFails, accepts, used, end) && (end.ByStop? || end.ByEnd?)
    ensures var events := Events(lines, used, end);
      events != [] && events[|events| - 1].done && Reports(events[|events| - 1], EventsOf(lines[..used]))
  {
    var read := lines[..used];
    StateReports(read);
    if end.ByStop? {
      assert !GoesOn(read, accepts) && read[|read| - 1] == Data(MessageStop);
      var passed := LinesArePassedOn(read, used - 1);
      assert read[..used] == read;
    }
  }

  /** The input ran out, or could not be read on. */
  predicate AtInputEnd(lines: seq<Line>, readFails: bool, used: nat, end: ParseEnd) {
    used == |lines| && end == if readFails then ReadFailed else ByEnd
  }

  /** The last line read tells why reading stopped, and no line before it would have. */
  lemma {:induction false} StopsTellWhy(lines: seq<Line>, readFails: bool, accepts: nat -> bool,
                                        used: nat, end: ParseEnd)
    requires StopsAt(lines, readFails, accepts, used, end)
    ensures forall i :: 0 <= i < used - 1 ==> !lines[i].EndMark? && lines[i] != Data(MessageStop)
    ensures used == 0 ==> AtInputEnd(lines, readFails, used, end)
    ensures used > 0 ==>
      match lines[used - 1]
      case Noise => AtInputEnd(lines, readFails, used, end)
      case EndMark => end.ByEnd?
      case Data(e) =>
        if e.MessageStop? then end.ByStop?
        else if (e.TextDelta? || e.ThinkingDelta? || e.MessageDelta?) && !accepts(|Pushes(lines[..used])| - 1)
        then end.Stopped?
        else AtInputEnd(lines, readFails, used, end)
  {
    var read := lines[..used];
    if used > 0 {
      assert read[..used - 1] == lines[..used - 1] && read[used - 1] == lines[used - 1];
      var before := if GoesOn(read, accepts) then used else used - 1;
      forall i | 0 <= i < before
        ensures !lines[i].EndMark? && lines[i] != Data(MessageStop)
      {
        GoingOnIsLive(lines[..before], accepts, i);
      }
    }
  }

  // ----- Which calls arrive -----

  function Marks(): Line -> bool {
    (line: Line) => line.EndMark?
  }

  /** The lines before the end mark. */
  function Live(lines: seq<Line>): seq<Line> {
    LineReader.Before(Marks(), lines)
  }

  /** When reading goes on, nothing so far ends the stream. */
  lemma {:induction false} GoingOnIsLive(lines: seq<Line>, accepts: nat -> bool, i: nat)
    requires GoesOn(lines, accepts) && i < |lines|
    ensures !lines[i].EndMark? && lines[i] != Data(MessageStop)
  {
    LineReader.WentOn(Ending(accepts), lines, i + 1);
  }

  lemma {:induction false} GoingOnStaysLive(lines: seq<Line>, accepts: nat -> bool, k: nat)
    requires k <= |lines| && GoesOn(lines[..k], accepts)
    ensures k <= |Live(lines)| && forall i :: 0 <= i < k ==> lines[i] != Data(MessageStop)
  {
    LineReader.BeforeIsPrefix(Marks(), lines);
    forall i | 0 <= i < k
      ensures !lines[i].EndMark? && lines[i] != Data(MessageStop)
    {
      GoingOnIsLive(lines[..k], accepts, i);
    }
  }

  /** The k-th line is the first message_stop. */
  predicate FirstStop(lines: seq<Line>, k: nat) {
    k < |lines| && lines[k] == Data(MessageStop) && forall i :: 0 <= i < k ==> lines[i] != Data(MessageStop)
  }

  /** Reading in order stops at the first message_stop, or behind the last live line. */
  lemma {:induction false} StopsInOrder(lines: seq<Line>, accepts: nat -> bool, used: nat, end: ParseEnd)
    requires StopsAt(lines, false, accepts, used, end) && forall i :: accepts(i)
    ensures var live := Live(lines);
      if Data(MessageStop) in live
      then end == ByStop && used > 0 && FirstStop(live, used - 1) && lines[..used] == live[..used]
      else end == ByEnd
  {
    var live := Live(lines);
    LineReader.BeforeIsPrefix(Marks(), lines);
    if GoesOn(lines[..used], accepts) {
      GoingOnStaysLive(lines, accepts, used);
      assert live == lines[..used];
    } else {
      GoingOnStaysLive(lines, accepts, used - 1);
      assert lines[..used][used - 1] == lines[used - 1];
      if lines[used - 1].EndMark? {
        assert live == lines[..used - 1];
      } else {
        assert live[used - 1] == Data(MessageStop);
        assert live[..used - 1] == lines[..used - 1];
      }
    }
  }

  /** The event starts no call and is no fragment that would be kept. */
  predicate Idle(e: StreamEvent) {
    !e.ToolStart? && (e.JsonDelta? ==> e.fragment == "" || Dropped(e.fragment))
  }

  predicate AddsNothing(events: seq<StreamEvent>) {
    forall e :: e in events ==> Idle(e)
  }

  /** There is a message_stop, and no event behind the first one adds to the calls. */
  predicate WholeBeforeStop(lines: seq<Line>) {
    exists k :: 0 <= k < |lines| && FirstStop(lines, k) && AddsNothing(EventsOf(lines[k + 1..]))
  }

  lemma {:induction false} NextCallsGrows(calls: seq<ToolCall>, e: StreamEvent)
    ensures var next := NextCalls(calls, e);
      && (Idle(e) ==> next == calls)
      && (!Idle(e) ==> next == [] || Weight(next) > Weight(calls))
      && Weight(next) >= Weight(calls)
  {
    if e.ToolStart? {
      WeightSnoc(calls, ToolCall(StartedId(e.index, e.id), "function", e.name, ""));
    } else if e.JsonDelta? && calls != [] && !Idle(e) {
      var last := calls[|calls| - 1];
      WeightUpdate(calls, |calls| - 1, last.(arguments := last.arguments + e.fragment));
    }
  }

  lemma {:induction false} NoWeight(calls: seq<ToolCall>)
    ensures Weight(calls) == 0 <==> calls == []
  {
  }

  /** Further events leave the calls alone when they are idle, and otherwise make them grow, if there are any. */
  lemma {:induction false} CallsGrow(a: seq<StreamEvent>, b: seq<StreamEvent>)
    ensures AddsNothing(b) ==> Calls(a + b) == Calls(a)
    ensures !AddsNothing(b) ==> Calls(a + b) == [] || Weight(Calls(a + b)) > Weight(Calls(a))
    ensures Weight(Calls(a + b)) >= Weight(Calls(a))
  {
    if b == [] {
      assert a + b == a;
    } else {
      var k := |b| - 1;
      CallsGrow(a, b[..k]);
      assert (a + b)[..|a + b| - 1] == a + b[..k];
      NextCallsGrows(Calls(a + b[..k]), b[k]);
      NoWeight(Calls(a + b[..k]));
      NoWeight(Calls(a + b));
      assert forall e :: e in b <==> e in b[..k] || e == b[k];
    }
  }

  lemma {:induction false} EventsOfAppend(a: seq<Line>, b: seq<Line>)
    ensures EventsOf(a + b) == EventsOf(a) + EventsOf(b)
  {
    if b == [] {
      assert a + b == a;
    } else {
      EventsOfAppend(a, b[..|b| - 1]);
      assert (a + b)[..|a + b| - 1] == a + b[..|b| - 1];
    }
  }

  /** What arrives is what had been accumulated at the first message_stop before the end mark, if there is one. */
  lemma {:induction false} CallsArriveAtTheStop(lines: seq<Line>, accepts: nat -> bool, used: nat, end: ParseEnd)
    requires StopsAt(lines, false, accepts, used, end) && forall i :: accepts(i)
    ensures var live, arrived := Live(lines), LastCalls(Events(lines, used, end));
      if Data(MessageStop) in live
      then 0 < used <= |live| && FirstStop(live, used - 1) && arrived == Calls(EventsOf(live[..used]))
      else arrived == []
  {
    ResponseIsClosed(lines, false, accepts, used, end);
    StopsInOrder(lines, accepts, used, end);
  }

  /**
   A consumer that never stops gets the calls of a whole response exactly when the response has none,
   or message_stop comes before the end mark and the end of the input and nothing behind it adds to
   the calls.
   */
  lemma {:induction false} CallsArriveExactly(lines: seq<Line>, accepts: nat -> bool, used: nat, end: ParseEnd)
    requires StopsAt(lines, false, accepts, used, end) && forall i :: accepts(i)
    ensures var live, arrived := Live(lines), LastCalls(Events(lines, used, end));
      arrived == Calls(EventsOf(live)) <==> Calls(EventsOf(live)) == [] || WholeBeforeStop(live)
  {
    var live := Live(lines);
    CallsArriveAtTheStop(lines, accepts, used, end);
    if Data(MessageStop) in live {
      var before, after := live[..used], live[used..];
      assert live == before + after;
      EventsOfAppend(before, after);
      CallsGrow(EventsOf(before), EventsOf(after));
      NoWeight(Calls(EventsOf(before)));
      NoWeight(Calls(EventsOf(live)));
      assert forall i :: 0 <= i < |live| && FirstStop(live, i) ==> i == used - 1;
    }
  }

  /** A tool call and then the end of the input, without message_stop: the call is lost. */
  lemma {:induction false} CallsLostWithoutStop(index: nat, id: string, name: string, accepts: nat -> bool,
                                                used: nat, end: ParseEnd)
    requires forall i :: accepts(i)
    requires StopsAt([Data(ToolStart(index, id, name))], false, accepts, used, end)
    ensures var lines := [Data(ToolStart(index, id, name))];
      && Calls(EventsOf(lines)) == [ToolCall(StartedId(index, id), "function", name, "")]
      && end == ByEnd && LastCalls(Events(lines, used, end)) == []
  {
    var lines := [Data(ToolStart(index, id, name))];
    OneStart(index, id, name);
    LineReader.BeforeIsPrefix(Marks(), lines);
    StopsInOrder(lines, accepts, used, end);
    ResponseIsClosed(lines, false, accepts, used, end);
  }

  lemma {:induction false} OneStart(index: nat, id: string, name: string)
    ensures Calls(EventsOf([Data(ToolStart(index, id, name))]))
         == [ToolCall(StartedId(index, id), "function", name, "")]
  {
    var e := ToolStart(index, id, name);
    assert EventsOf([Data(e)]) == EventsOf([]) + [e];
    assert Calls([e]) == NextCalls(Calls([]), e) by {
      assert [e][..0] == [];
    }
    assert [] + [e] == [e];
  }
}
