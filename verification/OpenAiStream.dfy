/** The accumulator of OpenAI's streaming responses. */
module OpenAiStream {
  import opened Wrappers
  import opened Llm
  import LineReader

  /** One entry of `delta.tool_calls`. */
  datatype CallDelta = CallDelta(index: int, id: string, typ: string, name: string, arguments: string)

  /** The first choice of a chunk. */
  datatype Chunk = Chunk(content: string, reasoning: string, calls: seq<CallDelta>, finish: string,
                         usage: Option<Usage>)

  /** A line of the response: noise, the end mark, broken JSON, a chunk without choices, or a chunk. */
  datatype Line = Noise | EndMark | Broken | NoChoices | Data(chunk: Chunk)

  // ----- Accumulating calls -----

  /** One fragment; an index beyond the next free slot (or below 0) is out of range and panics. */
  function Accumulate(calls: seq<ToolCall>, d: CallDelta): Option<seq<ToolCall>> {
    var grown := if d.index >= |calls| then calls + [ToolCall(d.id, d.typ, "", "")] else calls;
    if 0 <= d.index < |grown| then
      var tc := grown[d.index];
      Some(grown[d.index := tc.(name := tc.name + d.name, arguments := tc.arguments + d.arguments)])
    else None
  }

  /** The calls after these fragments, on top of what is there. */
  function AccumulateOn(calls: seq<ToolCall>, ds: seq<CallDelta>): Option<seq<ToolCall>> {
    if ds == [] then Some(calls)
    else
      match AccumulateOn(calls, ds[..|ds| - 1])
      case None => None
      case Some(grown) => Accumulate(grown, ds[|ds| - 1])
  }

  function AccumulateAll(ds: seq<CallDelta>): Option<seq<ToolCall>> {
    AccumulateOn([], ds)
  }

  /** The highest index so far, -1 if there is none. */
  function Highest(ds: seq<CallDelta>): int {
    if ds == [] then -1 else Max(Highest(ds[..|ds| - 1]), ds[|ds| - 1].index)
  }

  /** No index is negative or skips a slot. */
  predicate NeverSkips(ds: seq<CallDelta>) {
    forall k :: 0 <= k < |ds| ==> 0 <= ds[k].index <= Highest(ds[..k]) + 1
  }

  /** The argument fragments of slot `i` in arrival order; `Names` likewise. */
  function Arguments(ds: seq<CallDelta>, i: int): string {
    if ds == [] then ""
    else Arguments(ds[..|ds| - 1], i) + if ds[|ds| - 1].index == i then ds[|ds| - 1].arguments else ""
  }

  function Names(ds: seq<CallDelta>, i: int): string {
    if ds == [] then ""
    else Names(ds[..|ds| - 1], i) + if ds[|ds| - 1].index == i then ds[|ds| - 1].name else ""
  }

  /** The first fragment of slot `i`. */
  function First(ds: seq<CallDelta>, i: int): Option<CallDelta> {
    if ds == [] then None
    else if First(ds[..|ds| - 1], i).Some? then First(ds[..|ds| - 1], i)
    else if ds[|ds| - 1].index == i then Some(ds[|ds| - 1])
    else None
  }

  ghost predicate Rebuilt(ds: seq<CallDelta>, calls: seq<ToolCall>, i: int)
    requires 0 <= i < |calls|
  {
    var first := First(ds, i);
    && first.Some?
    && calls[i] == ToolCall(first.value.id, first.value.typ, Names(ds, i), Arguments(ds, i))
  }

  lemma {:induction false} SkipsLast(ds: seq<CallDelta>)
    requires ds != []
    ensures var k := |ds| - 1;
      NeverSkips(ds) <==> NeverSkips(ds[..k]) && 0 <= ds[k].index <= Highest(ds[..k]) + 1
  {
    var k := |ds| - 1;
    assert forall j :: 0 <= j < k ==> ds[..j] == ds[..k][..j] && ds[j] == ds[..k][j];
  }

  /** Nothing has arrived for a slot beyond the calls, and every call is put together. */
  ghost predicate AllRebuilt(ds: seq<CallDelta>, calls: seq<ToolCall>) {
    && |calls| == Highest(ds) + 1
    && (forall i :: |calls| <= i ==> First(ds, i).None? && Names(ds, i) == "" && Arguments(ds, i) == "")
    && (forall i :: 0 <= i < |calls| ==> Rebuilt(ds, calls, i))
  }

  lemma {:induction false} OneMoreRebuilt(ds: seq<CallDelta>, before: seq<ToolCall>, calls: seq<ToolCall>)
    requires ds != [] && AllRebuilt(ds[..|ds| - 1], before)
    requires Accumulate(before, ds[|ds| - 1]) == Some(calls)
    ensures AllRebuilt(ds, calls)
  {
    forall i | 0 <= i < |calls|
      ensures Rebuilt(ds, calls, i)
    {
      if i < |before| {
        assert Rebuilt(ds[..|ds| - 1], before, i);
      }
    }
  }

  /**
   The fragments can be put together exactly when no index skips. Then there is one call per index,
   with the id and type of its first fragment and the concatenation of all its fragments in arrival
   order. This is about the fragments that are read; which ones are is another matter.
   */
  lemma {:induction false} CallsAreRebuilt(ds: seq<CallDelta>)
    ensures AccumulateAll(ds).Some? <==> NeverSkips(ds)
    ensures AccumulateAll(ds).Some? ==> AllRebuilt(ds, AccumulateAll(ds).value)
  {
    if ds != [] {
      var init := ds[..|ds| - 1];
      CallsAreRebuilt(init);
      SkipsLast(ds);
      if AccumulateAll(ds).Some? {
        OneMoreRebuilt(ds, AccumulateAll(init).value, AccumulateAll(ds).value);
      }
    }
  }

  // ----- The stream -----

  function CallDeltas(lines: seq<Line>): seq<CallDelta> {
    if lines == [] then []
    else CallDeltas(lines[..|lines| - 1]) + if lines[|lines| - 1].Data? then lines[|lines| - 1].chunk.calls else []
  }

  function Contents(lines: seq<Line>): string {
    if lines == [] then ""
    else Contents(lines[..|lines| - 1]) + if lines[|lines| - 1].Data? then lines[|lines| - 1].chunk.content else ""
  }

  function Reasonings(lines: seq<Line>): string {
    if lines == [] then ""
    else Reasonings(lines[..|lines| - 1]) + if lines[|lines| - 1].Data? then lines[|lines| - 1].chunk.reasoning else ""
  }

  /** The calls accumulated from the lines, unless an index was out of range. */
  function CallsOf(lines: seq<Line>): Option<seq<ToolCall>> {
    if lines == [] then Some([])
    else
      var last := lines[|lines| - 1];
      match CallsOf(lines[..|lines| - 1])
      case None => None
      case Some(calls) => if last.Data? then AccumulateOn(calls, last.chunk.calls) else Some(calls)
  }

  lemma {:induction false} AccumulateAppend(calls: seq<ToolCall>, a: seq<CallDelta>, b: seq<CallDelta>)
    ensures AccumulateOn(calls, a + b) ==
      match AccumulateOn(calls, a)
      case None => None
      case Some(grown) => AccumulateOn(grown, b)
  {
    if b == [] {
      assert a + b == a;
    } else {
      AccumulateAppend(calls, a, b[..|b| - 1]);
      assert (a + b)[..|a + b| - 1] == a + b[..|b| - 1];
    }
  }

  /** Among lines that are all read, it does not matter how the fragments are spread over them. */
  lemma {:induction false} CallsOfIsFold(lines: seq<Line>)
    ensures CallsOf(lines) == AccumulateAll(CallDeltas(lines))
  {
    if lines != [] {
      var before, last := lines[..|lines| - 1], lines[|lines| - 1];
      CallsOfIsFold(before);
      AccumulateAppend([], CallDeltas(before), if last.Data? then last.chunk.calls else []);
    }
  }

  /** The rule that ends a stream at a chunk, given the calls accumulated including it. */
  predicate Ends(chunk: Chunk, calls: seq<ToolCall>) {
    chunk.finish != "" || (chunk.calls == [] && calls != [])
  }

  function ChunkEvent(chunk: Chunk, calls: seq<ToolCall>): Event {
    Event(chunk.content, chunk.reasoning, calls, chunk.finish, Ends(chunk, calls), chunk.usage, None)
  }

  const DONE := Event("", "", [], "", true, None, None)

  /** The events pushed for the lines: one for each chunk, with the calls accumulated so far. */
  function Pushes(lines: seq<Line>): seq<Event> {
    if lines == [] then []
    else
      var last := lines[|lines| - 1];
      Pushes(lines[..|lines| - 1])
        + if last.Data? && CallsOf(lines).Some? then [ChunkEvent(last.chunk, CallsOf(lines).value)] else []
  }

  datatype ParseEnd =
    | ByRule        // the end rule held: the last event is done and carries the calls
    | ByEnd         // the end mark or the end of the input: the last event is done and empty
    | Stopped       // the consumer stopped
    | ParseFailed
    | ReadFailed
    | Panicked      // an index out of range

  /** How reading ends at the last of these lines, if it ends there. */
  function EndAt(lines: seq<Line>, accepts: nat -> bool): Option<ParseEnd> {
    if lines == [] then None
    else
      match lines[|lines| - 1]
      case EndMark => Some(ByEnd)
      case Broken => Some(ParseFailed)
      case Data(chunk) =>
        if CallsOf(lines).None? then Some(Panicked)
        else if !accepts(|Pushes(lines)| - 1) then Some(Stopped)
        else if Ends(chunk, CallsOf(lines).value) then Some(ByRule)
        else None
      case _ => None
  }

  function Ending(accepts: nat -> bool): seq<Line> -> Option<ParseEnd> {
    (lines: seq<Line>) => EndAt(lines, accepts)
  }

  /** Reading goes on past every one of these lines. */
  predicate GoesOn(lines: seq<Line>, accepts: nat -> bool) {
    LineReader.GoesOn(Ending(accepts), lines)
  }

  /** Reading stops right behind the first `used` lines, in this way. */
  predicate StopsAt(lines: seq<Line>, readFails: bool, accepts: nat -> bool, used: nat, end: ParseEnd) {
    LineReader.StopsAt(Ending(accepts), if readFails then ReadFailed else ByEnd, lines, used, end)
  }

  /** The events of a whole response of which `used` lines were read. */
  function Events(lines: seq<Line>, used: nat, end: ParseEnd): seq<Event>
    requires used <= |lines|
  {
    Pushes(lines[..used]) + if end.ByEnd? then [DONE] else []
  }

  method AccumulateChunk(calls: seq<ToolCall>, ds: seq<CallDelta>) returns (res: Option<seq<ToolCall>>)
    ensures res == AccumulateOn(calls, ds)
  {
    res := Some(calls);
    for i := 0 to |ds|
      invariant res.Some? && res == AccumulateOn(calls, ds[..i])
    {
      assert ds[..i + 1][..i] == ds[..i];
      res := Accumulate(res.value, ds[i]);
      if res.None? {
        PanicLasts(calls, ds, i + 1);
        return;
      }
    }
    assert ds[..|ds|] == ds;
  }

  lemma {:induction false} PanicLasts(calls: seq<ToolCall>, ds: seq<CallDelta>, k: nat)
    requires k <= |ds| && AccumulateOn(calls, ds[..k]).None?
    ensures AccumulateOn(calls, ds).None?
  {
    assert ds == ds[..k] + ds[k..];
    AccumulateAppend(calls, ds[..k], ds[k..]);
  }

  /** What is known between two lines. */
  ghost predicate Reading(events: seq<Event>, calls: seq<ToolCall>, lines: seq<Line>, accepts: nat -> bool) {
    events == Pushes(lines) && CallsOf(lines) == Some(calls) && GoesOn(lines, accepts)
  }

  /** One line: the events and calls after it, and how it ends the stream, if it does. */
  method ReadLine(before: seq<Event>, calls: seq<ToolCall>, lines: seq<Line>, i: nat, accepts: nat -> bool)
    returns (events: seq<Event>, grown: seq<ToolCall>, end: Option<ParseEnd>)
    requires i < |lines| && Reading(before, calls, lines[..i], accepts)
    ensures end == EndAt(lines[..i + 1], accepts)
    ensures end.None? ==> Reading(events, grown, lines[..i + 1], accepts)
    ensures events == Pushes(lines[..i + 1]) + if end == Some(ByEnd) then [DONE] else []
  {
    ghost var read := lines[..i + 1];
    assert read[..i] == lines[..i] && read[i] == lines[i];
    PushesSnoc(read);
    events, grown, end := before, calls, None;
    match lines[i] {
      case Noise =>
      case NoChoices =>
      case Broken => end := Some(ParseFailed);
      case EndMark => events, end := before + [DONE], Some(ByEnd);
      case Data(chunk) =>
        var more := AccumulateChunk(calls, chunk.calls);
        if more.None? {
          return before, calls, Some(Panicked);
        }
        grown := more.value;
        events := before + [ChunkEvent(chunk, grown)];
        if !accepts(|events| - 1) {
          end := Some(Stopped);
        } else if Ends(chunk, grown) {
          end := Some(ByRule);
        }
    }
  }

  /**
   `parseStreamResponse`. The input and the consumer's answers determine everything: where reading
   stops and how, and every event pushed.
   */
  method ParseStream(lines: seq<Line>, readFails: bool, accepts: nat -> bool)
    returns (events: seq<Event>, end: ParseEnd, used: nat)
    ensures StopsAt(lines, readFails, accepts, used, end)
    ensures events == Events(lines, used, end)
  {
    events := [];
    var calls: seq<ToolCall> := [];
    for i := 0 to |lines|
      invariant Reading(events, calls, lines[..i], accepts)
    {
      var ended;
      events, calls, ended := ReadLine(events, calls, lines, i, accepts);
      if ended.Some? {
        assert lines[..i + 1][..i] == lines[..i];
        return events, ended.value, i + 1;
      }
    }
    used := |lines|;
    assert lines[..|lines|] == lines;
    if readFails {
      return events, ReadFailed, used;
    }
    events, end := events + [DONE], ByEnd;
  }

  // ----- What the consumer gets -----

  /** The events for one line more. */
  lemma {:induction false} PushesSnoc(lines: seq<Line>)
    requires lines != []
    ensures var before, last := lines[..|lines| - 1], lines[|lines| - 1];
      if last.Data? && CallsOf(lines).Some?
      then Pushes(lines) == Pushes(before) + [ChunkEvent(last.chunk, CallsOf(lines).value)]
      else Pushes(lines) == Pushes(before)
    ensures var before, last := lines[..|lines| - 1], lines[|lines| - 1];
      !last.Data? ==>
        && CallsOf(lines) == CallsOf(before)
        && Contents(lines) == Contents(before) && Reasonings(lines) == Reasonings(before)
  {
    var before := lines[..|lines| - 1];
    assert Pushes(before) + [] == Pushes(before);
    assert Contents(before) + "" == Contents(before) && Reasonings(before) + "" == Reasonings(before);
  }

  /** The events stream exactly the content and the reasoning of the chunks. */
  lemma {:induction false} PushesStream(lines: seq<Line>)
    requires CallsOf(lines).Some?
    ensures Deltas(Pushes(lines)) == Contents(lines) && Thinks(Pushes(lines)) == Reasonings(lines)
  {
    if lines != [] {
      var before, last := lines[..|lines| - 1], lines[|lines| - 1];
      PushesStream(before);
      PushesSnoc(lines);
      if last.Data? {
        EventSnoc(Pushes(before), ChunkEvent(last.chunk, CallsOf(lines).value));
      }
    }
  }

  lemma {:induction false} GoingOnIsAccepted(lines: seq<Line>, accepts: nat -> bool)
    requires GoesOn(lines, accepts)
    ensures CallsOf(lines).Some? && AcceptedAll(accepts, |Pushes(lines)|)
  {
    if lines != [] {
      GoingOnIsAccepted(lines[..|lines| - 1], accepts);
      PushesSnoc(lines);
    }
  }

  lemma {:induction false} GoingOnIsOpen(lines: seq<Line>, accepts: nat -> bool)
    requires GoesOn(lines, accepts)
    ensures Open(Pushes(lines))
  {
    if lines != [] {
      var before, last := lines[..|lines| - 1], lines[|lines| - 1];
      GoingOnIsOpen(before, accepts);
      PushesSnoc(lines);
      if last.Data? && CallsOf(lines).Some? {
        OpenSnoc(Pushes(before), ChunkEvent(last.chunk, CallsOf(lines).value));
      }
    }
  }

  /** The event of the last chunk read. */
  function LastChunk(read: seq<Line>): Event
    requires read != [] && read[|read| - 1].Data? && CallsOf(read).Some?
  {
    ChunkEvent(read[|read| - 1].chunk, CallsOf(read).value)
  }

  /** The events of a response by the way it ended; `read` are the lines read. */
  ghost predicate Streamed(events: seq<Event>, read: seq<Line>, accepts: nat -> bool, end: ParseEnd) {
    && (!end.Panicked? ==> Deltas(events) == Contents(read) && Thinks(events) == Reasonings(read))
    && (events != [] ==> AcceptedAll(accepts, |events| - 1))
    && match end
       case ByEnd => ClosedBy(events, DONE)
       case Panicked => Open(events)
       case ParseFailed => Open(events)
       case ReadFailed => Open(events)
       case Stopped => events != [] && ClosedBy(events, events[|events| - 1]) && !accepts(|events| - 1)
       case ByRule =>
         read != [] && read[|read| - 1].Data? && CallsOf(read).Some? &&
         ClosedBy(events, LastChunk(read)) && LastChunk(read).done
  }

  lemma {:induction false} EndIsStreamed(lines: seq<Line>, readFails: bool, accepts: nat -> bool)
    requires GoesOn(lines, accepts)
    ensures if readFails then Streamed(Pushes(lines), lines, accepts, ReadFailed)
            else Streamed(Pushes(lines) + [DONE], lines, accepts, ByEnd)
  {
    GoingOnIsAccepted(lines, accepts);
    GoingOnIsOpen(lines, accepts);
    PushesStream(lines);
    OpenSnoc(Pushes(lines), DONE);
    EventSnoc(Pushes(lines), DONE);
  }

  lemma {:induction false} ChunkIsPushed(read: seq<Line>, accepts: nat -> bool)
    requires read != [] && read[|read| - 1].Data? && GoesOn(read[..|read| - 1], accepts) && CallsOf(read).Some?
    ensures var events := Pushes(read);
      ClosedBy(events, LastChunk(read)) && AcceptedAll(accepts, |events| - 1)
  {
    var before := Pushes(read[..|read| - 1]);
    GoingOnIsAccepted(read[..|read| - 1], accepts);
    GoingOnIsOpen(read[..|read| - 1], accepts);
    PushesSnoc(read);
    OpenSnoc(before, LastChunk(read));
  }

  lemma {:induction false} PanicIsStreamed(read: seq<Line>, accepts: nat -> bool)
    requires read != [] && GoesOn(read[..|read| - 1], accepts) && CallsOf(read).None?
    ensures Streamed(Pushes(read), read, accepts, Panicked)
  {
    GoingOnIsAccepted(read[..|read| - 1], accepts);
    GoingOnIsOpen(read[..|read| - 1], accepts);
    PushesSnoc(read);
  }

  lemma {:induction false} ChunkIsStreamed(read: seq<Line>, accepts: nat -> bool, end: ParseEnd)
    requires read != [] && read[|read| - 1].Data? && GoesOn(read[..|read| - 1], accepts)
    requires EndAt(read, accepts) == Some(end)
    ensures Streamed(Pushes(read), read, accepts, end)
  {
    if CallsOf(read).Some? {
      ChunkIsPushed(read, accepts);
      PushesStream(read);
    } else {
      PanicIsStreamed(read, accepts);
    }
  }

  lemma {:induction false} MarkIsStreamed(read: seq<Line>, accepts: nat -> bool, end: ParseEnd)
    requires read != [] && !read[|read| - 1].Data? && GoesOn(read[..|read| - 1], accepts)
    requires EndAt(read, accepts) == Some(end)
    ensures Streamed(Pushes(read) + if end.ByEnd? then [DONE] else [], read, accepts, end)
  {
    EndIsStreamed(read[..|read| - 1], !end.ByEnd?, accepts);
    PushesSnoc(read);
    assert Pushes(read) + [] == Pushes(read);
  }

  /**
   What is pushed streams exactly the content and reasoning of what was read. The consumer accepted
   every event but perhaps the last; at most one event is done, and it is the last: the first chunk
   that satisfies the end rule, with all calls, or an empty event at the end.
   */
  lemma {:induction false} ResponseIsStreamed(lines: seq<Line>, readFails: bool, accepts: nat -> bool,
                                              used: nat, end: ParseEnd)
    requires StopsAt(lines, readFails, accepts, used, end)
    ensures Streamed(Events(lines, used, end), lines[..used], accepts, end)
  {
    var read := lines[..used];
    assert Pushes(read) + [] == Pushes(read);
    if GoesOn(read, accepts) {
      EndIsStreamed(read, readFails, accepts);
    } else {
      assert read[..|read| - 1] == lines[..used - 1];
      if read[|read| - 1].Data? {
        ChunkIsStreamed(read, accepts, end);
      } else {
        MarkIsStreamed(read, accepts, end);
      }
    }
  }

  /** Every line is passed on by itself: a chunk as one event with everything it carries and the calls so far. */
  lemma {:induction false} LinesArePassedOn(lines: seq<Line>, i: nat)
    requires i < |lines| && CallsOf(lines[..i + 1]).Some?
    ensures Pushes(lines[..i + 1]) == Pushes(lines[..i]) +
      match lines[i]
      case Data(Chunk(content, reasoning, calls, finish, usage)) =>
        [Event(content, reasoning, AccumulateAll(CallDeltas(lines[..i + 1])).GetOr([]), finish,
               finish != "" || (calls == [] && CallDeltas(lines[..i]) != []), usage, None)]
      case _ => []
  {
    var read := lines[..i + 1];
    assert read[..i] == lines[..i] && read[i] == lines[i];
    PushesSnoc(read);
    CallsOfIsFold(read);
    if lines[i].Data? {
      NoCallsNoDeltas(CallDeltas(read));
    }
  }

  /** The input ran out, or could not be read on. */
  predicate AtInputEnd(lines: seq<Line>, readFails: bool, used: nat, end: ParseEnd) {
    used == |lines| && end == if readFails then ReadFailed else ByEnd
  }

  /** Why reading stops at the last of these lines, if it does, by what they carry. */
  ghost function Why(read: seq<Line>, accepts: nat -> bool): Option<ParseEnd>
    requires read != []
  {
    var k := |read| - 1;
    match read[k]
    case EndMark => Some(ByEnd)
    case Broken => Some(ParseFailed)
    case Data(chunk) =>
      if !NeverSkips(CallDeltas(read)) then Some(Panicked)
      else if !AcceptedAll(accepts, |Pushes(read)|) then Some(Stopped)
      else if chunk.finish != "" || (chunk.calls == [] && CallDeltas(read[..k]) != []) then Some(ByRule)
      else None
    case _ => None
  }

  lemma {:induction false} EndTellsWhy(read: seq<Line>, accepts: nat -> bool)
    requires read != [] && GoesOn(read[..|read| - 1], accepts)
    ensures EndAt(read, accepts) == Why(read, accepts)
  {
    CallsOfIsFold(read);
    CallsAreRebuilt(CallDeltas(read));
    if read[|read| - 1].Data? && CallsOf(read).Some? {
      ChunkTellsWhy(read, accepts);
    }
  }

  lemma {:induction false} ChunkTellsWhy(read: seq<Line>, accepts: nat -> bool)
    requires read != [] && GoesOn(read[..|read| - 1], accepts) && read[|read| - 1].Data? && CallsOf(read).Some?
    ensures |Pushes(read)| > 0 && (accepts(|Pushes(read)| - 1) <==> AcceptedAll(accepts, |Pushes(read)|))
    ensures var chunk := read[|read| - 1].chunk;
      Ends(chunk, CallsOf(read).value) <==>
        chunk.finish != "" || (chunk.calls == [] && CallDeltas(read[..|read| - 1]) != [])
  {
    GoingOnIsAccepted(read[..|read| - 1], accepts);
    PushesSnoc(read);
    CallsOfIsFold(read);
    NoCallsNoDeltas(CallDeltas(read));
  }

  /** The last line read tells why reading stopped, and no line before it would have. */
  lemma {:induction false} StopsTellWhy(lines: seq<Line>, readFails: bool, accepts: nat -> bool,
                                        used: nat, end: ParseEnd)
    requires StopsAt(lines, readFails, accepts, used, end)
    ensures forall i :: 0 <= i < used - 1 ==> !lines[i].EndMark? && !lines[i].Broken?
    ensures if used > 0 && Why(lines[..used], accepts).Some? then end == Why(lines[..used], accepts).value
            else AtInputEnd(lines, readFails, used, end)
  {
    var read := lines[..used];
    if used > 0 {
      assert read[..used - 1] == lines[..used - 1];
      EndTellsWhy(read, accepts);
      forall i | 0 <= i < used - 1
        ensures !lines[i].EndMark? && !lines[i].Broken?
      {
        WentOnPast(lines[..used - 1], accepts, i);
      }
    }
  }

  lemma {:induction false} WentOnPast(lines: seq<Line>, accepts: nat -> bool, i: nat)
    requires GoesOn(lines, accepts) && i < |lines|
    ensures EndAt(lines[..i + 1], accepts).None? && !lines[i].EndMark? && !lines[i].Broken?
  {
    LineReader.WentOn(Ending(accepts), lines, i + 1);
    assert lines[..i + 1][i] == lines[i];
  }

  // ----- Which calls arrive -----

  function Marks(): Line -> bool {
    (line: Line) => line.EndMark?
  }

  /** The lines before the end mark. */
  function Live(lines: seq<Line>): seq<Line> {
    LineReader.Before(Marks(), lines)
  }

  /** The i-th line is a chunk with a finish reason, or one without calls behind one with calls. */
  predicate Closes(lines: seq<Line>, i: nat)
    requires i < |lines|
  {
    lines[i].Data? && (lines[i].chunk.finish != "" || (lines[i].chunk.calls == [] && CallDeltas(lines[..i]) != []))
  }

  predicate Closed(lines: seq<Line>) {
    exists i :: 0 <= i < |lines| && Closes(lines, i)
  }

  /** The k-th line is the first that closes the stream. */
  predicate FirstCloses(lines: seq<Line>, k: nat) {
    k < |lines| && Closes(lines, k) && forall i :: 0 <= i < k ==> !Closes(lines, i)
  }

  /** No fragment in `after` opens a call that `before` does not have, and none carries any text. */
  predicate AddsNothing(before: seq<Line>, after: seq<Line>) {
    forall d :: d in CallDeltas(after) ==> d.index <= Highest(CallDeltas(before)) && d.name == "" && d.arguments == ""
  }

  /** Some chunk closes the stream, and the calls are whole by the first one that does. */
  predicate WholeBeforeClose(lines: seq<Line>) {
    exists k :: 0 <= k < |lines| && FirstCloses(lines, k) && AddsNothing(lines[..k + 1], lines[k + 1..])
  }

  lemma {:induction false} NoCallsNoDeltas(ds: seq<CallDelta>)
    requires AccumulateAll(ds).Some?
    ensures AccumulateAll(ds).value == [] <==> ds == []
  {
  }

  lemma {:induction false} ClosesEnds(lines: seq<Line>, i: nat)
    requires i < |lines| && lines[i].Data? && CallsOf(lines[..i + 1]).Some?
    ensures Ends(lines[i].chunk, CallsOf(lines[..i + 1]).value) <==> Closes(lines, i)
  {
    assert lines[..i + 1][..i] == lines[..i] && lines[..i + 1][i] == lines[i];
    CallsOfIsFold(lines[..i + 1]);
    NoCallsNoDeltas(CallDeltas(lines[..i + 1]));
  }

  /** When reading goes on to the end mark, no line before it closes the stream. */
  lemma {:induction false} GoingOnNeverCloses(lines: seq<Line>, accepts: nat -> bool, i: nat)
    requires GoesOn(lines, accepts) && i < |lines|
    ensures !Closes(lines, i) && !lines[i].EndMark?
  {
    LineReader.WentOn(Ending(accepts), lines, i + 1);
    assert lines[..i + 1][..i] == lines[..i] && lines[..i + 1][i] == lines[i];
    if lines[i].Data? {
      ClosesEnds(lines, i);
    }
  }

  lemma {:induction false} GoingOnIsOpenEnded(lines: seq<Line>, accepts: nat -> bool)
    requires GoesOn(lines, accepts)
    ensures !Closed(lines)
  {
    forall i | 0 <= i < |lines|
      ensures !Closes(lines, i)
    {
      GoingOnNeverCloses(lines, accepts, i);
    }
  }

  lemma {:induction false} GoingOnIsLive(lines: seq<Line>, accepts: nat -> bool, k: nat)
    requires k <= |lines| && GoesOn(lines[..k], accepts)
    ensures k <= |Live(lines)|
  {
    LineReader.BeforeIsPrefix(Marks(), lines);
    if |Live(lines)| < k {
      GoingOnNeverCloses(lines[..k], accepts, |Live(lines)|);
    }
  }

  lemma {:induction false} CallsUpTo(lines: seq<Line>, k: nat)
    requires CallsOf(lines).Some? && k <= |lines|
    ensures CallsOf(lines[..k]).Some?
  {
    if k < |lines| {
      CallsUpTo(lines[..|lines| - 1], k);
      assert lines[..|lines| - 1][..k] == lines[..k];
    } else {
      assert lines[..k] == lines;
    }
  }

  /** Reading to the end of the live lines. */
  lemma {:induction false} StopsBehindLive(lines: seq<Line>, accepts: nat -> bool, k: nat)
    requires k <= |lines| && GoesOn(lines[..k], accepts) && (k == |lines| || lines[k].EndMark?)
    ensures Live(lines) == lines[..k] && !Closed(Live(lines))
  {
    GoingOnIsLive(lines, accepts, k);
    LineReader.BeforeIsPrefix(Marks(), lines);
    GoingOnIsOpenEnded(lines[..k], accepts);
  }

  /** Reading to a chunk that ends the stream. */
  lemma {:induction false} StopsAtChunk(lines: seq<Line>, accepts: nat -> bool, k: nat)
    requires k < |lines| && GoesOn(lines[..k], accepts) && lines[k].Data? && CallsOf(Live(lines)).Some?
    requires CallsOf(lines[..k + 1]).Some? ==> Ends(lines[k].chunk, CallsOf(lines[..k + 1]).value)
    ensures FirstCloses(Live(lines), k) && lines[..k + 1] == Live(lines)[..k + 1] && CallsOf(lines[..k + 1]).Some?
  {
    var live := Live(lines);
    GoingOnIsLive(lines, accepts, k);
    LineReader.BeforeIsPrefix(Marks(), lines);
    assert lines[..k + 1] == live[..k + 1] && lines[..k] == live[..k];
    CallsUpTo(live, k + 1);
    ClosesEnds(lines, k);
    assert Closes(live, k);
    forall i | 0 <= i < k
      ensures !Closes(live, i)
    {
      GoingOnNeverCloses(lines[..k], accepts, i);
      assert lines[..k][..i] == live[..i];
    }
  }

  lemma {:induction false} LiveAt(lines: seq<Line>, accepts: nat -> bool, k: nat)
    requires k < |lines| && GoesOn(lines[..k], accepts)
    ensures !lines[k].EndMark? ==> k < |Live(lines)| && Live(lines)[k] == lines[k]
  {
    GoingOnIsLive(lines, accepts, k);
    LineReader.BeforeIsPrefix(Marks(), lines);
  }

  /** Reading a response in order stops at a chunk that closes it, or behind its last live line. */
  lemma {:induction false} StopsInOrder(lines: seq<Line>, accepts: nat -> bool, used: nat, end: ParseEnd)
    requires StopsAt(lines, false, accepts, used, end) && forall i :: accepts(i)
    requires CallsOf(Live(lines)).Some? && forall i :: 0 <= i < |Live(lines)| ==> !Live(lines)[i].Broken?
    ensures if Closed(Live(lines))
            then end == ByRule && used > 0 && FirstCloses(Live(lines), used - 1) && lines[..used] == Live(lines)[..used]
            else end == ByEnd && CallsOf(lines[..used]) == CallsOf(Live(lines))
  {
    var read := lines[..used];
    if GoesOn(read, accepts) {
      StopsBehindLive(lines, accepts, used);
    } else {
      assert read[..used - 1] == lines[..used - 1] && read[used - 1] == lines[used - 1];
      LiveAt(lines, accepts, used - 1);
      match lines[used - 1]
      case EndMark =>
        StopsBehindLive(lines, accepts, used - 1);
        PushesSnoc(read);
      case Data(_) => StopsAtChunk(lines, accepts, used - 1);
      case _ =>
    }
  }

  // ----- What a fragment adds -----

  /** The fragment changes none of the first `n` calls and opens no other. */
  predicate Idle(d: CallDelta, n: nat) {
    d.index < n && d.name == "" && d.arguments == ""
  }

  lemma {:induction false} AccumulateGrows(calls: seq<ToolCall>, d: CallDelta)
    requires Accumulate(calls, d).Some?
    ensures var grown := Accumulate(calls, d).value;
      if Idle(d, |calls|) then grown == calls else Weight(grown) > Weight(calls)
  {
    var slot := ToolCall(d.id, d.typ, "", "");
    var wide := if d.index >= |calls| then calls + [slot] else calls;
    var tc := wide[d.index];
    var more := tc.(name := tc.name + d.name, arguments := tc.arguments + d.arguments);
    WeightSnoc(calls, slot);
    WeightUpdate(wide, d.index, more);
    if Idle(d, |calls|) {
      assert more == tc;
    }
  }

  /** Fragments leave the calls alone exactly when every one of them is idle; otherwise the calls grow. */
  lemma {:induction false} AccumulateOnGrows(calls: seq<ToolCall>, ds: seq<CallDelta>)
    requires AccumulateOn(calls, ds).Some?
    ensures var grown := AccumulateOn(calls, ds).value;
      if forall d :: d in ds ==> Idle(d, |calls|) then grown == calls else Weight(grown) > Weight(calls)
  {
    if ds != [] {
      var k := |ds| - 1;
      AccumulateOnGrows(calls, ds[..k]);
      AccumulateGrows(AccumulateOn(calls, ds[..k]).value, ds[k]);
      assert forall d :: d in ds <==> d in ds[..k] || d == ds[k];
    }
  }

  lemma {:induction false} CallDeltasAppend(a: seq<Line>, b: seq<Line>)
    ensures CallDeltas(a + b) == CallDeltas(a) + CallDeltas(b)
  {
    if b == [] {
      assert a + b == a;
    } else {
      var k := |b| - 1;
      CallDeltasAppend(a, b[..k]);
      assert (a + b)[..|a + b| - 1] == a + b[..k];
    }
  }

  /** Further lines leave the calls as they are exactly when they add nothing; they never leave fewer. */
  lemma {:induction false} RestAdds(before: seq<Line>, after: seq<Line>)
    requires CallsOf(before).Some? && CallsOf(before + after).Some?
    ensures CallsOf(before + after) == CallsOf(before) <==> AddsNothing(before, after)
    ensures CallsOf(before + after).value == [] ==> CallsOf(before).value == []
  {
    CallsOfIsFold(before);
    CallsOfIsFold(before + after);
    CallDeltasAppend(before, after);
    AccumulateAppend([], CallDeltas(before), CallDeltas(after));
    CallsAreRebuilt(CallDeltas(before));
    AccumulateOnGrows(CallsOf(before).value, CallDeltas(after));
  }

  /** What arrives is what had been accumulated when the first chunk closed the stream, if one does. */
  lemma {:induction false} CallsArriveAtTheClose(lines: seq<Line>, accepts: nat -> bool, used: nat, end: ParseEnd)
    requires StopsAt(lines, false, accepts, used, end) && forall i :: accepts(i)
    requires CallsOf(Live(lines)).Some? && forall i :: 0 <= i < |Live(lines)| ==> !Live(lines)[i].Broken?
    ensures var live, arrived := Live(lines), LastCalls(Events(lines, used, end));
      if Closed(live) then used > 0 && FirstCloses(live, used - 1) && CallsOf(live[..used]) == Some(arrived)
      else arrived == []
  {
    LineReader.BeforeIsPrefix(Marks(), lines);
    ResponseIsStreamed(lines, false, accepts, used, end);
    StopsInOrder(lines, accepts, used, end);
  }

  /**
   A consumer that never stops gets the calls of a whole response, without a broken line or a skipped
   index before its end mark, exactly when the response has none, or the first chunk that closes it
   comes when they are whole: no later fragment opens a call or carries any text.
   */
  lemma {:induction false} CallsArriveExactly(lines: seq<Line>, accepts: nat -> bool, used: nat, end: ParseEnd)
    requires StopsAt(lines, false, accepts, used, end) && forall i :: accepts(i)
    requires CallsOf(Live(lines)).Some? && forall i :: 0 <= i < |Live(lines)| ==> !Live(lines)[i].Broken?
    ensures var live, arrived := Live(lines), LastCalls(Events(lines, used, end));
      arrived == CallsOf(live).value <==> CallsOf(live).value == [] || WholeBeforeClose(live)
  {
    var live := Live(lines);
    CallsArriveAtTheClose(lines, accepts, used, end);
    if Closed(live) {
      assert live == live[..used] + live[used..];
      RestAdds(live[..used], live[used..]);
      assert forall k :: 0 <= k < |live| && FirstCloses(live, k) ==> k == used - 1;
    }
  }

  lemma {:induction false} OneCall(d: CallDelta)
    requires d.index == 0
    ensures AccumulateAll([d]) == Some([ToolCall(d.id, d.typ, d.name, d.arguments)])
  {
    assert [d][..0] == [] && AccumulateAll([d][..0]) == Some([]);
    var grown := [] + [ToolCall(d.id, d.typ, "", "")];
    var call := ToolCall(d.id, d.typ, "" + d.name, "" + d.arguments);
    assert AccumulateAll([d]) == Some(grown[0 := call]) && grown[0 := call] == [call];
    assert "" + d.name == d.name && "" + d.arguments == d.arguments;
  }

  /** A response that nothing closes delivers no calls. */
  lemma {:induction false} LostWhenNotClosed(lines: seq<Line>, accepts: nat -> bool, used: nat, end: ParseEnd)
    requires StopsAt(lines, false, accepts, used, end) && forall i :: accepts(i)
    requires CallsOf(Live(lines)).Some? && forall i :: 0 <= i < |Live(lines)| ==> !Live(lines)[i].Broken?
    requires !Closed(Live(lines))
    ensures end == ByEnd && LastCalls(Events(lines, used, end)) == []
  {
    StopsInOrder(lines, accepts, used, end);
    ResponseIsStreamed(lines, false, accepts, used, end);
  }

  lemma {:induction false} OneChunk(d: CallDelta)
    requires d.index == 0
    ensures var lines := [Data(Chunk("", "", [d], "", None))];
      && CallsOf(lines) == Some([ToolCall(d.id, d.typ, d.name, d.arguments)])
      && Live(lines) == lines && !Closed(lines)
  {
    var lines := [Data(Chunk("", "", [d], "", None))];
    assert lines[..0] == [] && lines[1..] == [];
    assert Live(lines) == [lines[0]] + Live([]);
    assert CallDeltas(lines) == [d];
    CallsOfIsFold(lines);
    OneCall(d);
  }

  /** One chunk with a call and then the end of the input: the call is accumulated and lost. */
  lemma {:induction false} CallsLostAtTheEnd(d: CallDelta, accepts: nat -> bool, used: nat, end: ParseEnd)
    requires d.index == 0 && forall i :: accepts(i)
    requires StopsAt([Data(Chunk("", "", [d], "", None))], false, accepts, used, end)
    ensures var lines := [Data(Chunk("", "", [d], "", None))];
      && CallsOf(lines) == Some([ToolCall(d.id, d.typ, d.name, d.arguments)])
      && end == ByEnd && LastCalls(Events(lines, used, end)) == []
  {
    OneChunk(d);
    LostWhenNotClosed([Data(Chunk("", "", [d], "", None))], accepts, used, end);
  }

  /** A call whose arguments come in two chunks, with a chunk of reasoning between them, and a finish. */
  function Interrupted(d: CallDelta, thought: string, rest: string): seq<Line> {
    [Data(Chunk("", "", [d], "", None)),
     Data(Chunk("", thought, [], "", None)),
     Data(Chunk("", "", [CallDelta(0, "", "", "", rest)], "", None)),
     Data(Chunk("", "", [], "tool_calls", None))]
  }

  lemma {:induction false} CallsOfInterrupted(d: CallDelta, thought: string, rest: string)
    requires d.index == 0
    ensures var lines := Interrupted(d, thought, rest);
      && CallsOf(lines[..2]) == Some([ToolCall(d.id, d.typ, d.name, d.arguments)])
      && CallsOf(lines) == Some([ToolCall(d.id, d.typ, d.name, d.arguments + rest)])
  {
    var lines := Interrupted(d, thought, rest);
    var one := lines[..1];
    OneChunk(d);
    assert one == [Data(Chunk("", "", [d], "", None))];
    assert lines[..2][..1] == one;
    var call := ToolCall(d.id, d.typ, d.name, d.arguments);
    assert CallsOf(lines[..2]) == Some([call]);
    assert lines[..3][..2] == lines[..2];
    MoreArguments(call, rest);
    assert lines[..4][..3] == lines[..3] && lines[..4] == lines;
  }

  lemma {:induction false} MoreArguments(call: ToolCall, rest: string)
    ensures AccumulateOn([call], [CallDelta(0, "", "", "", rest)])
         == Some([call.(arguments := call.arguments + rest)])
  {
    var d := CallDelta(0, "", "", "", rest);
    assert [d][..0] == [] && AccumulateOn([call], [d][..0]) == Some([call]);
    var more := call.(name := call.name + "", arguments := call.arguments + rest);
    assert AccumulateOn([call], [d]) == Some([call][0 := more]) && [call][0 := more] == [more];
    assert call.name + "" == call.name;
  }

  lemma {:induction false} LiveOfInterrupted(d: CallDelta, thought: string, rest: string)
    ensures var lines := Interrupted(d, thought, rest);
      Live(lines) == lines && FirstCloses(lines, 1)
  {
    var lines := Interrupted(d, thought, rest);
    AllLive(lines);
    assert lines[..0] == [] && lines[..1] == [lines[0]] && lines[..1][..0] == [];
    assert CallDeltas(lines[..1]) == [] + [d];
  }

  lemma {:induction false} AllLive(lines: seq<Line>)
    requires forall i :: 0 <= i < |lines| ==> !lines[i].EndMark?
    ensures Live(lines) == lines
  {
    LineReader.BeforeIsPrefix(Marks(), lines);
    assert lines[..|lines|] == lines;
  }

  /**
   A chunk without calls between two chunks of one call: the stream is taken to be over, and the call
   arrives without the rest of its arguments.
   */
  lemma {:induction false} CallsCutShort(d: CallDelta, thought: string, rest: string, accepts: nat -> bool,
                                         used: nat, end: ParseEnd)
    requires d.index == 0 && rest != "" && forall i :: accepts(i)
    requires StopsAt(Interrupted(d, thought, rest), false, accepts, used, end)
    ensures var lines := Interrupted(d, thought, rest);
      && CallsOf(lines) == Some([ToolCall(d.id, d.typ, d.name, d.arguments + rest)])
      && used == 2 && end == ByRule
      && LastCalls(Events(lines, used, end)) == [ToolCall(d.id, d.typ, d.name, d.arguments)]
      && d.arguments != d.arguments + rest
  {
    var lines := Interrupted(d, thought, rest);
    CallsOfInterrupted(d, thought, rest);
    LiveOfInterrupted(d, thought, rest);
    StopsInOrder(lines, accepts, used, end);
    CallsArriveAtTheClose(lines, accepts, used, end);
    assert |d.arguments + rest| > |d.arguments|;
  }
}
