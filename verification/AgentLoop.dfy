/**
 The agent loop: bounded rounds of a model call and a batch of tool calls, once as a stream of
 events for a consumer that may stop, once as a plain call.
 */
module AgentLoop {
  import opened Wrappers
  import opened Llm
  import opened ToolExecutor

  /** One answer of the streaming model: some events, then the end of the stream or an error. */
  datatype StreamReply = StreamReply(events: seq<Event>, error: Option<string>)

  datatype ChatResult = ChatResult(content: string, thinking: string, toolCalls: seq<ToolCall>)

  /**
   Everything the loop does not decide. The model and the tools may answer differently in every
   round and for every call; `order` is the completion order of a round's batch.
   */
  datatype World = World(
    stream: (nat, seq<Message>) -> StreamReply,
    chat: (nat, seq<Message>) -> Result<ChatResult, string>,
    outcome: (nat, nat, ToolCall) -> Outcome,
    env: Env)

  function Outcomes(w: World, round: nat, calls: seq<ToolCall>): (os: seq<Outcome>)
    ensures |os| == |calls|
  {
    seq(|calls|, i requires 0 <= i < |calls| => w.outcome(round, i, calls[i]))
  }

  datatype End = Answered | Terminated | ModelFailed(error: string) | Exceeded

  datatype RoundEnd = Go | Over(end: End)

  /** One round: what it yields, its tool results, the transcript after it, and whether to go on. */
  datatype Round = Round(events: seq<Event>, results: seq<ToolResult>, messages: seq<Message>, end: RoundEnd)

  /** The tool half of a round. */
  function ToolRound(w: World, round: nat, messages: seq<Message>, calls: seq<ToolCall>, think: string, base: int)
    : (seq<ToolResult>, seq<Message>)
  {
    var rs := Results(w.env, calls, Outcomes(w, round, calls), base);
    (rs, messages + BatchMessages(calls, think, rs))
  }

  /** One round of the streaming loop. */
  function StreamRound(w: World, round: nat, messages: seq<Message>, base: int): Round {
    var reply := w.stream(round, messages);
    var calls := LastCalls(reply.events);
    if reply.error.Some? then Round(reply.events, [], messages, Over(ModelFailed(reply.error.value)))
    else if calls == [] then Round(reply.events, [], messages, Over(Answered))
    else
      var (rs, next) := ToolRound(w, round, messages, calls, Thinks(reply.events), base);
      Round(reply.events + ResultEvents(rs), rs, next, if AllTerminate(rs) then Over(Terminated) else Go)
  }

  /** The rounds of the streaming loop, as one function. */
  function Streaming(w: World): (nat, seq<Message>, int) -> Round {
    (round: nat, messages: seq<Message>, base: int) => StreamRound(w, round, messages, base)
  }

  /** The number the next batch starts from: a counter moves on, without one every batch starts over. */
  function Advance(base: int, results: nat, counted: bool): int {
    if counted then base + results else base
  }

  /** A whole run: what it yields, the transcript it ends with, and every tool result in order. */
  datatype Trace = Trace(events: seq<Event>, messages: seq<Message>, results: seq<ToolResult>, rounds: nat, end: End)

  function Rounds(maxLoop: int, round: nat): nat {
    if round < maxLoop then maxLoop - round else 0
  }

  /** The loop from some round on, for a consumer that never stops; `play` plays one round. */
  function RunFrom(play: (nat, seq<Message>, int) -> Round, maxLoop: int, round: nat, messages: seq<Message>,
                   base: int, counted: bool): Trace
    decreases Rounds(maxLoop, round)
  {
    if round >= maxLoop then Trace([], messages, [], 0, Exceeded)
    else
      var r := play(round, messages, base);
      match r.end
      case Over(end) => Trace(r.events, r.messages, r.results, 1, end)
      case Go =>
        var rest := RunFrom(play, maxLoop, round + 1, r.messages, Advance(base, |r.results|, counted), counted);
        Trace(r.events + rest.events, rest.messages, r.results + rest.results, rest.rounds + 1, rest.end)
  }

  /** The whole streaming run on a transcript, with `first` the counter's value if there is one. */
  function FullRun(w: World, maxLoop: int, messages: seq<Message>, first: Option<int>): Trace {
    RunFrom(Streaming(w), maxLoop, 0, messages, first.GetOr(0), first.Some?)
  }

  // ----- Properties of every run -----

  lemma {:induction false} RoundsAreBounded(play: (nat, seq<Message>, int) -> Round, maxLoop: int, round: nat,
                                            messages: seq<Message>, base: int, counted: bool)
    ensures RunFrom(play, maxLoop, round, messages, base, counted).rounds <= Rounds(maxLoop, round)
    decreases Rounds(maxLoop, round)
  {
    if round < maxLoop {
      var r := play(round, messages, base);
      RoundsAreBounded(play, maxLoop, round + 1, r.messages, Advance(base, |r.results|, counted), counted);
    }
  }

  /** The loop never makes more model calls than it is allowed to. */
  lemma RunIsBounded(w: World, maxLoop: int, messages: seq<Message>, first: Option<int>)
    ensures FullRun(w, maxLoop, messages, first).rounds <= Max(0, maxLoop)
  {
    RoundsAreBounded(Streaming(w), maxLoop, 0, messages, first.GetOr(0), first.Some?);
  }

  // ----- What happens in each round of a run -----

  /** No round ends a run for want of rounds. */
  ghost predicate NeverExceeds(play: (nat, seq<Message>, int) -> Round) {
    forall round, messages, base :: play(round, messages, base).end != Over(Exceeded)
  }

  /** One run after another. */
  function Then(a: Trace, b: Trace): Trace {
    Trace(a.events + b.events, b.messages, a.results + b.results, a.rounds + b.rounds, b.end)
  }

  /** A run is a run with fewer rounds allowed, if that has not come to its end, and then the rest. */
  lemma {:induction false} RunsContinue(play: (nat, seq<Message>, int) -> Round, m: int, maxLoop: int, round: nat,
                                        messages: seq<Message>, base: int, counted: bool)
    requires NeverExceeds(play) && round <= m <= maxLoop
    ensures var u := RunFrom(play, m, round, messages, base, counted);
      RunFrom(play, maxLoop, round, messages, base, counted) ==
        if u.end != Exceeded then u
        else Then(u, RunFrom(play, maxLoop, m, u.messages, Advance(base, |u.results|, counted), counted))
    ensures var u := RunFrom(play, m, round, messages, base, counted);
      u.end == Exceeded ==> u.rounds == m - round
    decreases Rounds(m, round)
  {
    var t := RunFrom(play, maxLoop, round, messages, base, counted);
    if round == m {
      assert [] + t.events == t.events && [] + t.results == t.results;
    } else {
      var r := play(round, messages, base);
      if r.end.Go? {
        var next := Advance(base, |r.results|, counted);
        RunsContinue(play, m, maxLoop, round + 1, r.messages, next, counted);
        var u := RunFrom(play, m, round + 1, r.messages, next, counted);
        if u.end == Exceeded {
          var v := RunFrom(play, maxLoop, m, u.messages, Advance(next, |u.results|, counted), counted);
          Assoc(r.events, u.events, v.events);
          Assoc(r.results, u.results, v.results);
        }
      }
    }
  }

  /**
   What the k-th round makes of a run that has got as far as `before`, told by the model's reply and
   the tools' outcomes: the reply's events are passed on; it fails with the reply, or ends without
   calls, or the calls are carried out and it ends if all of them say so.
   */
  ghost predicate Played(w: World, k: nat, first: Option<int>, before: Trace, after: Trace) {
    var StreamReply(events, error) := w.stream(k, before.messages);
    var calls := LastCalls(events);
    && after.rounds == before.rounds + 1
    && if error.Some? || calls == [] then
         && after.events == before.events + events
         && after.messages == before.messages && after.results == before.results
         && after.end == if error.Some? then ModelFailed(error.value) else Answered
       else
         var number := if first.Some? then first.value + |before.results| else 0;
         var rs := Results(w.env, calls, seq(|calls|, i requires 0 <= i < |calls| => w.outcome(k, i, calls[i])),
                           number);
         && after.events == before.events + (events + ResultEvents(rs))
         && after.messages == before.messages + BatchMessages(calls, Thinks(events), rs)
         && after.results == before.results + rs
         && after.end == if forall r :: r in rs ==> r.terminate then Terminated else Exceeded
  }

  lemma {:induction false} AllOfThem(rs: seq<ToolResult>)
    ensures AllTerminate(rs) <==> forall r :: r in rs ==> r.terminate
  {
  }

  lemma {:induction false} StreamNeverExceeds(w: World)
    ensures NeverExceeds(Streaming(w))
  {
  }

  /** A run that had not come to its end, with one round more. */
  function Longer(before: Trace, r: Round): Trace {
    Trace(before.events + r.events, r.messages, before.results + r.results, before.rounds + 1,
          if r.end.Go? then Exceeded else r.end.end)
  }

  lemma {:induction false} RoundIsPlayed(w: World, k: nat, first: Option<int>, before: Trace)
    ensures Played(w, k, first, before,
                   Longer(before, StreamRound(w, k, before.messages,
                                              Advance(first.GetOr(0), |before.results|, first.Some?))))
  {
    var calls := LastCalls(w.stream(k, before.messages).events);
    var r := StreamRound(w, k, before.messages, Advance(first.GetOr(0), |before.results|, first.Some?));
    assert Outcomes(w, k, calls) == seq(|calls|, i requires 0 <= i < |calls| => w.outcome(k, i, calls[i]));
    AllOfThem(r.results);
    assert before.results + [] == before.results;
  }

  lemma {:induction false} RunOneMore(w: World, k: nat, messages: seq<Message>, first: Option<int>)
    requires FullRun(w, k, messages, first).end == Exceeded
    ensures RoundAt(w, messages, first, k)
  {
    var u := FullRun(w, k, messages, first);
    StreamNeverExceeds(w);
    RunsContinue(Streaming(w), k, k + 1, 0, messages, first.GetOr(0), first.Some?);
    OneRoundLeft(Streaming(w), k, u, Advance(first.GetOr(0), |u.results|, first.Some?), first.Some?);
    RoundIsPlayed(w, k, first, u);
  }

  lemma {:induction false} OneRoundLeft(play: (nat, seq<Message>, int) -> Round, k: nat, u: Trace, base: int,
                                        counted: bool)
    ensures Then(u, RunFrom(play, k + 1, k, u.messages, base, counted)) == Longer(u, play(k, u.messages, base))
  {
    var r := play(k, u.messages, base);
    assert r.events + [] == r.events && r.results + [] == r.results;
    if r.end.Go? {
      var last := RunFrom(play, k + 1, k + 1, r.messages, Advance(base, |r.results|, counted), counted);
      assert last == Trace([], r.messages, [], 0, Exceeded);
    }
  }

  /** No round before the k-th ends the run, and the k-th is played on what they left. */
  ghost predicate RoundAt(w: World, messages: seq<Message>, first: Option<int>, k: nat) {
    && FullRun(w, k, messages, first).end == Exceeded
    && Played(w, k, first, FullRun(w, k, messages, first), FullRun(w, k + 1, messages, first))
  }

  lemma {:induction false} EarlyRunsGoOn(w: World, k: nat, maxLoop: int, messages: seq<Message>, first: Option<int>)
    requires k < FullRun(w, maxLoop, messages, first).rounds
    ensures FullRun(w, k, messages, first).end == Exceeded
  {
    StreamNeverExceeds(w);
    RunIsBounded(w, maxLoop, messages, first);
    RunIsBounded(w, k, messages, first);
    RunsContinue(Streaming(w), k, maxLoop, 0, messages, first.GetOr(0), first.Some?);
  }

  /** A run depends on no round behind those it makes. */
  lemma {:induction false} RunNeedsItsRounds(w: World, maxLoop: int, messages: seq<Message>, first: Option<int>)
    ensures var t := FullRun(w, maxLoop, messages, first);
      FullRun(w, t.rounds, messages, first) == t && (t.end == Exceeded ==> t.rounds == Max(0, maxLoop))
  {
    var t := FullRun(w, maxLoop, messages, first);
    var play, base, counted := Streaming(w), first.GetOr(0), first.Some?;
    RunIsBounded(w, maxLoop, messages, first);
    StreamNeverExceeds(w);
    if maxLoop > 0 {
      RunsContinue(play, maxLoop, maxLoop, 0, messages, base, counted);
      RunsContinue(play, t.rounds, maxLoop, 0, messages, base, counted);
      var u := FullRun(w, t.rounds, messages, first);
      if u.end == Exceeded {
        assert u.events + [] == u.events && u.results + [] == u.results;
      }
    }
  }

  /**
   A whole run, round by round: a run with no round allowed has done nothing; each of its rounds is
   played on the transcript that the rounds before it left, none of which ended the run; and if no
   round ended it, it made every round it was allowed.
   */
  lemma {:induction false} RunIsPlayedInRounds(w: World, maxLoop: int, messages: seq<Message>, first: Option<int>)
    ensures var t := FullRun(w, maxLoop, messages, first);
      && FullRun(w, 0, messages, first) == Trace([], messages, [], 0, Exceeded)
      && FullRun(w, t.rounds, messages, first) == t
      && (t.end == Exceeded ==> t.rounds == Max(0, maxLoop))
      && forall k: nat :: k < t.rounds ==> RoundAt(w, messages, first, k)
  {
    RunNeedsItsRounds(w, maxLoop, messages, first);
    forall k: nat | k < FullRun(w, maxLoop, messages, first).rounds
      ensures RoundAt(w, messages, first, k)
    {
      EarlyRunsGoOn(w, k, maxLoop, messages, first);
      RunOneMore(w, k, messages, first);
    }
  }

  lemma {:induction false} RoundKeepsPairing(w: World, round: nat, messages: seq<Message>, base: int)
    requires WellPaired(messages)
    ensures WellPaired(StreamRound(w, round, messages, base).messages)
    ensures messages <= StreamRound(w, round, messages, base).messages
  {
    var reply := w.stream(round, messages);
    var calls := LastCalls(reply.events);
    if reply.error.None? && calls != [] {
      var (rs, next) := ToolRound(w, round, messages, calls, Thinks(reply.events), base);
      BatchIsPaired(calls, Thinks(reply.events), rs);
      PairedAppend(messages, BatchMessages(calls, Thinks(reply.events), rs));
    }
  }

  ghost predicate Grows(play: (nat, seq<Message>, int) -> Round) {
    forall round, messages, base :: WellPaired(messages) ==>
      WellPaired(play(round, messages, base).messages) && messages <= play(round, messages, base).messages
  }

  lemma {:induction false} RoundsKeepPairing(play: (nat, seq<Message>, int) -> Round, maxLoop: int, round: nat,
                                             messages: seq<Message>, base: int, counted: bool)
    requires Grows(play) && WellPaired(messages)
    ensures WellPaired(RunFrom(play, maxLoop, round, messages, base, counted).messages)
    ensures messages <= RunFrom(play, maxLoop, round, messages, base, counted).messages
    decreases Rounds(maxLoop, round)
  {
    if round < maxLoop {
      var r := play(round, messages, base);
      RoundsKeepPairing(play, maxLoop, round + 1, r.messages, Advance(base, |r.results|, counted), counted);
    }
  }

  /**
   Over a whole run every assistant message with calls is followed at once by exactly its tool
   messages, and the transcript only grows.
   */
  lemma RunKeepsPairing(w: World, maxLoop: int, messages: seq<Message>, first: Option<int>)
    requires WellPaired(messages)
    ensures WellPaired(FullRun(w, maxLoop, messages, first).messages)
    ensures messages <= FullRun(w, maxLoop, messages, first).messages
  {
    var play := Streaming(w);
    forall round, ms, base | WellPaired(ms)
      ensures WellPaired(play(round, ms, base).messages) && ms <= play(round, ms, base).messages
    {
      RoundKeepsPairing(w, round, ms, base);
    }
    RoundsKeepPairing(play, maxLoop, 0, messages, first.GetOr(0), first.Some?);
  }

  predicate Numbered(rs: seq<ToolResult>, base: int) {
    forall i :: 0 <= i < |rs| ==> rs[i].seqNo == base + i
  }

  lemma NumberedAppend(a: seq<ToolResult>, b: seq<ToolResult>, base: int)
    requires Numbered(a, base) && Numbered(b, base + |a|)
    ensures Numbered(a + b, base)
  {
    forall i | 0 <= i < |a + b|
      ensures (a + b)[i].seqNo == base + i
    {
      if i >= |a| {
        assert (a + b)[i] == b[i - |a|];
      }
    }
  }

  lemma {:induction false} RoundNumbersItsCalls(w: World, round: nat, messages: seq<Message>, base: int)
    ensures Numbered(StreamRound(w, round, messages, base).results, base)
  {
    var calls := LastCalls(w.stream(round, messages).events);
    ResultsMatchCalls(w.env, calls, Outcomes(w, round, calls), base);
  }

  ghost predicate Numbers(play: (nat, seq<Message>, int) -> Round) {
    forall round, messages, base :: Numbered(play(round, messages, base).results, base)
  }

  lemma {:induction false} RoundsNumberTheirCalls(play: (nat, seq<Message>, int) -> Round, maxLoop: int, round: nat,
                                                  messages: seq<Message>, base: int)
    requires Numbers(play)
    ensures Numbered(RunFrom(play, maxLoop, round, messages, base, true).results, base)
    decreases Rounds(maxLoop, round)
  {
    if round < maxLoop {
      var r := play(round, messages, base);
      RoundsNumberTheirCalls(play, maxLoop, round + 1, r.messages, base + |r.results|);
      NumberedAppend(r.results, RunFrom(play, maxLoop, round + 1, r.messages, base + |r.results|, true).results, base);
    }
  }

  /** With one counter per turn the results of a run are numbered from it without gap or repeat. */
  lemma RunNumbersItsCalls(w: World, maxLoop: int, messages: seq<Message>, first: int)
    ensures Numbered(FullRun(w, maxLoop, messages, Some(first)).results, first)
  {
    var play := Streaming(w);
    forall round, ms, base
      ensures Numbered(play(round, ms, base).results, base)
    {
      RoundNumbersItsCalls(w, round, ms, base);
    }
    RoundsNumberTheirCalls(play, maxLoop, 0, messages, first);
  }

  // ----- The plain loop and its agreement with the stream -----

  datatype PlainEnd = Again | Final(answer: Result<string, End>)

  datatype PlainStep = PlainStep(results: seq<ToolResult>, messages: seq<Message>, end: PlainEnd)

  /** One round of the non-streaming loop. */
  function PlainRound(w: World, round: nat, messages: seq<Message>, base: int): PlainStep {
    match w.chat(round, messages)
    case Failure(error) => PlainStep([], messages, Final(Failure(ModelFailed(error))))
    case Success(ChatResult(content, thinking, calls)) =>
      if calls == [] then PlainStep([], messages, Final(Success(content)))
      else
        var (rs, next) := ToolRound(w, round, messages, calls, thinking, base);
        PlainStep(rs, next, if AllTerminate(rs) then Final(Success(content)) else Again)
  }

  datatype PlainTrace = PlainTrace(messages: seq<Message>, results: seq<ToolResult>, rounds: nat,
                                   answer: Result<string, End>)

  /** The rounds of the non-streaming loop, as one function. */
  function Calling(w: World): (nat, seq<Message>, int) -> PlainStep {
    (round: nat, messages: seq<Message>, base: int) => PlainRound(w, round, messages, base)
  }

  /** The non-streaming loop from some round on; `play` plays one round. */
  function PlainFrom(play: (nat, seq<Message>, int) -> PlainStep, maxLoop: int, round: nat, messages: seq<Message>,
                     base: int, counted: bool): PlainTrace
    decreases Rounds(maxLoop, round)
  {
    if round >= maxLoop then PlainTrace(messages, [], 0, Failure(Exceeded))
    else
      var r := play(round, messages, base);
      match r.end
      case Final(answer) => PlainTrace(r.messages, r.results, 1, answer)
      case Again =>
        var rest := PlainFrom(play, maxLoop, round + 1, r.messages, Advance(base, |r.results|, counted), counted);
        PlainTrace(rest.messages, r.results + rest.results, rest.rounds + 1, rest.answer)
  }

  function FullPlainRun(w: World, maxLoop: int, messages: seq<Message>, first: Option<int>): PlainTrace {
    PlainFrom(Calling(w), maxLoop, 0, messages, first.GetOr(0), first.Some?)
  }

  /** The plain call's result when it is the fold of the stream. */
  function Fold(reply: StreamReply): Result<ChatResult, string> {
    if reply.error.Some? then Failure(reply.error.value)
    else Success(ChatResult(Deltas(reply.events), Thinks(reply.events), LastCalls(reply.events)))
  }

  ghost predicate ChatFoldsStream(w: World) {
    forall round, messages :: w.chat(round, messages) == Fold(w.stream(round, messages))
  }

  predicate SuffixOf(a: string, b: string) {
    |a| <= |b| && b[|b| - |a|..] == a
  }

  predicate SameEnd(end: End, answer: Result<string, End>) {
    match answer
    case Success(_) => end.Answered? || end.Terminated?
    case Failure(e) => end == e
  }

  lemma {:induction false} ResultEventsAreSilent(rs: seq<ToolResult>)
    ensures Deltas(ResultEvents(rs)) == ""
  {
    if rs != [] {
      assert ResultEvents(rs)[1..] == ResultEvents(rs[1..]);
      ResultEventsAreSilent(rs[1..]);
    }
  }

  /** A round agrees with its plain counterpart, and the plain answer is what the round streamed. */
  ghost predicate SameRound(r: Round, p: PlainStep) {
    && p.messages == r.messages && p.results == r.results
    && (p.end.Again? <==> r.end.Go?)
    && (p.end.Final? ==> SameEnd(r.end.end, p.end.answer))
    && (p.end.Final? && p.end.answer.Success? ==> p.end.answer.value == Deltas(r.events))
  }

  lemma RoundsAgree(w: World, round: nat, messages: seq<Message>, base: int)
    requires ChatFoldsStream(w)
    ensures SameRound(StreamRound(w, round, messages, base), PlainRound(w, round, messages, base))
  {
    var reply := w.stream(round, messages);
    assert w.chat(round, messages) == Fold(reply);
    var calls := LastCalls(reply.events);
    var (rs, next) := ToolRound(w, round, messages, calls, Thinks(reply.events), base);
    ResultEventsAreSilent(rs);
    DeltasAppend(reply.events, ResultEvents(rs));
  }

  ghost predicate Agree(t: Trace, p: PlainTrace) {
    && p.messages == t.messages
    && p.results == t.results
    && p.rounds == t.rounds
    && SameEnd(t.end, p.answer)
    && (p.answer.Success? ==> SuffixOf(p.answer.value, Deltas(t.events)))
  }

  ghost predicate SamePlay(stream: (nat, seq<Message>, int) -> Round, plain: (nat, seq<Message>, int) -> PlainStep) {
    forall round, messages, base :: SameRound(stream(round, messages, base), plain(round, messages, base))
  }

  lemma {:induction false} PlaysAgree(stream: (nat, seq<Message>, int) -> Round,
                                      plain: (nat, seq<Message>, int) -> PlainStep,
                                      maxLoop: int, round: nat, messages: seq<Message>, base: int, counted: bool)
    requires SamePlay(stream, plain)
    ensures Agree(RunFrom(stream, maxLoop, round, messages, base, counted),
                  PlainFrom(plain, maxLoop, round, messages, base, counted))
    decreases Rounds(maxLoop, round)
  {
    if round < maxLoop {
      var r := stream(round, messages, base);
      assert SameRound(r, plain(round, messages, base));
      if r.end.Go? {
        var next := Advance(base, |r.results|, counted);
        PlaysAgree(stream, plain, maxLoop, round + 1, r.messages, next, counted);
        DeltasAppend(r.events, RunFrom(stream, maxLoop, round + 1, r.messages, next, counted).events);
      }
    }
  }

  /**
   If the plain call is the fold of the stream and the tools answer alike, both loops build the
   same transcript and the same tool results in the same number of rounds and fail in the same
   cases, and the plain answer is the end of the accumulated streamed answer.
   */
  lemma LoopsAgree(w: World, maxLoop: int, messages: seq<Message>, first: Option<int>)
    requires ChatFoldsStream(w)
    ensures Agree(FullRun(w, maxLoop, messages, first), FullPlainRun(w, maxLoop, messages, first))
  {
    var stream, plain := Streaming(w), Calling(w);
    forall round, ms, base
      ensures SameRound(stream(round, ms, base), plain(round, ms, base))
    {
      RoundsAgree(w, round, ms, base);
    }
    PlaysAgree(stream, plain, maxLoop, 0, messages, first.GetOr(0), first.Some?);
  }

  // ----- The same for every plain run -----

  /** A world whose stream is one event that carries the plain call's result. */
  function AsStream(w: World): World {
    w.(stream := (round: nat, messages: seq<Message>) =>
      match w.chat(round, messages)
      case Success(r) => StreamReply([Event(r.content, r.thinking, r.toolCalls, "", true, None, None)], None)
      case Failure(e) => StreamReply([], Some(e)))
  }

  lemma {:induction false} AsStreamFolds(w: World)
    ensures ChatFoldsStream(AsStream(w))
  {
    var v := AsStream(w);
    forall round, messages
      ensures v.chat(round, messages) == Fold(v.stream(round, messages))
    {
      match w.chat(round, messages)
      case Failure(_) =>
      case Success(r) =>
        var e := Event(r.content, r.thinking, r.toolCalls, "", true, None, None);
        assert [e][1..] == [] && r.content + "" == r.content && r.thinking + "" == r.thinking;
        assert Deltas([e]) == e.delta + Deltas([e][1..]) && Thinks([e]) == e.think + Thinks([e][1..]);
    }
  }

  /** The plain loop does not look at the stream. */
  lemma {:induction false} SamePlainRun(p: (nat, seq<Message>, int) -> PlainStep,
                                        q: (nat, seq<Message>, int) -> PlainStep,
                                        maxLoop: int, round: nat, messages: seq<Message>, base: int, counted: bool)
    requires forall round, messages, base :: p(round, messages, base) == q(round, messages, base)
    ensures PlainFrom(p, maxLoop, round, messages, base, counted)
         == PlainFrom(q, maxLoop, round, messages, base, counted)
    decreases Rounds(maxLoop, round)
  {
    if round < maxLoop {
      var r := p(round, messages, base);
      SamePlainRun(p, q, maxLoop, round + 1, r.messages, Advance(base, |r.results|, counted), counted);
    }
  }

  lemma {:induction false} PlainRunIsStreamed(w: World, maxLoop: int, messages: seq<Message>, first: Option<int>)
    ensures Agree(FullRun(AsStream(w), maxLoop, messages, first), FullPlainRun(w, maxLoop, messages, first))
  {
    AsStreamFolds(w);
    LoopsAgree(AsStream(w), maxLoop, messages, first);
    SamePlainRun(Calling(w), Calling(AsStream(w)), maxLoop, 0, messages, first.GetOr(0), first.Some?);
  }

  /**
   Every plain run, whatever the model streams: at most MaxLoop rounds, a well-paired transcript that
   only grew, and results numbered from the counter without gap or repeat.
   */
  lemma {:induction false} PlainRunsAlike(w: World, maxLoop: int, messages: seq<Message>, first: Option<int>)
    ensures var p := FullPlainRun(w, maxLoop, messages, first);
      && p.rounds <= Max(0, maxLoop)
      && (WellPaired(messages) ==> WellPaired(p.messages) && messages <= p.messages)
      && (first.Some? ==> Numbered(p.results, first.value))
  {
    PlainRunIsStreamed(w, maxLoop, messages, first);
    RunIsBounded(AsStream(w), maxLoop, messages, first);
    if WellPaired(messages) {
      RunKeepsPairing(AsStream(w), maxLoop, messages, first);
    }
    if first.Some? {
      RunNumbersItsCalls(AsStream(w), maxLoop, messages, first.value);
    }
  }

  // ----- What happens in each round of a plain run -----

  /** One plain run after another. */
  function PlainThen(a: PlainTrace, b: PlainTrace): PlainTrace {
    PlainTrace(b.messages, a.results + b.results, a.rounds + b.rounds, b.answer)
  }

  ghost predicate PlainNeverExceeds(play: (nat, seq<Message>, int) -> PlainStep) {
    forall round, messages, base :: play(round, messages, base).end != Final(Failure(Exceeded))
  }

  lemma {:induction false} PlainRunsContinue(play: (nat, seq<Message>, int) -> PlainStep, m: int, maxLoop: int,
                                             round: nat, messages: seq<Message>, base: int, counted: bool)
    requires PlainNeverExceeds(play) && round <= m <= maxLoop
    ensures var u := PlainFrom(play, m, round, messages, base, counted);
      PlainFrom(play, maxLoop, round, messages, base, counted) ==
        if u.answer != Failure(Exceeded) then u
        else PlainThen(u, PlainFrom(play, maxLoop, m, u.messages, Advance(base, |u.results|, counted), counted))
    ensures var u := PlainFrom(play, m, round, messages, base, counted);
      u.answer == Failure(Exceeded) ==> u.rounds == m - round
    decreases Rounds(m, round)
  {
    var t := PlainFrom(play, maxLoop, round, messages, base, counted);
    if round == m {
      assert [] + t.results == t.results;
    } else {
      var r := play(round, messages, base);
      if r.end.Again? {
        var next := Advance(base, |r.results|, counted);
        PlainRunsContinue(play, m, maxLoop, round + 1, r.messages, next, counted);
        var u := PlainFrom(play, m, round + 1, r.messages, next, counted);
        if u.answer == Failure(Exceeded) {
          var v := PlainFrom(play, maxLoop, m, u.messages, Advance(next, |u.results|, counted), counted);
          Assoc(r.results, u.results, v.results);
        }
      }
    }
  }

  /**
   What the k-th round makes of a plain run that has got as far as `before`: it fails with the call,
   or answers without tool calls, or the calls are carried out and it answers if all of them say so.
   */
  ghost predicate PlainPlayed(w: World, k: nat, first: Option<int>, before: PlainTrace, after: PlainTrace) {
    && after.rounds == before.rounds + 1
    && match w.chat(k, before.messages)
       case Failure(error) => after == PlainTrace(before.messages, before.results, k + 1, Failure(ModelFailed(error)))
       case Success(ChatResult(content, thinking, calls)) =>
         if calls == [] then after == PlainTrace(before.messages, before.results, k + 1, Success(content))
         else
           var number := if first.Some? then first.value + |before.results| else 0;
           var rs := Results(w.env, calls, seq(|calls|, i requires 0 <= i < |calls| => w.outcome(k, i, calls[i])),
                             number);
           && after.messages == before.messages + BatchMessages(calls, thinking, rs)
           && after.results == before.results + rs
           && after.answer == if forall r :: r in rs ==> r.terminate then Success(content) else Failure(Exceeded)
  }

  lemma {:induction false} CallingNeverExceeds(w: World)
    ensures PlainNeverExceeds(Calling(w))
  {
  }

  function PlainLonger(before: PlainTrace, r: PlainStep): PlainTrace {
    PlainTrace(r.messages, before.results + r.results, before.rounds + 1,
               if r.end.Again? then Failure(Exceeded) else r.end.answer)
  }

  lemma {:induction false} PlainRoundIsPlayed(w: World, k: nat, first: Option<int>, before: PlainTrace)
    requires before.rounds == k
    ensures PlainPlayed(w, k, first, before,
                        PlainLonger(before, PlainRound(w, k, before.messages,
                                                       Advance(first.GetOr(0), |before.results|, first.Some?))))
  {
    var r := PlainRound(w, k, before.messages, Advance(first.GetOr(0), |before.results|, first.Some?));
    if w.chat(k, before.messages).Success? {
      var calls := w.chat(k, before.messages).value.toolCalls;
      assert Outcomes(w, k, calls) == seq(|calls|, i requires 0 <= i < |calls| => w.outcome(k, i, calls[i]));
    }
    AllOfThem(r.results);
    assert before.results + [] == before.results;
  }

  lemma {:induction false} OneCallLeft(play: (nat, seq<Message>, int) -> PlainStep, k: nat, u: PlainTrace, base: int,
                                       counted: bool)
    ensures PlainThen(u, PlainFrom(play, k + 1, k, u.messages, base, counted))
         == PlainLonger(u, play(k, u.messages, base))
  {
    var r := play(k, u.messages, base);
    assert r.results + [] == r.results;
    if r.end.Again? {
      var last := PlainFrom(play, k + 1, k + 1, r.messages, Advance(base, |r.results|, counted), counted);
      assert last == PlainTrace(r.messages, [], 0, Failure(Exceeded));
    }
  }

  /** No round before the k-th ends the plain run, and the k-th is played on what they left. */
  ghost predicate PlainRoundAt(w: World, messages: seq<Message>, first: Option<int>, k: nat) {
    && FullPlainRun(w, k, messages, first).answer == Failure(Exceeded)
    && PlainPlayed(w, k, first, FullPlainRun(w, k, messages, first), FullPlainRun(w, k + 1, messages, first))
  }

  lemma {:induction false} PlainOneMore(w: World, k: nat, messages: seq<Message>, first: Option<int>)
    requires FullPlainRun(w, k, messages, first).answer == Failure(Exceeded)
    ensures PlainRoundAt(w, messages, first, k)
  {
    var u := FullPlainRun(w, k, messages, first);
    CallingNeverExceeds(w);
    PlainRunsContinue(Calling(w), k, k + 1, 0, messages, first.GetOr(0), first.Some?);
    OneCallLeft(Calling(w), k, u, Advance(first.GetOr(0), |u.results|, first.Some?), first.Some?);
    PlainRoundIsPlayed(w, k, first, u);
  }

  lemma {:induction false} PlainRunNeedsItsRounds(w: World, maxLoop: int, messages: seq<Message>, first: Option<int>)
    ensures var p := FullPlainRun(w, maxLoop, messages, first);
      && FullPlainRun(w, p.rounds, messages, first) == p
      && (p.answer == Failure(Exceeded) ==> p.rounds == Max(0, maxLoop))
  {
    var p := FullPlainRun(w, maxLoop, messages, first);
    var play, base, counted := Calling(w), first.GetOr(0), first.Some?;
    PlainRunsAlike(w, maxLoop, messages, first);
    CallingNeverExceeds(w);
    if maxLoop > 0 {
      PlainRunsContinue(play, maxLoop, maxLoop, 0, messages, base, counted);
      PlainRunsContinue(play, p.rounds, maxLoop, 0, messages, base, counted);
      var u := FullPlainRun(w, p.rounds, messages, first);
      if u.answer == Failure(Exceeded) {
        assert u.results + [] == u.results;
      }
    }
  }

  /** A whole plain run, round by round, likewise. */
  lemma {:induction false} PlainRunIsPlayedInRounds(w: World, maxLoop: int, messages: seq<Message>, first: Option<int>)
    ensures var p := FullPlainRun(w, maxLoop, messages, first);
      && FullPlainRun(w, 0, messages, first) == PlainTrace(messages, [], 0, Failure(Exceeded))
      && FullPlainRun(w, p.rounds, messages, first) == p
      && (p.answer == Failure(Exceeded) ==> p.rounds == Max(0, maxLoop))
      && forall k: nat :: k < p.rounds ==> PlainRoundAt(w, messages, first, k)
  {
    PlainRunNeedsItsRounds(w, maxLoop, messages, first);
    forall k: nat | k < FullPlainRun(w, maxLoop, messages, first).rounds
      ensures PlainRoundAt(w, messages, first, k)
    {
      PlainRunsAlike(w, maxLoop, messages, first);
      PlainRunsAlike(w, k, messages, first);
      CallingNeverExceeds(w);
      PlainRunsContinue(Calling(w), k, maxLoop, 0, messages, first.GetOr(0), first.Some?);
      PlainOneMore(w, k, messages, first);
    }
  }

  // ----- The loops as code -----

  function Base(counter: ToolSeqCounter?): int
    reads counter
  {
    if counter == null then 0 else counter.n
  }

  /** The counter's value, if there is a counter. */
  function First(counter: ToolSeqCounter?): Option<int>
    reads counter
  {
    if counter == null then None else Some(counter.n)
  }

  /** How far a run has come: `yielded` is out, and `rest` is what is still to come of `t`. */
  ghost predicate Ahead(t: Trace, yielded: seq<Event>, rest: Trace) {
    t.events == yielded + rest.events && t.messages == rest.messages && t.end == rest.end
  }

  /** A completion order for every round and every batch size. */
  ghost predicate Scheduler(order: (nat, nat) -> seq<nat>) {
    forall round, n :: Schedule(order(round, n), n)
  }

  /** The consumer took a non-empty part of `all` from its start and stopped at the last event of it. */
  ghost predicate Broke(yielded: seq<Event>, all: seq<Event>, accepts: nat -> bool) {
    0 < |yielded| && yielded <= all && AcceptedAll(accepts, |yielded| - 1) && !accepts(|yielded| - 1)
  }

  lemma BrokeEarlier(yielded: seq<Event>, part: seq<Event>, all: seq<Event>, accepts: nat -> bool)
    requires Broke(yielded, part, accepts) && part <= all
    ensures Broke(yielded, all, accepts)
  {
  }

  lemma OneRoundOn(t: Trace, yielded: seq<Event>, play: (nat, seq<Message>, int) -> Round, maxLoop: int, round: nat,
                   messages: seq<Message>, base: int, counted: bool)
    requires round < maxLoop && Ahead(t, yielded, RunFrom(play, maxLoop, round, messages, base, counted))
    ensures var r := play(round, messages, base);
      && yielded + r.events <= t.events
      && (r.end.Over? ==> Ahead(t, yielded + r.events, Trace([], r.messages, [], 0, r.end.end)))
      && (r.end.Go? ==> Ahead(t, yielded + r.events,
            RunFrom(play, maxLoop, round + 1, r.messages, Advance(base, |r.results|, counted), counted)))
  {
    var r := play(round, messages, base);
    var rest := RunFrom(play, maxLoop, round, messages, base, counted);
    var later := rest.events[|r.events|..];
    assert rest.events == r.events + later;
    Assoc(yielded, r.events, later);
  }

  /**
   Passes a stream on to the consumer, collecting its thinking and the calls of its last done
   event. `accepts(i)` tells whether the consumer goes on after the i-th event of the run.
   */
  method Consume(events: seq<Event>, before: seq<Event>, accepts: nat -> bool)
    returns (yielded: seq<Event>, think: string, calls: seq<ToolCall>, stopped: bool)
    requires AcceptedAll(accepts, |before|)
    ensures !stopped ==>
      && yielded == before + events && AcceptedAll(accepts, |yielded|)
      && think == Thinks(events) && calls == LastCalls(events)
    ensures stopped ==> Broke(yielded, before + events, accepts)
  {
    yielded, think, calls, stopped := before, "", [], false;
    for i := 0 to |events|
      invariant yielded == before + events[..i] && AcceptedAll(accepts, |yielded|)
      invariant think == Thinks(events[..i]) && calls == LastCalls(events[..i])
    {
      FoldStep(events, i);
      YieldStep(before, events, i);
      think := think + events[i].think;
      yielded := yielded + [events[i]];
      if !accepts(|yielded| - 1) {
        return yielded, think, calls, true;
      }
      if events[i].done {
        calls := events[i].toolCalls;
      }
    }
    assert events[..|events|] == events;
  }

  lemma YieldStep(before: seq<Event>, events: seq<Event>, i: nat)
    requires i < |events|
    ensures before + events[..i] + [events[i]] == before + events[..i + 1]
    ensures before + events[..i + 1] <= before + events
  {
    assert events[..i + 1] == events[..i] + [events[i]];
  }

  /** Passes the events of a batch on to the consumer. */
  method YieldAll(events: seq<Event>, before: seq<Event>, accepts: nat -> bool)
    returns (yielded: seq<Event>, stopped: bool)
    requires AcceptedAll(accepts, |before|)
    ensures !stopped ==> yielded == before + events && AcceptedAll(accepts, |yielded|)
    ensures stopped ==> Broke(yielded, before + events, accepts)
  {
    yielded, stopped := before, false;
    for i := 0 to |events|
      invariant yielded == before + events[..i] && AcceptedAll(accepts, |yielded|)
    {
      YieldStep(before, events, i);
      yielded := yielded + [events[i]];
      if !accepts(|yielded| - 1) {
        return yielded, true;
      }
    }
    assert events[..|events|] == events;
  }

  /** The tool half of a round, executed: in any completion order it is the tool half of the model. */
  method RunTools(w: World, order: (nat, nat) -> seq<nat>, round: nat, messages: seq<Message>, calls: seq<ToolCall>,
                  think: string, counter: ToolSeqCounter?)
    returns (events: seq<Event>, updated: seq<Message>, allTerminate: bool, ghost rs: seq<ToolResult>)
    requires Scheduler(order) && calls != []
    modifies counter
    ensures (rs, updated) == ToolRound(w, round, messages, calls, think, old(Base(counter)))
    ensures events == ResultEvents(rs) && allTerminate == AllTerminate(rs)
    ensures Base(counter) == Advance(old(Base(counter)), |rs|, counter != null)
  {
    rs := ToolRound(w, round, messages, calls, think, Base(counter)).0;
    events, updated, allTerminate := ExecuteToolCalls(w.env, counter, messages, calls, think,
                                                      Outcomes(w, round, calls), order(round, |calls|));
  }

  /** The body of the streaming loop: one round, or the part of it before the consumer stopped (`end` absent). */
  method PlayRound(w: World, order: (nat, nat) -> seq<nat>, round: nat, messages: seq<Message>,
                   counter: ToolSeqCounter?, before: seq<Event>, accepts: nat -> bool)
    returns (yielded: seq<Event>, updated: seq<Message>, end: Option<RoundEnd>)
    requires Scheduler(order) && AcceptedAll(accepts, |before|)
    modifies counter
    ensures var r := StreamRound(w, round, messages, old(Base(counter)));
      && (end.Some? ==> yielded == before + r.events && updated == r.messages && end.value == r.end)
      && (end.Some? ==> AcceptedAll(accepts, |yielded|))
      && (end == Some(Go) ==> Base(counter) == Advance(old(Base(counter)), |r.results|, counter != null))
      && (end.None? ==> Broke(yielded, before + r.events, accepts))
  {
    updated := messages;
    var reply := w.stream(round, messages);
    ghost var streamed := before + reply.events;
    var roundThink, toolCalls, stopped;
    yielded, roundThink, toolCalls, stopped := Consume(reply.events, before, accepts);
    ghost var r := StreamRound(w, round, messages, Base(counter));
    if stopped {
      ghost var later := r.events[|reply.events|..];
      assert r.events == reply.events + later;
      Assoc(before, reply.events, later);
      BrokeEarlier(yielded, streamed, before + r.events, accepts);
      return yielded, messages, None;
    }
    if reply.error.Some? {
      return yielded, messages, Some(Over(ModelFailed(reply.error.value)));
    }
    if |toolCalls| == 0 {
      return yielded, messages, Some(Over(Answered));
    }
    var events, allTerminate;
    ghost var rs;
    events, updated, allTerminate, rs := RunTools(w, order, round, messages, toolCalls, roundThink, counter);
    Assoc(before, reply.events, events);
    yielded, stopped := YieldAll(events, yielded, accepts);
    end := if stopped then None else Some(if allTerminate then Over(Terminated) else Go);
  }

  /**
   `Run`: what is yielded is the full run, or the part of it up to the event at which the consumer
   stopped (`end` is absent then), whatever the completion orders of the batches.
   */
  method Run(w: World, order: (nat, nat) -> seq<nat>, maxLoop: int, initial: seq<Message>, counter: ToolSeqCounter?,
             accepts: nat -> bool)
    returns (yielded: seq<Event>, messages: seq<Message>, end: Option<End>)
    requires Scheduler(order)
    modifies counter
    ensures var t := FullRun(w, maxLoop, initial, old(First(counter)));
      && (end.Some? ==> yielded == t.events && messages == t.messages && end.value == t.end)
      && (end.Some? ==> AcceptedAll(accepts, |yielded|))
      && (end.None? ==> Broke(yielded, t.events, accepts))
  {
    ghost var t := FullRun(w, maxLoop, initial, First(counter));
    yielded, messages := [], initial;
    var iter := 0;
    while iter < maxLoop
      invariant 0 <= iter && AcceptedAll(accepts, |yielded|)
      invariant Ahead(t, yielded, RunFrom(Streaming(w), maxLoop, iter, messages, Base(counter), counter != null))
    {
      ghost var r := StreamRound(w, iter, messages, Base(counter));
      OneRoundOn(t, yielded, Streaming(w), maxLoop, iter, messages, Base(counter), counter != null);
      ghost var all := yielded + r.events;
      var step;
      yielded, messages, step := PlayRound(w, order, iter, messages, counter, yielded, accepts);
      if step.None? {
        BrokeEarlier(yielded, all, t.events, accepts);
        return yielded, messages, None;
      }
      if step.value.Over? {
        return yielded, messages, Some(step.value.end);
      }
      iter := iter + 1;
    }
    end := Some(Exceeded);
  }

  /** `StreamChat`: the accumulated answer of the full run, and whether it failed. */
  method StreamChat(w: World, order: (nat, nat) -> seq<nat>, maxLoop: int, initial: seq<Message>,
                    counter: ToolSeqCounter?)
    returns (answer: string, failed: bool)
    requires Scheduler(order)
    modifies counter
    ensures var t := FullRun(w, maxLoop, initial, old(First(counter)));
      answer == Deltas(t.events) && (failed <==> t.end.ModelFailed? || t.end.Exceeded?)
  {
    var yielded, messages, end := Run(w, order, maxLoop, initial, counter, _ => true);
    answer := "";
    for i := 0 to |yielded|
      invariant answer == Deltas(yielded[..i])
    {
      FoldStep(yielded, i);
      answer := answer + yielded[i].delta;
    }
    assert yielded[..|yielded|] == yielded;
    failed := end.value.ModelFailed? || end.value.Exceeded?;
  }

  /** How far a plain run has come: `seen` is what the callback got, and `rest` is what is still to come of `p`. */
  ghost predicate PlainAhead(p: PlainTrace, seen: seq<Event>, rest: PlainTrace) {
    && p.answer == rest.answer && p.messages == rest.messages
    && ResultEvents(p.results) == seen + ResultEvents(rest.results)
  }

  lemma {:induction false} OneCallOn(p: PlainTrace, seen: seq<Event>, play: (nat, seq<Message>, int) -> PlainStep,
                                     maxLoop: int, round: nat, messages: seq<Message>, base: int, counted: bool)
    requires round < maxLoop && PlainAhead(p, seen, PlainFrom(play, maxLoop, round, messages, base, counted))
    ensures var r := play(round, messages, base);
      && (r.end.Final? ==> PlainAhead(p, seen + ResultEvents(r.results), PlainTrace(r.messages, [], 0, r.end.answer)))
      && (r.end.Again? ==> PlainAhead(p, seen + ResultEvents(r.results),
            PlainFrom(play, maxLoop, round + 1, r.messages, Advance(base, |r.results|, counted), counted)))
  {
    var r := play(round, messages, base);
    if r.end.Again? {
      var rest := PlainFrom(play, maxLoop, round + 1, r.messages, Advance(base, |r.results|, counted), counted);
      MapAppend(ResultEvent, r.results, rest.results);
      Assoc(seen, ResultEvents(r.results), ResultEvents(rest.results));
    }
  }

  /** The body of the non-streaming loop: one round. */
  method PlayCall(w: World, order: (nat, nat) -> seq<nat>, round: nat, messages: seq<Message>, counter: ToolSeqCounter?)
    returns (events: seq<Event>, updated: seq<Message>, end: PlainEnd)
    requires Scheduler(order)
    modifies counter
    ensures var r := PlainRound(w, round, messages, old(Base(counter)));
      && events == ResultEvents(r.results) && updated == r.messages && end == r.end
      && (end.Again? ==> Base(counter) == Advance(old(Base(counter)), |r.results|, counter != null))
  {
    var result := w.chat(round, messages);
    if result.Failure? {
      return [], messages, Final(Failure(ModelFailed(result.error)));
    }
    var toolCalls := result.value.toolCalls;
    if |toolCalls| == 0 {
      return [], messages, Final(Success(result.value.content));
    }
    var allTerminate;
    ghost var rs;
    events, updated, allTerminate, rs :=
      RunTools(w, order, round, messages, toolCalls, result.value.thinking, counter);
    end := if allTerminate then Final(Success(result.value.content)) else Again;
  }

  /** `RunNonStreaming`; `seen` is what the result callback received. */
  method RunNonStreaming(w: World, order: (nat, nat) -> seq<nat>, maxLoop: int, initial: seq<Message>,
                         counter: ToolSeqCounter?)
    returns (answer: Result<string, End>, messages: seq<Message>, seen: seq<Event>)
    requires Scheduler(order)
    modifies counter
    ensures var p := FullPlainRun(w, maxLoop, initial, old(First(counter)));
      answer == p.answer && messages == p.messages && seen == ResultEvents(p.results)
  {
    ghost var p := FullPlainRun(w, maxLoop, initial, First(counter));
    messages, seen := initial, [];
    var iter := 0;
    while iter < maxLoop
      invariant 0 <= iter
      invariant PlainAhead(p, seen, PlainFrom(Calling(w), maxLoop, iter, messages, Base(counter), counter != null))
    {
      OneCallOn(p, seen, Calling(w), maxLoop, iter, messages, Base(counter), counter != null);
      var events, end;
      events, messages, end := PlayCall(w, order, iter, messages, counter);
      seen := seen + events;
      if end.Final? {
        return end.answer, messages, seen;
      }
      iter := iter + 1;
    }
    answer := Failure(Exceeded);
  }
}
