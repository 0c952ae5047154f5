/** Translation of a transcript into Anthropic's message format. */
module AnthropicMessages {
  import opened Wrappers
  import opened Text
  import opened Llm
  import opened Truncation

  datatype Block =
    | TextBlock(text: string)
    | ThinkingBlock(thinking: string)
    | ToolUse(id: string, name: string, input: string)
    | ToolResultBlock(toolUseId: string, content: string)

  /** An output message; its role is `user` or `assistant`. */
  datatype Msg = Msg(fromUser: bool, content: seq<Block>)

  /** `toAnthropicInputParts`. */
  function InputParts(m: Message): seq<Block> {
    if Blank(m.content) && Blank(m.thinking) then []
    else if Blank(m.thinking) then [TextBlock(m.content)]
    else if Blank(m.content) then [ThinkingBlock(m.thinking)]
    else [TextBlock(m.content), ThinkingBlock(m.thinking)]
  }

  /** The id under which the i-th call of a message is sent. */
  function UseId(i: nat, id: string): string {
    if Blank(id) then "toolu_" + Dec(i + 1) else TrimSpace(id)
  }

  /** `raw` is the rendering of a call's arguments as JSON. */
  function ToolUses(calls: seq<ToolCall>, raw: string -> string): (bs: seq<Block>)
    ensures |bs| == |calls|
    ensures forall i :: 0 <= i < |calls| ==>
      bs[i] == ToolUse(UseId(i, calls[i].id), calls[i].name, raw(calls[i].arguments))
  {
    seq(|calls|, i requires 0 <= i < |calls| => ToolUse(UseId(i, calls[i].id), calls[i].name, raw(calls[i].arguments)))
  }

  /** What one message turns into: nothing, a tool result to be merged, or a message of its own. */
  datatype Item = Skip | Piece(block: Block) | Whole(msg: Msg) {
    function Blocks(): seq<Block> {
      match this
      case Skip => []
      case Piece(block) => [block]
      case Whole(msg) => msg.content
    }
  }

  function ItemFor(role: Role, m: Message, raw: string -> string): Item {
    match role
    case ToolRole => Piece(ToolResultBlock(m.toolCallId, m.content))
    case UserRole =>
      if m.toolCallId != "" then Piece(ToolResultBlock(m.toolCallId, m.content))
      else if InputParts(m) == [] then Skip
      else Whole(Msg(true, InputParts(m)))
    case AssistantRole =>
      var content := InputParts(m) + ToolUses(m.toolCalls, raw);
      if content == [] then Skip else Whole(Msg(false, content))
    case _ => Skip
  }

  function ItemOf(m: Message, raw: string -> string): Item {
    ItemFor(RoleOf(m.role), m, raw)
  }

  function Items(ms: seq<Message>, raw: string -> string): seq<Item> {
    Map((m: Message) => ItemOf(m, raw), ms)
  }

  /** A tool result joins the last message if that is a user message, else it starts one. */
  function AddResult(out: seq<Msg>, block: Block): seq<Msg> {
    if out != [] && out[|out| - 1].fromUser then
      out[|out| - 1 := Msg(true, out[|out| - 1].content + [block])]
    else out + [Msg(true, [block])]
  }

  function Add(out: seq<Msg>, item: Item): seq<Msg> {
    match item
    case Skip => out
    case Piece(block) => AddResult(out, block)
    case Whole(msg) => out + [msg]
  }

  /** The messages after translating the items behind what is already there. */
  function Convert(out: seq<Msg>, items: seq<Item>): seq<Msg>
    decreases |items|
  {
    if items == [] then out else Convert(Add(out, items[0]), items[1..])
  }

  /** What a message adds to the system text. */
  function SystemPart(m: Message): seq<string> {
    if RoleOf(m.role).SystemRole? && !Blank(m.content) then [m.content] else []
  }

  /** The texts of the non-blank system messages. */
  function SystemParts(ms: seq<Message>): seq<string> {
    Concat(Map(SystemPart, ms))
  }

  // ----- Nothing is lost, duplicated, reordered or put in another mouth -----

  /** A block and the side it is sent from. */
  datatype Sided = Sided(fromUser: bool, block: Block)

  function From(fromUser: bool, bs: seq<Block>): seq<Sided> {
    Map((b: Block) => Sided(fromUser, b), bs)
  }

  /** The output read front to back. */
  function Read(out: seq<Msg>): seq<Sided> {
    Concat(Map((m: Msg) => From(m.fromUser, m.content), out))
  }

  function ReadItem(item: Item): seq<Sided> {
    match item
    case Skip => []
    case Piece(block) => [Sided(true, block)]
    case Whole(msg) => From(msg.fromUser, msg.content)
  }

  function ReadItems(items: seq<Item>): seq<Sided> {
    Concat(Map(ReadItem, items))
  }

  function Owns(items: seq<Item>): seq<Block> {
    Concat(Map((item: Item) => item.Blocks(), items))
  }

  lemma ReadSnoc(out: seq<Msg>, m: Msg)
    ensures Read(out + [m]) == Read(out) + From(m.fromUser, m.content)
  {
    var f := (m: Msg) => From(m.fromUser, m.content);
    MapAppend(f, out, [m]);
    assert Map(f, [m]) == [From(m.fromUser, m.content)];
    ConcatSnoc(Map(f, out), From(m.fromUser, m.content));
  }

  lemma AddKeepsBlocks(out: seq<Msg>, item: Item)
    ensures Read(Add(out, item)) == Read(out) + ReadItem(item)
  {
    match item
    case Skip =>
    case Whole(msg) => ReadSnoc(out, msg);
    case Piece(block) =>
      if out != [] && out[|out| - 1].fromUser {
        var init, last := out[..|out| - 1], out[|out| - 1];
        assert out == init + [last];
        assert Add(out, item) == init + [Msg(true, last.content + [block])];
        ReadSnoc(init, last);
        ReadSnoc(init, Msg(true, last.content + [block]));
        MapAppend((b: Block) => Sided(true, b), last.content, [block]);
        Assoc(Read(init), From(true, last.content), [Sided(true, block)]);
      } else {
        ReadSnoc(out, Msg(true, [block]));
        assert From(true, [block]) == [Sided(true, block)];
      }
  }

  /** Reading the translation front to back gives every message's own blocks from its own side, once, in order. */
  lemma {:induction false} ConvertKeepsBlocks(out: seq<Msg>, items: seq<Item>)
    ensures Read(Convert(out, items)) == Read(out) + ReadItems(items)
    decreases |items|
  {
    if items == [] {
      assert ReadItems(items) == [];
    } else {
      AddKeepsBlocks(out, items[0]);
      ConvertKeepsBlocks(Add(out, items[0]), items[1..]);
      assert Map(ReadItem, items)[1..] == Map(ReadItem, items[1..]);
      assert ReadItems(items) == ReadItem(items[0]) + ReadItems(items[1..]);
      Assoc(Read(out), ReadItem(items[0]), ReadItems(items[1..]));
    }
  }

  /** The message answers a call. */
  predicate Answers(m: Message) {
    RoleOf(m.role).ToolRole? || (RoleOf(m.role).UserRole? && m.toolCallId != "")
  }

  /** The message is a user's or the assistant's own words. */
  predicate Speaks(m: Message) {
    RoleOf(m.role).AssistantRole? || (RoleOf(m.role).UserRole? && m.toolCallId == "")
  }

  /** The text and the thoughts of a message, unless they are blank. */
  function Words(fromUser: bool, m: Message): seq<Sided> {
    (if TrimSpace(m.content) != "" then [Sided(fromUser, TextBlock(m.content))] else [])
    + (if TrimSpace(m.thinking) != "" then [Sided(fromUser, ThinkingBlock(m.thinking))] else [])
  }

  /** What a message of the transcript says, by its fields. */
  function Told(m: Message, raw: string -> string): seq<Sided> {
    if Answers(m) then [Sided(true, ToolResultBlock(m.toolCallId, m.content))]
    else if !Speaks(m) then []
    else if RoleOf(m.role).UserRole? then Words(true, m)
    else Words(false, m) + Calls(m.toolCalls, raw)
  }

  /** A call without an id is numbered by its place in the message. */
  function Calls(calls: seq<ToolCall>, raw: string -> string): seq<Sided> {
    seq(|calls|, i requires 0 <= i < |calls| =>
      var id := TrimSpace(calls[i].id);
      Sided(false, ToolUse(if id == "" then "toolu_" + Dec(i + 1) else id, calls[i].name, raw(calls[i].arguments))))
  }

  lemma {:induction false} WordsTell(fromUser: bool, m: Message)
    ensures From(fromUser, InputParts(m)) == Words(fromUser, m)
  {
  }

  lemma FromAppend(fromUser: bool, a: seq<Block>, b: seq<Block>)
    ensures From(fromUser, a + b) == From(fromUser, a) + From(fromUser, b)
  {
  }

  lemma UsesTell(calls: seq<ToolCall>, raw: string -> string)
    ensures From(false, ToolUses(calls, raw)) == Calls(calls, raw)
  {
  }

  lemma {:induction false} ItemTells(m: Message, raw: string -> string)
    ensures ReadItem(ItemOf(m, raw)) == Told(m, raw)
  {
    match RoleOf(m.role)
    case UserRole =>
      WordsTell(true, m);
    case AssistantRole =>
      WordsTell(false, m);
      UsesTell(m.toolCalls, raw);
      FromAppend(false, InputParts(m), ToolUses(m.toolCalls, raw));
    case _ =>
  }

  /** The translation says, from front to back, exactly what the transcript says, each side its own. */
  lemma {:induction false} TranslationTells(ms: seq<Message>, raw: string -> string)
    ensures Read(Convert([], Items(ms, raw))) == Concat(Map((m: Message) => Told(m, raw), ms))
  {
    ConvertKeepsBlocks([], Items(ms, raw));
    forall i | 0 <= i < |ms|
      ensures ReadItem(Items(ms, raw)[i]) == Told(ms[i], raw)
    {
      ItemTells(ms[i], raw);
    }
    assert Map(ReadItem, Items(ms, raw)) == Map((m: Message) => Told(m, raw), ms);
    assert Read([]) == [];
  }

  /** The messages of the assistant's side. */
  function Replies(out: seq<Msg>): seq<seq<Block>> {
    Concat(Map((m: Msg) => if m.fromUser then [] else [m.content], out))
  }

  /**
   No message is empty. On the user's side a message is one turn's words, if any, and then results;
   it begins with a result only where there is no user message to add it to.
   */
  predicate Merged(out: seq<Msg>) {
    forall i :: 0 <= i < |out| ==>
      && out[i].content != []
      && (out[i].fromUser && out[i].content[0].ToolResultBlock? && i > 0 ==> !out[i - 1].fromUser)
      && (out[i].fromUser ==> WordsFirst(out[i].content))
  }

  predicate WordsFirst(content: seq<Block>) {
    forall j :: 0 < j < |content| && !content[j].ToolResultBlock? ==>
      j == 1 && content[1].ThinkingBlock? && content[0].TextBlock?
  }

  /** What a message becomes when it becomes a message of its own, or starts one. */
  predicate Proper(item: Item) {
    match item
    case Skip => true
    case Piece(block) => block.ToolResultBlock?
    case Whole(msg) =>
      msg.content != [] && (msg.fromUser ==> !msg.content[0].ToolResultBlock? && WordsFirst(msg.content))
  }

  lemma {:induction false} AddKeepsMerged(out: seq<Msg>, item: Item)
    requires Merged(out) && Proper(item)
    ensures Merged(Add(out, item))
  {
  }

  lemma {:induction false} RepliesSnoc(out: seq<Msg>, m: Msg)
    ensures Replies(out + [m]) == Replies(out) + if m.fromUser then [] else [m.content]
  {
    var f := (m: Msg) => if m.fromUser then [] else [m.content];
    MapAppend(f, out, [m]);
    assert Map(f, [m]) == [f(m)];
    ConcatSnoc(Map(f, out), f(m));
  }

  lemma {:induction false} AddReplies(out: seq<Msg>, item: Item)
    ensures Replies(Add(out, item)) ==
      Replies(out) + if item.Whole? && !item.msg.fromUser then [item.msg.content] else []
  {
    match item
    case Skip =>
    case Whole(msg) => RepliesSnoc(out, msg);
    case Piece(block) =>
      if out != [] && out[|out| - 1].fromUser {
        var init, last := out[..|out| - 1], out[|out| - 1];
        assert out == init + [last];
        assert Add(out, item) == init + [Msg(true, last.content + [block])];
        RepliesSnoc(init, last);
        RepliesSnoc(init, Msg(true, last.content + [block]));
      } else {
        RepliesSnoc(out, Msg(true, [block]));
      }
  }

  lemma {:induction false} ItemIsProper(m: Message, raw: string -> string)
    ensures Proper(ItemOf(m, raw))
  {
  }

  /** The blocks of a message's calls and words, if it is the assistant's and has any. */
  function Reply(m: Message, raw: string -> string): seq<seq<Block>> {
    var blocks := Map((s: Sided) => s.block, Told(m, raw));
    if RoleOf(m.role).AssistantRole? && blocks != [] then [blocks] else []
  }

  lemma {:induction false} ItemReplies(m: Message, raw: string -> string)
    ensures var item := ItemOf(m, raw);
      Reply(m, raw) == if item.Whole? && !item.msg.fromUser then [item.msg.content] else []
  {
    ItemTells(m, raw);
    var item := ItemOf(m, raw);
    if item.Whole? {
      assert Map((s: Sided) => s.block, From(item.msg.fromUser, item.msg.content)) == item.msg.content;
    }
  }

  /** Every assistant message with anything to say becomes one of its own, and the rest is merged as it should be. */
  lemma {:induction false} TranslationIsMerged(ms: seq<Message>, raw: string -> string)
    ensures Merged(Convert([], Items(ms, raw)))
    ensures Replies(Convert([], Items(ms, raw))) == Concat(Map((m: Message) => Reply(m, raw), ms))
  {
    if ms != [] {
      var k := |ms| - 1;
      var items := Items(ms, raw);
      TranslationIsMerged(ms[..k], raw);
      ConvertStep(items, k);
      assert items[..k] == Items(ms[..k], raw) && items[..k + 1] == items;
      ItemIsProper(ms[k], raw);
      ItemReplies(ms[k], raw);
      var out := Convert([], items[..k]);
      AddKeepsMerged(out, items[k]);
      AddReplies(out, items[k]);
      var f := (m: Message) => Reply(m, raw);
      assert Map(f, ms)[..k] == Map(f, ms[..k]) && Map(f, ms)[..k + 1] == Map(f, ms);
      ConcatStep(Map(f, ms), k);
    }
  }

  /** The system text is gathered message by message, from the system messages that are not blank. */
  lemma {:induction false} SystemTextTells(a: seq<Message>, m: Message)
    ensures SystemParts([]) == []
    ensures SystemParts(a + [m]) ==
      SystemParts(a) + if RoleOf(m.role).SystemRole? && TrimSpace(m.content) != "" then [m.content] else []
  {
    MapAppend(SystemPart, a, [m]);
    assert Map(SystemPart, [m]) == [SystemPart(m)];
    ConcatSnoc(Map(SystemPart, a), SystemPart(m));
  }

  // ----- Pairing survives -----

  function UseIds(content: seq<Block>): seq<string> {
    if content == [] then []
    else if content[0].ToolUse? then [content[0].id] + UseIds(content[1..])
    else UseIds(content[1..])
  }

  function ResultIds(content: seq<Block>): seq<string> {
    if content == [] then []
    else if content[0].ToolResultBlock? then [content[0].toolUseId] + ResultIds(content[1..])
    else ResultIds(content[1..])
  }

  /** An output message uses tools, consists of exactly these results, or has nothing to do with tools. */
  datatype Shape = Uses(ids: seq<string>) | Returns(ids: seq<string>) | Other | Mixed

  function ShapeOf(m: Msg): Shape {
    var uses, results := UseIds(m.content), ResultIds(m.content);
    if uses != [] then (if !m.fromUser && results == [] then Uses(uses) else Mixed)
    else if results == [] then Other
    else if m.fromUser && |results| == |m.content| then Returns(results)
    else Mixed
  }

  /** Every use of tools is followed at once by exactly its results, in order, and no result stands elsewhere. */
  predicate PairedShapes(ss: seq<Shape>) {
    ss == [] ||
    match ss[0]
    case Uses(ids) => |ss| >= 2 && ss[1] == Returns(ids) && PairedShapes(ss[2..])
    case Other => PairedShapes(ss[1..])
    case _ => false
  }

  predicate AnthropicPaired(out: seq<Msg>) {
    PairedShapes(Map(ShapeOf, out))
  }

  /** A call id that reaches both sides unchanged: not blank, and without surrounding space. */
  predicate CleanId(id: string) {
    !Blank(id) && TrimSpace(id) == id
  }

  predicate CleanIds(ids: seq<string>) {
    forall j :: 0 <= j < |ids| ==> CleanId(ids[j])
  }

  /** All calls of a transcript have clean ids. */
  predicate CleanTags(ts: seq<Tag>) {
    ts == [] || ((ts[0].Ask? ==> CleanIds(ts[0].ids)) && CleanTags(ts[1..]))
  }

  lemma {:induction false} KeepsFirst(s: string)
    requires s != "" && !IsSpace(s[0])
    ensures TrimRight(s) != ""
  {
    if IsSpace(s[|s| - 1]) {
      KeepsFirst(s[..|s| - 1]);
    }
  }

  lemma UseIdIsItsOwn(i: nat, id: string)
    ensures UseId(i, id) == id <==> CleanId(id)
  {
    if Blank(id) && UseId(i, id) == id {
      var digits := Dec(i + 1);
      assert id == "toolu_" + digits && id[0] == 't';
      KeepsFirst(id);
    }
  }

  /** The ids under which calls are sent. */
  function Sent(ids: seq<string>): (sent: seq<string>)
    ensures |sent| == |ids| && forall i :: 0 <= i < |ids| ==> sent[i] == UseId(i, ids[i])
  {
    seq(|ids|, i requires 0 <= i < |ids| => UseId(i, ids[i]))
  }

  lemma SentIsOwnExactlyWhenClean(ids: seq<string>)
    ensures Sent(ids) == ids <==> CleanIds(ids)
  {
    forall j | 0 <= j < |ids|
      ensures Sent(ids)[j] == ids[j] <==> CleanId(ids[j])
    {
      UseIdIsItsOwn(j, ids[j]);
    }
  }

  lemma {:induction false} OnlyUses(bs: seq<Block>, ids: seq<string>)
    requires |bs| == |ids| && forall i :: 0 <= i < |bs| ==> bs[i].ToolUse? && bs[i].id == ids[i]
    ensures UseIds(bs) == ids && ResultIds(bs) == []
  {
    if bs != [] {
      OnlyUses(bs[1..], ids[1..]);
    }
  }

  lemma {:induction false} OnlyResults(bs: seq<Block>, ids: seq<string>)
    requires |bs| == |ids| && forall i :: 0 <= i < |bs| ==> bs[i].ToolResultBlock? && bs[i].toolUseId == ids[i]
    ensures ResultIds(bs) == ids && UseIds(bs) == []
  {
    if bs != [] {
      OnlyResults(bs[1..], ids[1..]);
    }
  }

  /** Text and thinking in front of other blocks do not change their ids. */
  lemma {:induction false} IdsBehindInput(bs: seq<Block>, rest: seq<Block>)
    requires forall i :: 0 <= i < |bs| ==> bs[i].TextBlock? || bs[i].ThinkingBlock?
    ensures UseIds(bs + rest) == UseIds(rest) && ResultIds(bs + rest) == ResultIds(rest)
  {
    if bs == [] {
      assert bs + rest == rest;
    } else {
      assert (bs + rest)[1..] == bs[1..] + rest;
      IdsBehindInput(bs[1..], rest);
    }
  }

  /** How a message's item fits what the message is in the transcript. */
  predicate Fits(tag: Tag, item: Item) {
    match tag
    case Plain => item.Skip? || (item.Whole? && ShapeOf(item.msg) == Other)
    case Ask(ids) => item.Whole? && !item.msg.fromUser && ids != [] && ShapeOf(item.msg) == Uses(Sent(ids))
    case Answer(id) => item.Piece? && item.block.ToolResultBlock? && item.block.toolUseId == id
  }

  lemma InputShape(fromUser: bool, m: Message)
    ensures ShapeOf(Msg(fromUser, InputParts(m))) == Other
  {
    var input := InputParts(m);
    IdsBehindInput(input, []);
    assert input + [] == input;
  }

  lemma AskShape(m: Message, raw: string -> string)
    requires m.toolCalls != []
    ensures ShapeOf(Msg(false, InputParts(m) + ToolUses(m.toolCalls, raw))) == Uses(Sent(CallIds(m.toolCalls)))
  {
    var uses := ToolUses(m.toolCalls, raw);
    IdsBehindInput(InputParts(m), uses);
    OnlyUses(uses, Sent(CallIds(m.toolCalls)));
  }

  lemma ItemFits(role: Role, m: Message, raw: string -> string)
    ensures Fits(TagFor(role, m), ItemFor(role, m, raw))
  {
    match role
    case AssistantRole =>
      if m.toolCalls == [] {
        InputShape(false, m);
        assert InputParts(m) + ToolUses(m.toolCalls, raw) == InputParts(m);
      } else {
        AskShape(m, raw);
        assert CallIds(m.toolCalls) != [];
      }
    case UserRole => InputShape(true, m);
    case _ =>
  }

  lemma {:induction false} ConvertAppend(out: seq<Msg>, a: seq<Item>, b: seq<Item>)
    ensures Convert(out, a + b) == Convert(Convert(out, a), b)
    decreases |a|
  {
    if a == [] {
      assert a + b == b;
    } else {
      ConvertAppend(Add(out, a[0]), a[1..], b);
      assert (a + b)[1..] == a[1..] + b;
    }
  }

  /** Results behind a user message gather in it. */
  lemma {:induction false} ResultsGather(out: seq<Msg>, last: Msg, items: seq<Item>)
    requires last.fromUser && forall i :: 0 <= i < |items| ==> items[i].Piece?
    ensures Convert(out + [last], items) == out + [Msg(true, last.content + Owns(items))]
    decreases |items|
  {
    if items == [] {
      assert last.content + Owns(items) == last.content;
    } else {
      var f := (item: Item) => item.Blocks();
      var next := Msg(true, last.content + [items[0].block]);
      assert Add(out + [last], items[0]) == out + [next];
      ResultsGather(out, next, items[1..]);
      assert Map(f, items)[1..] == Map(f, items[1..]);
      Assoc(last.content, [items[0].block], Owns(items[1..]));
    }
  }

  lemma {:induction false} PiecesOwn(items: seq<Item>)
    requires forall i :: 0 <= i < |items| ==> items[i].Piece?
    ensures |Owns(items)| == |items| && forall i :: 0 <= i < |items| ==> Owns(items)[i] == items[i].block
  {
    if items != [] {
      var f := (item: Item) => item.Blocks();
      assert Map(f, items)[1..] == Map(f, items[1..]);
      PiecesOwn(items[1..]);
    }
  }

  /** The user message that the answers of one batch become. */
  function ReturnsOf(items: seq<Item>): Msg {
    Msg(true, Owns(items))
  }

  /** Right behind an assistant message, the answers of a batch become one user message made of them. */
  lemma AnswersBecomeReturns(out: seq<Msg>, items: seq<Item>, ids: seq<string>)
    requires out != [] && !out[|out| - 1].fromUser && |items| == |ids| > 0
    requires forall i :: 0 <= i < |items| ==> Fits(Answer(ids[i]), items[i])
    ensures Convert(out, items) == out + [ReturnsOf(items)] && ShapeOf(ReturnsOf(items)) == Returns(ids)
  {
    var f := (item: Item) => item.Blocks();
    var first := Msg(true, [items[0].block]);
    assert Add(out, items[0]) == out + [first];
    ResultsGather(out, first, items[1..]);
    assert Map(f, items)[1..] == Map(f, items[1..]);
    PiecesOwn(items);
    OnlyResults(Owns(items), ids);
  }

  lemma {:induction false} AnswersAreClean(ids: seq<string>, rest: seq<Tag>)
    ensures CleanTags(AnswerTags(ids) + rest) <==> CleanTags(rest)
  {
    if ids == [] {
      assert AnswerTags(ids) + rest == rest;
    } else {
      assert (AnswerTags(ids) + rest)[1..] == AnswerTags(ids[1..]) + rest;
      AnswersAreClean(ids[1..], rest);
    }
  }

  lemma {:induction false} GroupShapes(use: Msg, ret: Msg, tail: seq<Msg>, sent: seq<string>, ids: seq<string>)
    requires ShapeOf(use) == Uses(sent) && ShapeOf(ret) == Returns(ids)
    ensures AnthropicPaired([use, ret] + tail) <==> sent == ids && AnthropicPaired(tail)
  {
    MapAppend(ShapeOf, [use, ret], tail);
    assert Map(ShapeOf, [use, ret]) == [Uses(sent), Returns(ids)];
    assert Map(ShapeOf, [use, ret] + tail)[2..] == Map(ShapeOf, tail);
  }

  lemma OtherShape(msg: Msg, tail: seq<Msg>)
    requires ShapeOf(msg) == Other
    ensures AnthropicPaired([msg] + tail) <==> AnthropicPaired(tail)
  {
    MapAppend(ShapeOf, [msg], tail);
    assert Map(ShapeOf, [msg]) == [Other];
    assert Map(ShapeOf, [msg] + tail)[1..] == Map(ShapeOf, tail);
  }

  ghost predicate AllFit(ts: seq<Tag>, items: seq<Item>) {
    |ts| == |items| && forall i :: 0 <= i < |ts| ==> Fits(ts[i], items[i])
  }

  /** The transcript behind its first message, or behind its first batch of calls and answers. */
  function GroupLength(ts: seq<Tag>): nat
    requires ts != []
  {
    if ts[0].Ask? then |ts[0].ids| + 1 else 1
  }

  lemma AllFitTail(ts: seq<Tag>, items: seq<Item>, n: nat)
    requires AllFit(ts, items) && n <= |ts|
    ensures AllFit(ts[n..], items[n..])
  {
  }

  /** What the first group of a well-paired transcript is translated to, wherever it stands. */
  function GroupOf(ts: seq<Tag>, items: seq<Item>): seq<Msg>
    requires AllFit(ts, items) && Paired(ts) && ts != []
  {
    assert Fits(ts[0], items[0]);
    if ts[0].Ask? then [items[0].msg, ReturnsOf(items[1..GroupLength(ts)])]
    else if items[0].Whole? then [items[0].msg]
    else []
  }

  lemma TranslateGroup(out: seq<Msg>, ts: seq<Tag>, items: seq<Item>)
    requires AllFit(ts, items) && Paired(ts) && ts != []
    ensures Convert(out, items) == Convert(out + GroupOf(ts, items), items[GroupLength(ts)..])
  {
    assert Fits(ts[0], items[0]);
    if ts[0].Ask? {
      var use, ret := items[0].msg, ReturnsOf(items[1..GroupLength(ts)]);
      AskGroup(out, ts, items, use, ret);
      TwoMore(out, use, ret, []);
      assert out + [use] + [ret] == out + [use, ret];
    } else {
      assert Add(out, items[0]) == out + GroupOf(ts, items);
    }
  }

  /** A well-paired transcript is translated independently of what stands before it. */
  lemma {:induction false} TranslateAnywhere(out: seq<Msg>, ts: seq<Tag>, items: seq<Item>)
    requires AllFit(ts, items) && Paired(ts)
    ensures Convert(out, items) == out + Convert([], items)
    decreases |items|
  {
    if items != [] {
      var n, group := GroupLength(ts), GroupOf(ts, items);
      AllFitTail(ts, items, n);
      TranslateGroup(out, ts, items);
      TranslateGroup([], ts, items);
      TranslateAnywhere(out + group, ts[n..], items[n..]);
      TranslateAnywhere(group, ts[n..], items[n..]);
      assert [] + group == group;
      Assoc(out, group, Convert([], items[n..]));
    } else {
      assert out + [] == out;
    }
  }

  lemma {:induction false} BatchIsPairedExactlyWhenClean(ts: seq<Tag>, items: seq<Item>, tail: seq<Msg>)
    requires AllFit(ts, items) && Paired(ts) && ts != [] && ts[0].Ask?
    ensures AnthropicPaired(GroupOf(ts, items) + tail) <==> CleanIds(ts[0].ids) && AnthropicPaired(tail)
  {
    assert Fits(ts[0], items[0]);
    var use, ret := items[0].msg, ReturnsOf(items[1..GroupLength(ts)]);
    AskGroup([], ts, items, use, ret);
    GroupShapes(use, ret, tail, Sent(ts[0].ids), ts[0].ids);
    SentIsOwnExactlyWhenClean(ts[0].ids);
  }

  lemma {:induction false} GroupIsPairedExactlyWhenClean(ts: seq<Tag>, items: seq<Item>, tail: seq<Msg>)
    requires AllFit(ts, items) && Paired(ts) && ts != []
    ensures AnthropicPaired(GroupOf(ts, items) + tail) <==>
      (ts[0].Ask? ==> CleanIds(ts[0].ids)) && AnthropicPaired(tail)
  {
    assert Fits(ts[0], items[0]);
    if ts[0].Ask? {
      BatchIsPairedExactlyWhenClean(ts, items, tail);
    } else if items[0].Whole? {
      OtherShape(items[0].msg, tail);
    } else {
      assert [] + tail == tail;
    }
  }

  lemma {:induction false} GroupIsClean(ts: seq<Tag>)
    requires Paired(ts) && ts != []
    ensures CleanTags(ts) <==> (ts[0].Ask? ==> CleanIds(ts[0].ids)) && CleanTags(ts[GroupLength(ts)..])
  {
    if ts[0].Ask? {
      var ids := ts[0].ids;
      AnswersAreClean(ids, ts[GroupLength(ts)..]);
      assert ts[1..] == AnswerTags(ids) + ts[GroupLength(ts)..];
    }
  }

  lemma {:induction false} TranslationIsPairedExactlyWhenClean(ts: seq<Tag>, items: seq<Item>)
    requires AllFit(ts, items) && Paired(ts)
    ensures AnthropicPaired(Convert([], items)) <==> CleanTags(ts)
    decreases |items|
  {
    if items != [] {
      var n, group := GroupLength(ts), GroupOf(ts, items);
      AllFitTail(ts, items, n);
      TranslateGroup([], ts, items);
      assert [] + group == group;
      TranslateAnywhere(group, ts[n..], items[n..]);
      GroupIsPairedExactlyWhenClean(ts, items, Convert([], items[n..]));
      GroupIsClean(ts);
      TranslationIsPairedExactlyWhenClean(ts[n..], items[n..]);
    }
  }

  lemma {:induction false} TwoMore(out: seq<Msg>, a: Msg, b: Msg, tail: seq<Msg>)
    ensures out + [a] + [b] + tail == out + ([a, b] + tail)
    ensures [] + ([a, b] + tail) == [a, b] + tail
  {
  }

  lemma AnswersFit(ts: seq<Tag>, items: seq<Item>, i: nat)
    requires AllFit(ts, items) && Paired(ts) && ts != [] && ts[0].Ask? && i < |ts[0].ids|
    ensures Fits(Answer(ts[0].ids[i]), items[1..|ts[0].ids| + 1][i])
  {
    var ids := ts[0].ids;
    assert ts[1..|ids| + 1][i] == AnswerTags(ids)[i];
    assert Fits(ts[i + 1], items[i + 1]);
  }

  /** One batch of calls: the uses, then the message its answers become, then the rest. */
  lemma {:induction false} AskGroup(out: seq<Msg>, ts: seq<Tag>, items: seq<Item>, use: Msg, ret: Msg)
    requires AllFit(ts, items) && Paired(ts) && ts != [] && ts[0].Ask?
    requires items[0] == Whole(use) && ret == ReturnsOf(items[1..|ts[0].ids| + 1])
    ensures Convert(out, items) == Convert(out + [use] + [ret], items[|ts[0].ids| + 1..])
    ensures ShapeOf(use) == Uses(Sent(ts[0].ids)) && ShapeOf(ret) == Returns(ts[0].ids)
  {
    assert Fits(ts[0], items[0]);
    forall i: nat | i < |ts[0].ids|
      ensures Fits(Answer(ts[0].ids[i]), items[1..|ts[0].ids| + 1][i])
    {
      AnswersFit(ts, items, i);
    }
    AskItems(out, use, ts[0].ids, items[1..|ts[0].ids| + 1], items[|ts[0].ids| + 1..]);
    assert items == [Whole(use)] + items[1..|ts[0].ids| + 1] + items[|ts[0].ids| + 1..];
  }

  lemma {:induction false} AskItems(out: seq<Msg>, use: Msg, ids: seq<string>, answers: seq<Item>, rest: seq<Item>)
    requires !use.fromUser && |answers| == |ids| > 0
    requires forall i :: 0 <= i < |ids| ==> Fits(Answer(ids[i]), answers[i])
    ensures Convert(out, [Whole(use)] + answers + rest) == Convert(out + [use] + [ReturnsOf(answers)], rest)
    ensures ShapeOf(ReturnsOf(answers)) == Returns(ids)
  {
    var items := [Whole(use)] + answers + rest;
    assert items[0] == Whole(use) && items[1..] == answers + rest;
    AnswersBecomeReturns(out + [use], answers, ids);
    ConvertAppend(out + [use], answers, rest);
  }

  /**
   A well-paired transcript becomes a well-paired Anthropic transcript exactly when every call id
   is trimmed and not empty; otherwise some use and its result carry different ids.
   */
  lemma PairingSurvivesExactly(ms: seq<Message>, raw: string -> string)
    requires WellPaired(ms)
    ensures AnthropicPaired(Convert([], Items(ms, raw))) <==> CleanTags(TagsOf(ms))
  {
    var ts, items := TagsOf(ms), Items(ms, raw);
    forall i | 0 <= i < |ms|
      ensures Fits(ts[i], items[i])
    {
      ItemFits(RoleOf(ms[i].role), ms[i], raw);
    }
    TranslationIsPairedExactlyWhenClean(ts, items);
  }

  // ----- The translation as code -----

  /** Merges a tool result into the last message in place, or starts a user message with it. */
  method PutResult(out: seq<Msg>, m: Message) returns (added: seq<Msg>)
    ensures added == Add(out, Piece(ToolResultBlock(m.toolCallId, m.content)))
  {
    var block := ToolResultBlock(m.toolCallId, m.content);
    if |out| > 0 {
      var last := out[|out| - 1];
      if last.fromUser {
        return out[|out| - 1 := last.(content := last.content + [block])];
      }
    }
    added := out + [Msg(true, [block])];
  }

  /** The body of the translation loop. */
  method PutMessage(out: seq<Msg>, systemParts: seq<string>, m: Message, raw: string -> string)
    returns (added: seq<Msg>, parts: seq<string>)
    ensures added == Add(out, ItemOf(m, raw))
    ensures parts == systemParts + SystemPart(m)
  {
    added, parts := out, systemParts;
    match RoleOf(m.role) {
      case SystemRole =>
        if !Blank(m.content) {
          parts := parts + [m.content];
        }
      case ToolRole =>
        added := PutResult(out, m);
      case UserRole =>
        if m.toolCallId != "" {
          added := PutResult(out, m);
        } else {
          var content := InputParts(m);
          if |content| > 0 {
            added := out + [Msg(true, content)];
          }
        }
      case AssistantRole =>
        var content := InputParts(m) + ToolUses(m.toolCalls, raw);
        if |content| > 0 {
          added := out + [Msg(false, content)];
        }
      case UnknownRole =>
    }
  }

  lemma {:induction false} ConvertStep(items: seq<Item>, i: nat)
    requires i < |items|
    ensures Convert([], items[..i + 1]) == Add(Convert([], items[..i]), items[i])
  {
    var one := [items[i]];
    assert items[..i + 1] == items[..i] + one;
    ConvertAppend([], items[..i], one);
    assert one[1..] == [];
  }

  /**
   `toAnthropicMessages`: everything each side said, once and in order; the system text; and for
   a well-paired transcript with clean call ids, and only then, a well-paired translation.
   */
  method ToAnthropicMessages(messages: seq<Message>, raw: string -> string) returns (out: seq<Msg>, system: string)
    ensures out == Convert([], Items(messages, raw))
    ensures Read(out) == Concat(Map((m: Message) => Told(m, raw), messages))
    ensures Merged(out) && Replies(out) == Concat(Map((m: Message) => Reply(m, raw), messages))
    ensures system == Join(SystemParts(messages), "\n\n")
    ensures WellPaired(messages) ==> (AnthropicPaired(out) <==> CleanTags(TagsOf(messages)))
  {
    out := [];
    var systemParts: seq<string> := [];
    ghost var items, parts := Items(messages, raw), Map(SystemPart, messages);
    for i := 0 to |messages|
      invariant out == Convert([], items[..i])
      invariant systemParts == Concat(parts[..i])
    {
      ConvertStep(items, i);
      ConcatStep(parts, i);
      out, systemParts := PutMessage(out, systemParts, messages[i], raw);
    }
    assert items[..|items|] == items && parts[..|messages|] == parts;
    TranslationTells(messages, raw);
    TranslationIsMerged(messages, raw);
    if WellPaired(messages) {
      PairingSurvivesExactly(messages, raw);
    }
    system := Join(systemParts, "\n\n");
  }
}
