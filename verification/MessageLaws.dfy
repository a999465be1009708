/**
 Messages in terms of their blocks and responses in terms of their members: what
 is sent for which blocks, and which blocks come of a response, in what order.
 */
module MessageLaws {
  import opened Sequences
  import opened Text
  import opened Json
  import opened StreamTranslator
  import opened StreamReference
  import opened StreamOutput
  import opened RequestContent
  import opened ContentLaws
  import opened MessageConversion

  // ---- What the blocks of a message hold ----

  function ToolUses(blocks: seq<Block>): seq<ToolUseBlock> {
    if blocks == [] then []
    else match blocks[|blocks| - 1]
      case ToolUse(use) => ToolUses(blocks[..|blocks| - 1]) + [use]
      case _ => ToolUses(blocks[..|blocks| - 1])
  }

  function Unknowns(blocks: seq<Block>): seq<Json> {
    if blocks == [] then []
    else match blocks[|blocks| - 1]
      case Unknown(j) => Unknowns(blocks[..|blocks| - 1]) + [j]
      case _ => Unknowns(blocks[..|blocks| - 1])
  }

  /** The last thought that is not empty. */
  function LastThought(blocks: seq<Block>): Option<string> {
    if blocks == [] then None
    else match blocks[|blocks| - 1]
      case Thinking(Some(t)) => if |t| > 0 then Some(t) else LastThought(blocks[..|blocks| - 1])
      case _ => LastThought(blocks[..|blocks| - 1])
  }

  function LastResult(blocks: seq<Block>): Option<ToolResultBlock> {
    if blocks == [] then None
    else match blocks[|blocks| - 1]
      case ToolResult(r) => Some(r)
      case _ => LastResult(blocks[..|blocks| - 1])
  }

  lemma {:induction false} UnknownsHeld(blocks: seq<Block>)
    ensures FlatMap(UnknownOf, blocks) == Unknowns(blocks)
  {
    if blocks == [] {
    } else {
      var init, b := blocks[..|blocks| - 1], blocks[|blocks| - 1];
      assert blocks == init + [b];
      UnknownsHeld(init);
      FlatMapSnoc(UnknownOf, init, b);
    }
  }

  lemma {:induction false} ThoughtsHeld(blocks: seq<Block>)
    ensures Last(FlatMap(ThoughtOf, blocks)) == LastThought(blocks)
  {
    if blocks == [] {
    } else {
      var init, b := blocks[..|blocks| - 1], blocks[|blocks| - 1];
      assert blocks == init + [b];
      ThoughtsHeld(init);
      FlatMapSnoc(ThoughtOf, init, b);
    }
  }

  lemma {:induction false} ResultsHeld(blocks: seq<Block>)
    ensures Last(FlatMap(ResultOf, blocks)) == LastResult(blocks)
  {
    if blocks == [] {
    } else {
      var init, b := blocks[..|blocks| - 1], blocks[|blocks| - 1];
      assert blocks == init + [b];
      ResultsHeld(init);
      FlatMapSnoc(ResultOf, init, b);
    }
  }

  // ---- Tool calls ----

  /** What is sent for a tool use: id and name have defaults, a string input is taken for JSON text. */
  predicate IsCallFor(call: ToolCallOut, use: ToolUseBlock) {
    && call.id == First(NonEmpty(use.id), "toolu_0")
    && call.name == First(NonEmpty(use.name) + NonEmpty(use.functionName), "tool")
    && call.arguments == match use.input
                         case Some(Str(s)) => if |s| > 0 then s else "{}"
                         case Some(Null) => "{}"
                         case None => "{}"
                         case Some(j) => Dumps(j, PLAIN)
  }

  lemma CallForUse(use: ToolUseBlock)
    ensures IsCallFor(ConvertToolUse(use), use)
  {
    hide Dumps;
    TruthyIsGiven(use.id);
    TruthyIsGiven(use.name);
    TruthyIsGiven(use.functionName);
  }

  predicate AreCallsFor(calls: seq<ToolCallOut>, uses: seq<ToolUseBlock>) {
    |calls| == |uses| && forall k | 0 <= k < |uses| :: IsCallFor(calls[k], uses[k])
  }

  lemma {:induction false} CallsForUses(blocks: seq<Block>)
    ensures AreCallsFor(FlatMap(CallsOf, blocks), ToolUses(blocks))
  {
    hide IsCallFor, ConvertToolUse;
    if blocks == [] {
    } else {
      var init, b := blocks[..|blocks| - 1], blocks[|blocks| - 1];
      assert blocks == init + [b];
      CallsForUses(init);
      FlatMapSnoc(CallsOf, init, b);
      if b.ToolUse? {
        CallForUse(b.use);
      }
    }
  }

  // ---- A message without tool results ----

  /** A string stands for one part of plain text, for serialised unknown blocks, or for nothing. */
  ghost predicate Stands(content: MessageContent, parts: seq<Part>, unknowns: seq<Json>) {
    match content
    case PartsContent(ps) => ps == parts != [] && forall t: string :: parts != [TextPart(t, None)]
    case StringContent(s) =>
      || parts == [TextPart(s, None)]
      || (parts == [] && unknowns != [] && s == Dumps(Arr(unknowns), PLAIN))
      || (parts == [] && unknowns == [] && s == "")
  }

  lemma ContentStands(parts: seq<Part>, unknowns: seq<Json>)
    ensures Stands(AssembleContent(parts, unknowns), parts, unknowns)
  {
    hide Dumps;
    if |parts| == 1 {
      assert parts == [parts[0]];
    }
  }

  /** No two contents stand for the same: a message's content is determined by its blocks. */
  lemma ContentIsDetermined(a: MessageContent, b: MessageContent, parts: seq<Part>, unknowns: seq<Json>)
    requires Stands(a, parts, unknowns) && Stands(b, parts, unknowns)
    ensures a == b
  {
    hide Dumps;
  }

  function LastOption(xs: seq<string>): Option<string> {
    if |xs| == 0 then None else Some(xs[|xs| - 1])
  }

  lemma {:induction false} NoResult(blocks: seq<Block>)
    requires forall b <- blocks :: !b.ToolResult?
    ensures LastResult(blocks).None?
  {
    if blocks == [] {
    } else {
      assert blocks[|blocks| - 1] in blocks;
      NoResult(blocks[..|blocks| - 1]);
    }
  }

  /**
   A message without tool results keeps its role; its content stands for its
   parts or, if it has none, for its unknown blocks; it has a call per tool use.
   */
  lemma PlainMessageSent(role: string, blocks: seq<Block>, x: Extras)
    requires forall b <- blocks :: !b.ToolResult?
    ensures var m := OutboundMessage(role, Blocks(blocks), x);
            && m.role == role
            && Stands(m.content, PartsOf(blocks), Unknowns(blocks))
            && AreCallsFor(m.toolCalls, ToolUses(blocks))
            && m.givenCalls == (if ToolUses(blocks) == [] then x.toolCalls else [])
            && m.toolCallId == LastOption(if role == "tool" then [] else NonEmpty(x.toolCallId))
            && m.name == LastOption(NonEmpty(x.name))
            && m.reasoning == LastThought(blocks)
  {
    hide FlatMap, Merge, Tokens, CallsOf, Stands, IsCallFor, LastThought, Unknowns, ToolUses, Last;
    UnknownsHeld(blocks);
    ThoughtsHeld(blocks);
    ResultsHeld(blocks);
    CallsForUses(blocks);
    NoResult(blocks);
    ContentStands(PartsOf(blocks), Unknowns(blocks));
    TruthyIsGiven(x.toolCallId);
    TruthyIsGiven(x.name);
  }

  /** A text is sent as it is. */
  lemma TextMessageSent(role: string, s: string, x: Extras)
    ensures var m := OutboundMessage(role, TextOnly(s), x);
            && m.role == role && m.content == StringContent(s) && m.toolCalls == [] && m.givenCalls == x.toolCalls
            && m.toolCallId == LastOption(if role == "tool" then [] else NonEmpty(x.toolCallId))
            && m.name == LastOption(NonEmpty(x.name)) && m.reasoning.None?
  {
    TruthyIsGiven(x.toolCallId);
    TruthyIsGiven(x.name);
  }

  // ---- A message with tool results ----

  function DictTexts(items: seq<ContentItem>): string {
    if items == [] then ""
    else match items[|items| - 1]
      case DictItem(Some(t)) => DictTexts(items[..|items| - 1]) + t
      case _ => DictTexts(items[..|items| - 1])
  }

  /** The text of a result: itself, the `text` of its objects, or how Python prints it. */
  function ResultTextOf(content: ResultContent): string {
    match content
    case NoResult => ""
    case ResultText(s) => s
    case ResultItems(items) => DictTexts(items)
    case ResultOther(repr) => repr
  }

  lemma {:induction false} ResultItemsText(items: seq<ContentItem>)
    ensures FlatMap(ResultItemText, items) == DictTexts(items)
  {
    if items == [] {
    } else {
      var init, last := items[..|items| - 1], items[|items| - 1];
      assert items == init + [last];
      ResultItemsText(init);
      FlatMapSnoc(ResultItemText, init, last);
    }
  }

  /** A message with tool results is a tool message with the text and id of the last one, and no calls of its own. */
  lemma ResultMessageSent(role: string, blocks: seq<Block>, x: Extras)
    requires LastResult(blocks).Some?
    ensures var m, r := OutboundMessage(role, Blocks(blocks), x), LastResult(blocks).value;
            && m.role == "tool" && m.content == StringContent(ResultTextOf(r.content))
            && m.toolCallId == Some(First(NonEmpty(r.toolUseId) + NonEmpty(r.id), "toolu_0"))
            && m.toolCalls == [] && m.givenCalls == (if ToolUses(blocks) == [] then x.toolCalls else [])
            && m.name == LastOption(NonEmpty(x.name)) && m.reasoning == LastThought(blocks)
  {
    hide FlatMap, Merge, Tokens, CallsOf, IsCallFor, LastThought, Unknowns, ToolUses, Last, LastResult;
    UnknownsHeld(blocks);
    ThoughtsHeld(blocks);
    ResultsHeld(blocks);
    CallsForUses(blocks);
    var r := LastResult(blocks).value;
    if r.content.ResultItems? {
      ResultItemsText(r.content.items);
    }
    TruthyIsGiven(r.toolUseId);
    TruthyIsGiven(r.id);
    TruthyIsGiven(x.name);
  }

  // ---- Responses ----

  function Rank(b: ContentBlock): (r: int)
    ensures r <= 2
  {
    match b case ThinkingOut(_) => 0 case TextOut(_) => 1 case ToolUseOut(_, _, _) => 2
  }

  function ThoughtIn(b: ContentBlock): seq<string> {
    if b.ThinkingOut? then [b.thinking] else []
  }

  function TextIn(b: ContentBlock): seq<string> {
    if b.TextOut? then [b.text] else []
  }

  function ToolUseIn(b: ContentBlock): seq<ContentBlock> {
    if b.ToolUseOut? then [b] else []
  }

  predicate IsInput(loads: string -> Option<Json>, s: string, input: Json) {
    match loads(s) case Some(j) => input == j case None => input == Obj([Member("_raw", Str(s))])
  }

  /** A tool use that answers a call at a position: id and name have defaults, text that is no JSON is kept. */
  predicate IsUseFor(loads: string -> Option<Json>, b: ContentBlock, call: RawToolCall, k: nat) {
    && b.ToolUseOut?
    && b.id == First(NonEmpty(call.id), "toolu_" + IntText(k))
    && b.name == (match call.name case NoName => Some("tool") case GivenName(given) => given)
    && match call.arguments
       case ArgumentsValue(j) => b.input == j
       case NoArguments => IsInput(loads, "{}", b.input)
       case ArgumentsString(s) => IsInput(loads, s, b.input)
  }

  lemma UseForCall(loads: string -> Option<Json>, call: RawToolCall, k: nat)
    ensures IsUseFor(loads, ToolUseBlockOut(loads, k, call), call, k)
  {
    hide IntText;
    TruthyIsGiven(call.id);
  }

  lemma {:induction false} UsesForCalls(loads: string -> Option<Json>, first: nat, calls: seq<RawToolCall>)
    ensures var bs := ToolUseBlocks(loads, first, calls);
            |bs| == |calls| && forall k | 0 <= k < |calls| :: IsUseFor(loads, bs[k], calls[k], first + k)
    decreases |calls|
  {
    hide IsUseFor, ToolUseBlockOut;
    if calls == [] {
    } else {
      UseForCall(loads, calls[0], first);
      UsesForCalls(loads, first + 1, calls[1..]);
    }
  }

  lemma OnlyUses(loads: string -> Option<Json>, first: nat, calls: seq<RawToolCall>)
    ensures forall b <- ToolUseBlocks(loads, first, calls) :: b.ToolUseOut?
  {
    UsesForCalls(loads, first, calls);
  }

  lemma {:induction false} AllUses(bs: seq<ContentBlock>)
    requires forall b <- bs :: b.ToolUseOut?
    ensures FlatMap(ToolUseIn, bs) == bs && FlatMap(ThoughtIn, bs) == [] && FlatMap(TextIn, bs) == []
  {
    if bs == [] {
    } else {
      assert bs[0] in bs;
      AllUses(bs[1..]);
    }
  }

  /** The calls of a response: those of its message, or those beside it if the message has none. */
  predicate AreCallsOf(calls: seq<RawToolCall>, r: Response) {
    if |r.toolCalls| > 0 then calls == r.toolCalls else calls == r.choiceCalls
  }

  function ContentText(content: Option<Content>): seq<string> {
    match content case None => [] case Some(c) => if |TextOf(c)| == 0 then [] else [TextOf(c)]
  }

  lemma Ranked(a: seq<ContentBlock>, b: seq<ContentBlock>, c: seq<ContentBlock>)
    requires |a| <= 1 && (a != [] ==> a[0].ThinkingOut?)
    requires |b| <= 1 && (b != [] ==> b[0].TextOut?)
    requires forall x <- c :: x.ToolUseOut?
    ensures var bs := a + b + c; forall i, j | 0 <= i < j < |bs| :: Rank(bs[i]) <= Rank(bs[j])
  {
    var bs := a + b + c;
    forall i, j | 0 <= i < j < |bs|
      ensures Rank(bs[i]) <= Rank(bs[j])
    {
      if j < |a| + |b| {
        assert |a| == |b| == 1 && bs[i] == a[0] && bs[j] == b[0];
      } else {
        assert bs[j] == c[j - |a| - |b|] && bs[j] in c;
      }
    }
  }

  lemma Projected<T>(f: ContentBlock -> seq<T>, a: seq<ContentBlock>, b: seq<ContentBlock>, c: seq<ContentBlock>)
    requires |a| <= 1 && |b| <= 1
    ensures FlatMap(f, a + b + c) ==
            (if a == [] then [] else f(a[0])) + (if b == [] then [] else f(b[0])) + FlatMap(f, c)
  {
    FlatMapAppend(f, a + b, c);
    FlatMapAppend(f, a, b);
    if a != [] {
      assert a == [a[0]];
      FlatMapOne(f, a[0]);
    }
    if b != [] {
      assert b == [b[0]];
      FlatMapOne(f, b[0]);
    }
  }

  /**
   The blocks of a response: thoughts before text before tool uses; one thought
   and one text at most, and a tool use for every call, at its position.
   */
  lemma ResponseBlocks(loads: string -> Option<Json>, r: Response, calls: seq<RawToolCall>)
    requires AreCallsOf(calls, r)
    ensures var bs := InboundBlocks(loads, r);
            var uses := FlatMap(ToolUseIn, bs);
            && (forall i, j | 0 <= i < j < |bs| :: Rank(bs[i]) <= Rank(bs[j]))
            && FlatMap(ThoughtIn, bs) == NonEmpty(r.reasoning)
            && FlatMap(TextIn, bs) == ContentText(r.content)
            && |uses| == |calls| && forall k | 0 <= k < |calls| :: IsUseFor(loads, uses[k], calls[k], k)
  {
    hide ToolUseBlocks, NormalizedText, TextOf, IsUseFor, IsInput, ToolUseBlockOut, FlatMap, Rank;
    var a := if Truthy(r.reasoning) then [ThinkingOut(r.reasoning.value)] else [];
    var b, c := TextBlocks(r.content), ToolUseBlocks(loads, 0, calls);
    TruthyIsGiven(r.reasoning);
    if r.content.Some? {
      ContentIsTold(r.content.value);
    }
    OnlyUses(loads, 0, calls);
    UsesForCalls(loads, 0, calls);
    AllUses(c);
    assert InboundBlocks(loads, r) == a + b + c;
    Projected(ToolUseIn, a, b, c);
    Projected(ThoughtIn, a, b, c);
    Projected(TextIn, a, b, c);
    Ranked(a, b, c);
  }
}
