/**
 A whole message on its way out to OpenAI form and, as a response, back into
 Anthropic content blocks.
 */
module MessageConversion {
  import opened Sequences
  import opened Text
  import opened Json
  import opened JsonReader
  import opened StreamTranslator
  import opened StreamDriver
  import opened StreamOutput
  import opened RequestContent

  // ---- Outbound ----

  datatype MessageContent = StringContent(s: string) | PartsContent(parts: seq<Part>)

  datatype AnthropicContent = TextOnly(s: string) | Blocks(blocks: seq<Block>)

  /** The attributes of a message beside role and content; calls given there are passed on as they are. */
  datatype Extras = Extras(toolCalls: seq<Json>, toolCallId: Option<string>, name: Option<string>)

  /** The `tool_calls` of a message are converted from its blocks or given with it, never both. */
  datatype OutMessage = OutMessage(
    role: string, content: MessageContent, toolCalls: seq<ToolCallOut>, givenCalls: seq<Json>,
    toolCallId: Option<string>, name: Option<string>, reasoning: Option<string>)

  /** A single plain text part is simplified to a string; leftovers of unknown blocks are serialised. */
  function AssembleContent(parts: seq<Part>, passthrough: seq<Json>): MessageContent {
    if |parts| == 1 && parts[0].TextPart? && parts[0].cache.None? then StringContent(parts[0].text)
    else if parts != [] then PartsContent(parts)
    else if passthrough != [] then StringContent(Dumps(Arr(passthrough), PLAIN))
    else StringContent("")
  }

  function ResultItemText(item: ContentItem): string {
    if item.DictItem? && item.text.Some? then item.text.value else ""
  }

  /** `_flatten_tool_result_content`: bare strings in a list are dropped, unlike in a response. */
  function FlattenResult(content: ResultContent): string {
    match content
    case NoResult => ""
    case ResultText(s) => s
    case ResultItems(items) => FlatMap(ResultItemText, items)
    case ResultOther(repr) => repr
  }

  function AssembleMessage(role: string, c: Converted): OutMessage {
    if c.toolResult.Some? then
      var r := c.toolResult.value;
      OutMessage("tool", StringContent(FlattenResult(r.content)), [], [],
                 Some(Or(if Truthy(r.toolUseId) then r.toolUseId else r.id, "toolu_0")), None, c.reasoning)
    else
      OutMessage(role, AssembleContent(c.parts, c.passthrough), c.toolCalls, [], None, None, c.reasoning)
  }

  /**
   The attributes are added last. Calls given with a message that has tool uses
   are dropped, also if a tool result keeps the tool uses from being sent.
   */
  function WithExtras(m: OutMessage, converted: seq<ToolCallOut>, x: Extras): OutMessage {
    m.(givenCalls := if converted == [] then x.toolCalls else [],
       toolCallId := if Truthy(x.toolCallId) && m.role != "tool" then x.toolCallId else m.toolCallId,
       name := if Truthy(x.name) then x.name else None)
  }

  /** What the content loop yields for a list of blocks. */
  function ConvertedBlocks(blocks: seq<Block>): Converted {
    Converted(
      Merge(FlatMap(Tokens, blocks)), FlatMap(CallsOf, blocks), FlatMap(UnknownOf, blocks),
      Last(FlatMap(ResultOf, blocks)), Last(FlatMap(ThoughtOf, blocks)))
  }

  function ConvertedContent(content: AnthropicContent): Converted {
    match content
    case TextOnly(s) => Converted([TextPart(s, None)], [], [], None, None)
    case Blocks(blocks) => ConvertedBlocks(blocks)
  }

  function OutboundMessage(role: string, content: AnthropicContent, x: Extras): OutMessage {
    var c := ConvertedContent(content);
    WithExtras(AssembleMessage(role, c), c.toolCalls, x)
  }

  /** One turn of the message loop of `anthropic_to_openai_request`. */
  method ConvertMessage(role: string, content: AnthropicContent, x: Extras) returns (m: OutMessage)
    ensures m == OutboundMessage(role, content, x)
    ensures m.toolCalls == [] || m.givenCalls == []
  {
    hide Merge, Tokens;
    var converted;
    match content {
      case TextOnly(s) =>
        converted := Converted([TextPart(s, None)], [], [], None, None);
      case Blocks(blocks) =>
        converted := ConvertBlocks(blocks);
        assert converted == ConvertedBlocks(blocks);
    }
    m := AssembleMessage(role, converted);
    if x.toolCalls != [] && converted.toolCalls == [] {
      m := m.(givenCalls := x.toolCalls);
    }
    if Truthy(x.toolCallId) && m.role != "tool" {
      m := m.(toolCallId := x.toolCallId);
    }
    if Truthy(x.name) {
      m := m.(name := x.name);
    }
  }

  lemma NoCallsIffNoToolUse(blocks: seq<Block>)
    ensures FlatMap(CallsOf, blocks) == [] <==> !exists b <- blocks :: b.ToolUse?
  {
    hide FlatMap, ConvertToolUse;
    if FlatMap(CallsOf, blocks) == [] {
      NothingInFlatMap(CallsOf, blocks);
    }
    if !exists b <- blocks :: b.ToolUse? {
      FlatMapNothing(CallsOf, blocks);
    }
  }

  /**
   Of a message with tool results only the last one is sent; all other blocks
   are dropped. Calls given with the message are sent beside it unless one of
   the dropped blocks is a tool use.
   */
  lemma OnlyLastToolResultIsSent(role: string, before: seq<Block>, result: ToolResultBlock, after: seq<Block>,
                                 x: Extras)
    requires forall b <- after :: !b.ToolResult?
    ensures var m := OutboundMessage(role, Blocks(before + [ToolResult(result)] + after), x);
            && m.(reasoning := None, givenCalls := x.toolCalls) ==
               OutboundMessage(role, Blocks([ToolResult(result)]), x)
            && m.givenCalls == if exists b <- before + after :: b.ToolUse? then [] else x.toolCalls
  {
    hide Merge, Tokens, FlatMap, ConvertToolUse;
    var block := ToolResult(result);
    FlatMapAppend(ResultOf, before + [block], after);
    FlatMapSnoc(ResultOf, before, block);
    FlatMapNothing(ResultOf, after);
    FlatMapOne(ResultOf, block);
    FlatMapOne(ThoughtOf, block);
    FlatMapOne(CallsOf, block);
    FlatMapAppend(CallsOf, before + [block], after);
    FlatMapSnoc(CallsOf, before, block);
    FlatMapAppend(CallsOf, before, after);
    NoCallsIffNoToolUse(before + after);
  }

  // ---- Inbound ----

  /** `arguments` is absent, a string to be parsed, or already a value. */
  datatype ArgumentsField = NoArguments | ArgumentsString(s: string) | ArgumentsValue(j: Json)

  /** `name` is absent, or given and possibly null. */
  datatype NameField = NoName | GivenName(given: Option<string>)

  datatype RawToolCall = RawToolCall(id: Option<string>, name: NameField, arguments: ArgumentsField)

  /** `content` is `None` for a null or absent content; `choiceCalls` are those beside the message. */
  datatype Response = Response(
    reasoning: Option<string>, content: Option<Content>,
    toolCalls: seq<RawToolCall>, choiceCalls: seq<RawToolCall>)

  datatype ContentBlock =
    | ThinkingOut(thinking: string)
    | TextOut(text: string)
    | ToolUseOut(id: string, name: Option<string>, input: Json)

  function ParsedText(loads: string -> Option<Json>, s: string): Json {
    var parsed := loads(s);
    if parsed.Some? then parsed.value else Obj([Member("_raw", Str(s))])
  }

  function ReadArguments(loads: string -> Option<Json>, field: ArgumentsField): Json {
    match field
    case NoArguments => ParsedText(loads, "{}")
    case ArgumentsString(s) => ParsedText(loads, s)
    case ArgumentsValue(j) => j
  }

  function ToolUseBlockOut(loads: string -> Option<Json>, idx: nat, call: RawToolCall): ContentBlock {
    ToolUseOut(
      Or(call.id, "toolu_" + IntText(idx)),
      if call.name.GivenName? then call.name.given else Some("tool"),
      ReadArguments(loads, call.arguments))
  }

  function ToolUseBlocks(loads: string -> Option<Json>, first: nat, calls: seq<RawToolCall>): seq<ContentBlock>
    decreases |calls|
  {
    if calls == [] then []
    else [ToolUseBlockOut(loads, first, calls[0])] + ToolUseBlocks(loads, first + 1, calls[1..])
  }

  lemma {:induction false} ToolUseBlocksSnoc(loads: string -> Option<Json>, first: nat,
                                             calls: seq<RawToolCall>, call: RawToolCall)
    ensures ToolUseBlocks(loads, first, calls + [call]) ==
            ToolUseBlocks(loads, first, calls) + [ToolUseBlockOut(loads, first + |calls|, call)]
    decreases |calls|
  {
    hide ToolUseBlockOut;
    if calls == [] {
      assert calls + [call] == [call] && [call][1..] == [];
    } else {
      ToolUseBlocksSnoc(loads, first + 1, calls[1..], call);
      assert (calls + [call])[1..] == calls[1..] + [call];
    }
  }

  /** `_extract_tool_calls` */
  function ExtractToolCalls(r: Response): seq<RawToolCall> {
    if r.toolCalls != [] then r.toolCalls else r.choiceCalls
  }

  function TextBlocks(content: Option<Content>): seq<ContentBlock> {
    if content.Some? && NormalizedText(content.value) != "" then [TextOut(NormalizedText(content.value))] else []
  }

  function InboundBlocks(loads: string -> Option<Json>, r: Response): seq<ContentBlock> {
    (if Truthy(r.reasoning) then [ThinkingOut(r.reasoning.value)] else [])
    + TextBlocks(r.content)
    + ToolUseBlocks(loads, 0, ExtractToolCalls(r))
  }

  lemma NoToolUses(loads: string -> Option<Json>, first: nat)
    ensures ToolUseBlocks(loads, first, []) == []
  {
  }

  /** `_build_content_blocks` */
  method BuildContentBlocks(loads: string -> Option<Json>, r: Response) returns (blocks: seq<ContentBlock>)
    ensures blocks == InboundBlocks(loads, r)
  {
    hide ToolUseBlockOut, ToolUseBlocks, NormalizedText;
    NoToolUses(loads, 0);
    blocks := [];
    var calls := ExtractToolCalls(r);
    if Truthy(r.reasoning) {
      blocks := blocks + [ThinkingOut(r.reasoning.value)];
    }
    if r.content.Some? {
      var text := NormalizeTextContent(r.content.value);
      if text != "" {
        blocks := blocks + [TextOut(text)];
      }
    }
    ghost var before := blocks;
    for idx := 0 to |calls|
      invariant blocks == before + ToolUseBlocks(loads, 0, calls[..idx])
    {
      assert calls[..idx + 1] == calls[..idx] + [calls[idx]];
      ToolUseBlocksSnoc(loads, 0, calls[..idx], calls[idx]);
      blocks := blocks + [ToolUseBlockOut(loads, idx, calls[idx])];
    }
    assert calls[..|calls|] == calls;
  }

  // ---- Out and back ----

  function PartItem(p: Part): seq<ContentItem> {
    [DictItem(if p.TextPart? then Some(p.text) else None)]
  }

  /** The content of an outbound message as a response would carry it. */
  function AsContent(content: MessageContent): Content {
    match content
    case StringContent(s) => Plain(s)
    case PartsContent(parts) => Items(FlatMap(PartItem, parts))
  }

  function AsRawCall(call: ToolCallOut): seq<RawToolCall> {
    [RawToolCall(Some(call.id), GivenName(Some(call.name)), ArgumentsString(call.arguments))]
  }

  /** The message as a response to be converted back. */
  function AsResponse(m: OutMessage): Response
    requires m.givenCalls == []
  {
    Response(m.reasoning, Some(AsContent(m.content)), FlatMap(AsRawCall, m.toolCalls), [])
  }

  function PartText(p: Part): string {
    if p.TextPart? then p.text else ""
  }

  function TokenText(t: Token): string {
    match t
    case Piece(s) => s
    case Cut(parts) => FlatMap(PartText, parts)
  }

  /** The text a block contributes to the message. */
  function BlockText(block: Block): string {
    match block
    case TextBlock(text, _) => Or(text, "")
    case Document(title, context, _) => DocumentText(title, context)
    case _ => ""
  }

  lemma {:induction false} PieceTextIsTokenText(ts: seq<Token>)
    requires forall t <- ts :: t.Piece?
    ensures FlatMap(PieceText, ts) == FlatMap(TokenText, ts)
  {
    if ts == [] {
    } else {
      assert ts[0] in ts;
      PieceTextIsTokenText(ts[1..]);
    }
  }

  /** Merging neither loses nor reorders text. */
  lemma {:induction false} MergeKeepsText(ts: seq<Token>)
    ensures FlatMap(PartText, Merge(ts)) == FlatMap(TokenText, ts)
    decreases |ts|
  {
    hide Merge, FlatMap;
    if ts == [] {
      MergeNone();
      FlatMapNone(PartText);
      FlatMapNone(TokenText);
    } else if ts[0].Cut? {
      MergeKeepsText(ts[1..]);
      MergeCut(ts);
      FlatMapAppend(PartText, ts[0].parts, Merge(ts[1..]));
      assert ts == [ts[0]] + ts[1..];
      FlatMapCons(TokenText, ts[0], ts[1..]);
    } else {
      var n := RunLength(ts);
      MergeKeepsText(ts[n..]);
      MergePiece(ts, n);
      PieceTextIsTokenText(ts[..n]);
      FlatMapCons(PartText, TextPart(FlatMap(PieceText, ts[..n]), None), Merge(ts[n..]));
      assert ts == ts[..n] + ts[n..];
      FlatMapAppend(TokenText, ts[..n], ts[n..]);
    }
  }

  lemma BlockTokensText(block: Block)
    ensures FlatMap(TokenText, Tokens(block)) == BlockText(block)
  {
    hide DocumentText, ConvertImage;
    var ts := Tokens(block);
    if ts != [] {
      FlatMapOne(TokenText, ts[0]);
      if ts[0].Cut? && ts[0].parts != [] {
        FlatMapOne(PartText, ts[0].parts[0]);
      }
    }
  }

  lemma {:induction false} TokensText(blocks: seq<Block>)
    ensures FlatMap(TokenText, FlatMap(Tokens, blocks)) == FlatMap(BlockText, blocks)
  {
    hide Tokens, BlockText;
    if blocks == [] {
    } else {
      TokensText(blocks[1..]);
      BlockTokensText(blocks[0]);
      FlatMapAppend(TokenText, Tokens(blocks[0]), FlatMap(Tokens, blocks[1..]));
    }
  }

  /** The parts of a message hold the text of its blocks, in order and once. */
  lemma PartsKeepText(blocks: seq<Block>)
    ensures FlatMap(PartText, Merge(FlatMap(Tokens, blocks))) == FlatMap(BlockText, blocks)
  {
    hide Tokens, BlockText, Merge, FlatMap;
    MergeKeepsText(FlatMap(Tokens, blocks));
    TokensText(blocks);
  }

  lemma {:induction false} ItemsText(parts: seq<Part>)
    ensures FlatMap(ItemText, FlatMap(PartItem, parts)) == FlatMap(PartText, parts)
  {
    if parts == [] {
    } else {
      ItemsText(parts[1..]);
      FlatMapCons(ItemText, PartItem(parts[0])[0], FlatMap(PartItem, parts[1..]));
    }
  }

  lemma AssembledText(parts: seq<Part>)
    ensures NormalizedText(AsContent(AssembleContent(parts, []))) == FlatMap(PartText, parts)
  {
    if |parts| == 1 {
      assert parts == [parts[0]];
      FlatMapOne(PartText, parts[0]);
    }
    ItemsText(parts);
  }

  // ---- Tool input ----

  /** A tool input that can be told apart after the trip: an object, array, number or boolean. */
  predicate Survives(input: Json) {
    !input.Null? && !input.Str?
  }

  lemma EmptyObjectDumps(j: Json)
    requires j == Obj([])
    ensures Dumps(j, PLAIN) == "{}"
  {
  }

  lemma EmptyObjectText(loads: string -> Option<Json>, reprs: NumText -> bool)
    requires IsReader(loads, reprs)
    ensures loads("{}") == Some(Obj([]))
  {
    EmptyObjectDumps(Obj([]));
    assert loads(Dumps(Obj([]), PLAIN)) == Some(Obj([]));
  }

  /**
   A tool's input comes back unchanged if and only if it is neither null nor a
   string: null turns into an empty object, and a string is read as JSON text.
   */
  lemma InputRoundTrip(loads: string -> Option<Json>, reprs: NumText -> bool, input: Json)
    requires IsReader(loads, reprs) && Held(input, reprs)
    ensures ReadArguments(loads, ArgumentsString(ArgumentsText(Some(input)))) == input <==> Survives(input)
  {
    hide Dumps, Held;
    EmptyObjectText(loads, reprs);
    if input.Str? {
      assert loads(input.s) != Some(Str(input.s));
    } else if !input.Null? {
      assert loads(Dumps(input, PLAIN)) == Some(input);
    }
  }

  // ---- The message round trip ----

  /** Text, or a tool use with an id, a name and an input that survives. */
  predicate Ordinary(block: Block) {
    || block.TextBlock?
    || (&& block.ToolUse?
        && Truthy(block.use.id) && Truthy(block.use.name)
        && block.use.input.Some? && Survives(block.use.input.value))
  }

  /** A tool input is a value Python can hold. */
  predicate InputIsHeld(block: Block, reprs: NumText -> bool) {
    block.ToolUse? && block.use.input.Some? ==> Held(block.use.input.value, reprs)
  }

  /** A tool use block as it comes back. */
  function ToolUsesOf(block: Block): seq<ContentBlock> {
    if Ordinary(block) && block.ToolUse?
    then [ToolUseOut(block.use.id.value, block.use.name, block.use.input.value)]
    else []
  }

  lemma ToolUseComesBack(loads: string -> Option<Json>, reprs: NumText -> bool, idx: nat, use: ToolUseBlock)
    requires IsReader(loads, reprs) && Ordinary(ToolUse(use)) && InputIsHeld(ToolUse(use), reprs)
    ensures ToolUseBlockOut(loads, idx, AsRawCall(ConvertToolUse(use))[0]) ==
            ToolUseOut(use.id.value, use.name, use.input.value)
  {
    hide IsReader, Held, ReadArguments, ArgumentsText;
    InputRoundTrip(loads, reprs, use.input.value);
  }

  lemma OneRawCall(call: ToolCallOut)
    ensures |AsRawCall(call)| == 1
  {
  }

  lemma {:induction false} ToolUsesComeBack(loads: string -> Option<Json>, reprs: NumText -> bool,
                                               first: nat, blocks: seq<Block>)
    requires IsReader(loads, reprs) && forall b <- blocks :: Ordinary(b) && InputIsHeld(b, reprs)
    ensures ToolUseBlocks(loads, first, FlatMap(AsRawCall, FlatMap(CallsOf, blocks))) == FlatMap(ToolUsesOf, blocks)
    decreases |blocks|
  {
    hide IsReader, Ordinary, InputIsHeld, ConvertToolUse, ToolUseBlockOut, AsRawCall;
    if blocks == [] {
    } else {
      var block, rest := blocks[0], blocks[1..];
      assert block in blocks;
      FlatMapAppend(AsRawCall, CallsOf(block), FlatMap(CallsOf, rest));
      if block.ToolUse? {
        ToolUseComesBack(loads, reprs, first, block.use);
        ToolUsesComeBack(loads, reprs, first + 1, rest);
        FlatMapOne(AsRawCall, ConvertToolUse(block.use));
        OneRawCall(ConvertToolUse(block.use));
        var raw := AsRawCall(ConvertToolUse(block.use));
        var more := FlatMap(AsRawCall, FlatMap(CallsOf, rest));
        assert (raw + more)[1..] == more;
      } else {
        ToolUsesComeBack(loads, reprs, first, rest);
        FlatMapNone(AsRawCall);
        assert [] + FlatMap(AsRawCall, FlatMap(CallsOf, rest)) == FlatMap(AsRawCall, FlatMap(CallsOf, rest));
      }
    }
  }

  lemma {:induction false} OrdinaryBlocksAreConverted(blocks: seq<Block>)
    requires forall b <- blocks :: Ordinary(b)
    ensures FlatMap(ResultOf, blocks) == [] && FlatMap(UnknownOf, blocks) == [] && FlatMap(ThoughtOf, blocks) == []
  {
    if blocks == [] {
    } else {
      assert blocks[0] in blocks;
      OrdinaryBlocksAreConverted(blocks[1..]);
    }
  }

  /**
   Out and back: an assistant message of text and tool uses returns as one text
   block with all its text (none if there is no text), then every tool use with
   its id, name and input, in order.
   */
  lemma MessageRoundTrip(loads: string -> Option<Json>, reprs: NumText -> bool,
                         role: string, blocks: seq<Block>, x: Extras)
    requires IsReader(loads, reprs) && forall b <- blocks :: Ordinary(b) && InputIsHeld(b, reprs)
    requires x.toolCalls == [] || exists b <- blocks :: b.ToolUse?
    ensures var m, text := OutboundMessage(role, Blocks(blocks), x), FlatMap(BlockText, blocks);
            && m.givenCalls == []
            && InboundBlocks(loads, AsResponse(m)) ==
               (if text == "" then [] else [TextOut(text)]) + FlatMap(ToolUsesOf, blocks)
  {
    hide IsReader, Ordinary, InputIsHeld, Merge, Tokens, BlockText, NormalizedText, AsContent, FlatMap, ToolUseBlocks;
    NoCallsIffNoToolUse(blocks);
    OrdinaryBlocksAreConverted(blocks);
    PartsKeepText(blocks);
    AssembledText(Merge(FlatMap(Tokens, blocks)));
    ToolUsesComeBack(loads, reprs, 0, blocks);
  }
}
