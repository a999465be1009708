/**
 The content of one Anthropic message on its way to OpenAI form: a loop with a
 text accumulator that is flushed at every block that is not plain text.
 */
module RequestContent {
  import opened Sequences
  import opened Text
  import opened Json
  import opened StreamTranslator

  // ---- Blocks ----

  datatype ImageSource =
    | NoSource
    | Base64(mediaType: Option<string>, data: string)
    | Url(url: string)
    | OtherSource

  /** `name` and `functionName` are the two places the tool's name is looked for. */
  datatype ToolUseBlock = ToolUseBlock(
    id: Option<string>, name: Option<string>, functionName: Option<string>, input: Option<Json>)

  /** The content of a tool result; `repr` is what `str` gives. */
  datatype ResultContent =
    | NoResult
    | ResultText(s: string)
    | ResultItems(items: seq<ContentItem>)
    | ResultOther(repr: string)

  datatype ToolResultBlock = ToolResultBlock(toolUseId: Option<string>, id: Option<string>, content: ResultContent)

  /** `cache` is the block's `cache_control`; a text that is not a string is `None`. */
  datatype Block =
    | TextBlock(text: Option<string>, cache: Option<Json>)
    | ToolUse(use: ToolUseBlock)
    | Thinking(thinking: Option<string>)
    | ToolResult(result: ToolResultBlock)
    | Image(source: ImageSource, cache: Option<Json>)
    | Document(title: Option<string>, context: Option<string>, cache: Option<Json>)
    | Unknown(block: Json)

  datatype Part = TextPart(text: string, cache: Option<Json>) | ImagePart(url: string, cache: Option<Json>)

  datatype ToolCallOut = ToolCallOut(id: string, name: string, arguments: string)

  /** `_convert_anthropic_image_to_openai` */
  function ConvertImage(source: ImageSource): Option<string> {
    match source
    case Base64(mediaType, data) =>
      if data == "" then None
      else Some("data:" + (if mediaType.Some? then mediaType.value else "image/jpeg") + ";base64," + data)
    case Url(url) => if url == "" then None else Some(url)
    case _ => None
  }

  function ArgumentsText(input: Option<Json>): string {
    if input.None? || input.value.Null? then "{}"
    else if input.value.Str? then Or(Some(input.value.s), "{}")
    else Dumps(input.value, PLAIN)
  }

  /** `_convert_tool_use_block` */
  function ConvertToolUse(use: ToolUseBlock): ToolCallOut {
    ToolCallOut(
      Or(use.id, "toolu_0"),
      Or(if Truthy(use.name) then use.name else use.functionName, "tool"),
      ArgumentsText(use.input))
  }

  function DocumentText(title: Option<string>, context: Option<string>): string {
    "[Document: " + (if title.Some? then title.value else "untitled") + "]"
    + (if Truthy(context) then "\nContext: " + context.value else "")
  }

  // ---- What the loop has to compute ----

  /** A block adds to the running text, or cuts it and adds parts of its own. */
  datatype Token = Piece(s: string) | Cut(parts: seq<Part>)

  function Tokens(block: Block): seq<Token> {
    match block
    case TextBlock(text, cache) =>
      if !Truthy(text) then []
      else if cache.Some? then [Cut([TextPart(text.value, cache)])]
      else [Piece(text.value)]
    case Image(source, cache) =>
      var url := ConvertImage(source);
      [Cut(if url.Some? then [ImagePart(url.value, cache)] else [])]
    case Document(title, context, cache) =>
      if cache.Some? then [Cut([TextPart(DocumentText(title, context), cache)])]
      else [Piece(DocumentText(title, context))]
    case _ => [Cut([])]
  }

  /** The length of the run of pieces the tokens begin with. */
  function RunLength(ts: seq<Token>): (n: nat)
    ensures n <= |ts|
    ensures forall i | 0 <= i < n :: ts[i].Piece?
    ensures n < |ts| ==> ts[n].Cut?
  {
    if ts != [] && ts[0].Piece? then 1 + RunLength(ts[1..]) else 0
  }

  function PieceText(t: Token): string {
    if t.Piece? then t.s else ""
  }

  /** Each maximal run of pieces becomes one text part; cuts contribute their own parts. */
  function Merge(ts: seq<Token>): seq<Part>
    decreases |ts|
  {
    if ts == [] then []
    else if ts[0].Cut? then ts[0].parts + Merge(ts[1..])
    else
      var n := RunLength(ts);
      [TextPart(FlatMap(PieceText, ts[..n]), None)] + Merge(ts[n..])
  }

  function CallsOf(block: Block): seq<ToolCallOut> {
    if block.ToolUse? then [ConvertToolUse(block.use)] else []
  }

  function UnknownOf(block: Block): seq<Json> {
    if block.Unknown? then [block.block] else []
  }

  function ResultOf(block: Block): seq<ToolResultBlock> {
    if block.ToolResult? then [block.result] else []
  }

  function ThoughtOf(block: Block): seq<string> {
    if block.Thinking? && Truthy(block.thinking) then [block.thinking.value] else []
  }

  function Last<T>(xs: seq<T>): Option<T> {
    if xs == [] then None else Some(xs[|xs| - 1])
  }

  // ---- Merging token by token ----

  predicate EndsWithCut(ts: seq<Token>) {
    ts == [] || ts[|ts| - 1].Cut?
  }

  lemma {:induction false} RunLengthWithin(a: seq<Token>, b: seq<Token>)
    requires a != [] && EndsWithCut(a)
    ensures RunLength(a + b) == RunLength(a) < |a|
  {
    if a[0].Piece? {
      RunLengthWithin(a[1..], b);
      assert (a + b)[1..] == a[1..] + b;
    }
  }

  lemma MergeNone()
    ensures Merge([]) == []
  {
  }

  lemma MergeCut(ts: seq<Token>)
    requires ts != [] && ts[0].Cut?
    ensures Merge(ts) == ts[0].parts + Merge(ts[1..])
  {
  }

  lemma MergePiece(ts: seq<Token>, n: nat)
    requires ts != [] && ts[0].Piece? && n == RunLength(ts)
    ensures Merge(ts) == [TextPart(FlatMap(PieceText, ts[..n]), None)] + Merge(ts[n..])
  {
  }

  lemma {:induction false} MergeAfterCut(a: seq<Token>, b: seq<Token>)
    requires EndsWithCut(a)
    ensures Merge(a + b) == Merge(a) + Merge(b)
    decreases |a|
  {
    hide Merge, RunLength, FlatMap;
    if a == [] {
      assert a + b == b;
      MergeNone();
    } else if a[0].Cut? {
      MergeAfterCut(a[1..], b);
      assert (a + b)[1..] == a[1..] + b;
      MergeCut(a);
      MergeCut(a + b);
    } else {
      var n := RunLength(a);
      RunLengthWithin(a, b);
      MergeAfterCut(a[n..], b);
      assert (a + b)[..n] == a[..n] && (a + b)[n..] == a[n..] + b;
      MergePiece(a, n);
      MergePiece(a + b, n);
    }
  }

  function AsPieces(acc: seq<string>): (ts: seq<Token>)
    ensures |ts| == |acc| && forall i | 0 <= i < |acc| :: ts[i] == Piece(acc[i])
  {
    seq(|acc|, i requires 0 <= i < |acc| => Piece(acc[i]))
  }

  /** `_flush_text_accumulator` */
  function Flushed(acc: seq<string>): seq<Part> {
    if acc == [] then [] else [TextPart(Concat(acc), None)]
  }

  lemma {:induction false} PiecesText(acc: seq<string>)
    ensures FlatMap(PieceText, AsPieces(acc)) == Concat(acc)
  {
    if acc == [] {
    } else {
      assert AsPieces(acc)[1..] == AsPieces(acc[1..]);
      PiecesText(acc[1..]);
    }
  }

  lemma {:induction false} RunOfPieces(acc: seq<string>)
    ensures RunLength(AsPieces(acc)) == |acc|
  {
    if acc == [] {
    } else {
      assert AsPieces(acc)[1..] == AsPieces(acc[1..]);
      RunOfPieces(acc[1..]);
    }
  }

  lemma MergePieces(acc: seq<string>)
    ensures Merge(AsPieces(acc)) == Flushed(acc)
  {
    RunOfPieces(acc);
    PiecesText(acc);
    assert AsPieces(acc)[..|acc|] == AsPieces(acc);
    assert AsPieces(acc)[|acc|..] == [];
  }

  /** What the loop has built after reading `ts`: finished parts, and the run still open. */
  ghost predicate Accumulated(ts: seq<Token>, done: seq<Token>, parts: seq<Part>, acc: seq<string>) {
    ts == done + AsPieces(acc) && EndsWithCut(done) && parts == Merge(done)
  }

  lemma AccumulatePiece(ts: seq<Token>, done: seq<Token>, parts: seq<Part>, acc: seq<string>, s: string)
    requires Accumulated(ts, done, parts, acc)
    ensures Accumulated(ts + [Piece(s)], done, parts, acc + [s])
  {
    assert AsPieces(acc + [s]) == AsPieces(acc) + [Piece(s)];
  }

  lemma {:induction false} RunLengthStops(ps: seq<Token>, cut: Token)
    requires cut.Cut? && forall p <- ps :: p.Piece?
    ensures RunLength(ps + [cut]) == |ps|
  {
    if ps == [] {
    } else {
      assert ps[0] in ps;
      RunLengthStops(ps[1..], cut);
      assert (ps + [cut])[1..] == ps[1..] + [cut];
    }
  }

  lemma MergeRun(acc: seq<string>, more: seq<Part>)
    ensures Merge(AsPieces(acc) + [Cut(more)]) == Flushed(acc) + more
  {
    var cut := [Cut(more)];
    var run := AsPieces(acc) + cut;
    assert cut[1..] == [];
    MergeCut(cut);
    assert Merge(cut) == more + [] == more;
    if acc == [] {
      assert run == cut;
    } else {
      RunLengthStops(AsPieces(acc), Cut(more));
      PiecesText(acc);
      assert run[..|acc|] == AsPieces(acc) && run[|acc|..] == cut;
      MergePiece(run, |acc|);
    }
  }

  lemma AccumulateCut(ts: seq<Token>, done: seq<Token>, parts: seq<Part>, acc: seq<string>, more: seq<Part>)
    requires Accumulated(ts, done, parts, acc)
    ensures Accumulated(ts + [Cut(more)], ts + [Cut(more)], parts + Flushed(acc) + more, [])
  {
    hide Merge, Flushed;
    var run := AsPieces(acc) + [Cut(more)];
    assert ts + [Cut(more)] == done + run;
    MergeAfterCut(done, run);
    assert Merge(run) == Flushed(acc) + more by {
      MergeRun(acc, more);
    }
    assert AsPieces([]) == [];
  }

  lemma AccumulateEnd(ts: seq<Token>, done: seq<Token>, parts: seq<Part>, acc: seq<string>)
    requires Accumulated(ts, done, parts, acc)
    ensures parts + Flushed(acc) == Merge(ts)
  {
    MergeAfterCut(done, AsPieces(acc));
    MergePieces(acc);
  }

  lemma TruthyIsSome(s: Option<string>)
    requires Truthy(s)
    ensures s.Some?
  {
  }

  /** The lists the loop changes in place. */
  class ContentBuilder {
    var accumulator: seq<string>
    var contentParts: seq<Part>
    ghost var read: seq<Token>
    ghost var done: seq<Token>

    ghost predicate Valid()
      reads this
    {
      Accumulated(read, done, contentParts, accumulator)
    }

    constructor ()
      ensures Valid() && read == []
    {
      accumulator, contentParts, read, done := [], [], [], [];
    }

    method AddPiece(s: string)
      requires Valid()
      modifies this
      ensures Valid() && read == old(read) + [Piece(s)]
    {
      AccumulatePiece(read, done, contentParts, accumulator, s);
      accumulator := accumulator + [s];
      read := read + [Piece(s)];
    }

    /** Flushes the accumulator, then adds the parts of a block that cuts the text. */
    method FlushAndAdd(parts: seq<Part>)
      requires Valid()
      modifies this
      ensures Valid() && read == old(read) + [Cut(parts)]
    {
      AccumulateCut(read, done, contentParts, accumulator, parts);
      if accumulator != [] {
        contentParts := contentParts + [TextPart(Concat(accumulator), None)];
        accumulator := [];
      }
      contentParts := contentParts + parts;
      read := read + [Cut(parts)];
      done := read;
    }

    method AddBlock(block: Block)
      requires Valid()
      modifies this
      ensures Valid() && read == old(read) + Tokens(block)
    {
      hide Accumulated, Truthy, DocumentText;
      match block
      case TextBlock(text, cache) =>
        if Truthy(text) {
          TruthyIsSome(text);
          if cache.Some? {
            FlushAndAdd([TextPart(text.value, cache)]);
          } else {
            AddPiece(text.value);
          }
        }
      case Image(source, cache) =>
        var url := ConvertImage(source);
        FlushAndAdd(if url.Some? then [ImagePart(url.value, cache)] else []);
      case Document(title, context, cache) =>
        var text := DocumentText(title, context);
        if cache.Some? {
          FlushAndAdd([TextPart(text, cache)]);
        } else {
          AddPiece(text);
        }
      case _ =>
        FlushAndAdd([]);
    }

    method Finish() returns (parts: seq<Part>)
      requires Valid()
      modifies this
      ensures parts == Merge(old(read))
    {
      AccumulateEnd(read, done, contentParts, accumulator);
      parts := contentParts + (if accumulator != [] then [TextPart(Concat(accumulator), None)] else []);
    }
  }

  datatype Converted = Converted(
    parts: seq<Part>, toolCalls: seq<ToolCallOut>, passthrough: seq<Json>,
    toolResult: Option<ToolResultBlock>, reasoning: Option<string>)

  /** The content loop of `anthropic_to_openai_request`. */
  method ConvertBlocks(content: seq<Block>) returns (r: Converted)
    ensures r.parts == Merge(FlatMap(Tokens, content))
    ensures r.toolCalls == FlatMap(CallsOf, content)
    ensures r.passthrough == FlatMap(UnknownOf, content)
    ensures r.toolResult == Last(FlatMap(ResultOf, content))
    ensures r.reasoning == Last(FlatMap(ThoughtOf, content))
  {
    hide Tokens, ConvertToolUse, Merge, FlatMap;
    FlatMapNone(Tokens);
    FlatMapNone(CallsOf);
    FlatMapNone(UnknownOf);
    FlatMapNone(ResultOf);
    FlatMapNone(ThoughtOf);
    assert content[..0] == [];
    var builder := new ContentBuilder();
    var toolCalls, passthrough := [], [];
    var toolResult, reasoning := None, None;
    for i := 0 to |content|
      invariant fresh(builder) && builder.Valid() && builder.read == FlatMap(Tokens, content[..i])
      invariant toolCalls == FlatMap(CallsOf, content[..i])
      invariant passthrough == FlatMap(UnknownOf, content[..i])
      invariant toolResult == Last(FlatMap(ResultOf, content[..i]))
      invariant reasoning == Last(FlatMap(ThoughtOf, content[..i]))
    {
      var block := content[i];
      assert content[..i + 1] == content[..i] + [block];
      FlatMapSnoc(Tokens, content[..i], block);
      FlatMapSnoc(CallsOf, content[..i], block);
      FlatMapSnoc(UnknownOf, content[..i], block);
      FlatMapSnoc(ResultOf, content[..i], block);
      FlatMapSnoc(ThoughtOf, content[..i], block);
      builder.AddBlock(block);
      match block
      case ToolUse(use) => toolCalls := toolCalls + [ConvertToolUse(use)];
      case Thinking(thinking) =>
        if Truthy(thinking) {
          reasoning := Some(thinking.value);
        }
      case ToolResult(result) => toolResult := Some(result);
      case Unknown(json) => passthrough := passthrough + [json];
      case _ =>
    }
    assert content[..|content|] == content;
    var parts := builder.Finish();
    r := Converted(parts, toolCalls, passthrough, toolResult, reasoning);
  }
}
