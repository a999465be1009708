/**
 The stateful half of `openai_stream_to_anthropic_stream`: every payload the
 framer yields becomes a list of Anthropic events, under three pieces of state.
 */
module StreamTranslator {
  import opened Sequences
  import opened Text
  import opened Json
  import opened SseFramer

  // ---- What arrives: parsed OpenAI chunks ----

  /** `Missing` is an absent key; `Given(None)` is an explicit JSON null. */
  datatype IndexField = Missing | Given(value: Option<int>)

  datatype ToolCall = ToolCall(id: Option<string>, index: IndexField, name: Option<string>, arguments: Option<string>)

  datatype ContentItem = StringItem(s: string) | DictItem(text: Option<string>) | OtherItem

  /** `NoContent` covers an absent, null or falsy value; `repr` is what `str` gives. */
  datatype Content =
    | NoContent
    | Plain(s: string)
    | Items(items: seq<ContentItem>)
    | Dict(text: Option<string>, repr: string)
    | Scalar(repr: string)

  datatype Delta = Delta(role: Option<string>, toolCalls: seq<ToolCall>, content: Content)

  datatype Choice = Choice(delta: Delta, finishReason: Option<string>)

  /** The members of an error object after `str`; null and falsy members are `None`. */
  datatype ErrorInfo = ErrorInfo(message: Option<string>, kind: Option<string>, code: Option<string>)

  datatype UsageInfo = UsageInfo(promptTokens: Option<Json>, completionTokens: Option<Json>)

  datatype Chunk = Chunk(id: Option<Json>, error: Option<ErrorInfo>, usage: Option<UsageInfo>, choices: seq<Choice>)

  // ---- What leaves: Anthropic events ----

  datatype Event =
    | MessageStart(messageId: Json, model: string)
    | BlockStart(index: int, id: string, name: Option<string>)
    | ArgsDelta(at: Option<int>, partialJson: string)
    | TextDelta(text: string)
    | BlockStop(index: int)
    | FinishDelta(reason: string)
    | EndTurnDelta
    | UsageDelta(inputTokens: Json, outputTokens: Json)
    | MessageStop
    | ErrorEvent(kind: string, message: string)

  // ---- One payload ----

  /** No tool block is open. */
  const NONE := -1

  function ItemText(item: ContentItem): string {
    match item
    case StringItem(s) => s
    case DictItem(text) => if text.Some? then text.value else ""
    case OtherItem => ""
  }

  function NormalizedText(content: Content): string {
    match content
    case NoContent => ""
    case Plain(s) => s
    case Items(items) => FlatMap(ItemText, items)
    case Dict(text, repr) => if text.Some? then text.value else repr
    case Scalar(repr) => repr
  }

  predicate HasContent(content: Content) {
    match content
    case NoContent => false
    case Plain(s) => s != ""
    case Items(items) => items != []
    case _ => true
  }

  const FINISH_REASONS: map<string, string> := map[
    "stop" := "end_turn",
    "length" := "max_tokens",
    "content_filter" := "stop_sequence",
    "function_call" := "tool_use",
    "tool_calls" := "tool_use"
  ]

  function MapFinishReason(reason: string): string {
    if reason in FINISH_REASONS then FINISH_REASONS[reason] else reason
  }

  function ConvertError(e: ErrorInfo): Event {
    ErrorEvent(
      Or(if Truthy(e.kind) then e.kind else e.code, "api_error"),
      Or(e.message, "Upstream request failed."))
  }

  function Close(active: int): seq<Event> {
    if active != NONE then [BlockStop(active)] else []
  }

  predicate Opens(call: ToolCall) {
    Truthy(call.id)
  }

  /** The block index an id-bearing call gets: its own, or the next one in sequence. */
  function StartIndex(active: int, call: ToolCall): int {
    if call.index.Given? && call.index.value.Some? then call.index.value.value
    else if active != NONE then active + 1
    else 0
  }

  /** The block index an argument fragment is sent under. */
  function FragmentIndex(active: int, call: ToolCall): Option<int> {
    if Opens(call) then Some(StartIndex(active, call))
    else if call.index.Missing? then Some(0)
    else call.index.value
  }

  function ActiveAfterCall(active: int, call: ToolCall): int {
    if Opens(call) then StartIndex(active, call) else active
  }

  function ActiveAfterCalls(active: int, calls: seq<ToolCall>): int
    decreases |calls|
  {
    if calls == [] then active else ActiveAfterCalls(ActiveAfterCall(active, calls[0]), calls[1..])
  }

  function OpeningEvents(active: int, call: ToolCall): seq<Event> {
    if Opens(call)
    then Close(active) + [BlockStart(StartIndex(active, call), call.id.value, call.name)]
    else []
  }

  function FragmentEvents(active: int, call: ToolCall): seq<Event> {
    if call.arguments.Some? then [ArgsDelta(FragmentIndex(active, call), call.arguments.value)] else []
  }

  function CallEvents(active: int, call: ToolCall): seq<Event> {
    OpeningEvents(active, call) + FragmentEvents(active, call)
  }

  function CallsEvents(active: int, calls: seq<ToolCall>): seq<Event>
    decreases |calls|
  {
    if calls == [] then []
    else CallEvents(active, calls[0]) + CallsEvents(ActiveAfterCall(active, calls[0]), calls[1..])
  }

  datatype State = State(messageStarted: bool, finishReasonSent: bool, active: int)

  const INITIAL := State(false, false, NONE)

  /** What `json.loads` makes of a payload: no JSON, JSON the translator raises an exception on, or a chunk. */
  datatype Loaded = NotJson | Unexpected | Loaded(chunk: Chunk)

  /** The fixed parameters of one conversion. */
  datatype Context = Context(model: string, sessionId: string, loads: string -> Loaded)

  /** Whether the stream goes on, was ended, or was broken off by an exception. */
  datatype Status = Going | Finished | Raised

  datatype Step = Step(state: State, events: seq<Event>, status: Status) {
    predicate Done() {
      !status.Going?
    }
  }

  function StartEvents(ctx: Context, started: bool, chunk: Chunk): seq<Event>
    requires chunk.choices != []
  {
    if !started && Truthy(chunk.choices[0].delta.role)
    then [MessageStart(if chunk.id.Some? then chunk.id.value else Str(ctx.sessionId), ctx.model)]
    else []
  }

  function ContentEvents(active: int, content: Content): seq<Event> {
    if HasContent(content) then Close(active) + [TextDelta(NormalizedText(content))] else []
  }

  function FinishEvents(active: int, reason: Option<string>): seq<Event> {
    if Truthy(reason) then Close(active) + [FinishDelta(MapFinishReason(reason.value))] else []
  }

  function StepChoice(ctx: Context, st: State, chunk: Chunk): Step
    requires chunk.choices != []
  {
    var choice := chunk.choices[0];
    var afterCalls := ActiveAfterCalls(st.active, choice.delta.toolCalls);
    var afterContent := if HasContent(choice.delta.content) then NONE else afterCalls;
    var finished := Truthy(choice.finishReason);
    Step(
      State(
        st.messageStarted || Truthy(choice.delta.role),
        st.finishReasonSent || finished,
        if finished then NONE else afterContent),
      StartEvents(ctx, st.messageStarted, chunk)
      + CallsEvents(st.active, choice.delta.toolCalls)
      + ContentEvents(afterCalls, choice.delta.content)
      + FinishEvents(afterContent, choice.finishReason),
      Going)
  }

  function Zero(tokens: Option<Json>): Json {
    if tokens.Some? then tokens.value else Num("0")
  }

  function UsageEvents(usage: Option<UsageInfo>): seq<Event> {
    if usage.Some? then [UsageDelta(Zero(usage.value.promptTokens), Zero(usage.value.completionTokens))] else []
  }

  function StepChunk(ctx: Context, st: State, chunk: Chunk): Step {
    if chunk.error.Some? then Step(st, [ConvertError(chunk.error.value)], Finished)
    else if chunk.choices == [] then Step(st, UsageEvents(chunk.usage), Going)
    else StepChoice(ctx, st, chunk)
  }

  function StepDone(st: State): Step {
    Step(
      State(st.messageStarted, true, NONE),
      Close(st.active) + (if st.finishReasonSent then [] else [EndTurnDelta]) + [MessageStop],
      Finished)
  }

  /** What a payload string is: the end marker, something to skip, something malformed, or a chunk. */
  datatype Input = Done | Skipped | Malformed | Received(chunk: Chunk)

  function Interpret(ctx: Context, payload: string): Input {
    if payload == "" then Skipped
    else if Strip(payload) == "[DONE]" then Done
    else
      match ctx.loads(Strip(payload))
      case NotJson => Skipped
      case Unexpected => Malformed
      case Loaded(chunk) => Received(chunk)
  }

  /** The end marker is recognised with any white space around it. */
  lemma DoneWithPadding(ctx: Context, a: string, b: string)
    requires IsBlank(a) && IsBlank(b)
    ensures Interpret(ctx, a + "[DONE]" + b) == Done
  {
    assert !IsSpace('[') && !IsSpace(']');
    hide IsSpace, IsBlank;
    StripPadding(a, "[DONE]", b);
  }

  function StepInput(ctx: Context, st: State, input: Input): Step {
    match input
    case Done => StepDone(st)
    case Skipped => Step(st, [], Going)
    case Malformed => Step(st, [], Raised)
    case Received(chunk) => StepChunk(ctx, st, chunk)
  }

  // ---- Whole runs ----

  /** Inputs in order, up to and including the first that ends the stream or raises. */
  function Run(ctx: Context, st: State, inputs: seq<Input>): Step
    decreases |inputs|
  {
    if inputs == [] then Step(st, [], Going)
    else
      var first := StepInput(ctx, st, inputs[0]);
      if first.Done() then first
      else
        var rest := Run(ctx, first.state, inputs[1..]);
        Step(rest.state, first.events + rest.events, rest.status)
  }

  function Reading(ctx: Context): string -> seq<Input> {
    payload => [Interpret(ctx, payload)]
  }

  function Inputs(ctx: Context, payloads: seq<string>): seq<Input> {
    FlatMap(Reading(ctx), payloads)
  }

  /** The inputs of a whole text, its end closing the last block. */
  function TextInputs(ctx: Context, text: string): seq<Input> {
    Inputs(ctx, Payloads(Frame(text + "\n\n").blocks))
  }

  /** The events a stream with this text is converted to, framed in one piece. */
  function Conversion(ctx: Context, text: string): seq<Event> {
    var run := Run(ctx, INITIAL, TextInputs(ctx, text));
    if run.Done() then run.events else run.events + [MessageStop]
  }

  /** Whether the conversion is broken off by an exception. */
  predicate Raises(ctx: Context, text: string) {
    Run(ctx, INITIAL, TextInputs(ctx, text)).status.Raised?
  }

  function Then(a: Step, b: Step): Step {
    if a.Done() then a else Step(b.state, a.events + b.events, b.status)
  }

  lemma {:induction false} RunAppend(ctx: Context, st: State, a: seq<Input>, b: seq<Input>)
    ensures Run(ctx, st, a + b) == Then(Run(ctx, st, a), Run(ctx, Run(ctx, st, a).state, b))
    decreases |a|
  {
    hide StepInput;
    if a == [] {
      assert a + b == b;
    } else {
      assert (a + b)[1..] == a[1..] + b;
      RunAppend(ctx, StepInput(ctx, st, a[0]).state, a[1..], b);
    }
  }

  lemma BlankClosed(rest: string)
    requires IsBlank(rest)
    ensures IsBlank(rest + "\n\n")
  {
    assert IsSpace('\n');
  }

  lemma {:induction false} BlockInText(blocks: seq<string>, rest: string, i: nat)
    requires i < |blocks|
    requires IsBlank(Glue(blocks) + rest)
    ensures IsBlank(blocks[i])
  {
    hide IsSpace;
    var s := Glue(blocks) + rest;
    var tail := Glue(blocks[1..]) + rest;
    assert blocks == [blocks[0]] + blocks[1..];
    GlueCons(blocks[0], blocks[1..]);
    assert s == blocks[0] + ("\n\n" + tail);
    if i == 0 {
      assert forall k | 0 <= k < |blocks[0]| :: blocks[0][k] == s[k];
    } else {
      assert forall k | 0 <= k < |tail| :: tail[k] == s[|blocks[0]| + 2 + k];
      BlockInText(blocks[1..], rest, i - 1);
    }
  }

  lemma {:induction false} NoPayloads(blocks: seq<string>)
    requires forall b <- blocks :: IsBlank(b)
    ensures Payloads(blocks) == []
  {
    hide IsBlank, Lines, DataValues;
    if blocks == [] {
    } else {
      NoPayloads(blocks[1..]);
      assert blocks[0] in blocks;
    }
  }

  /** A leftover of white space alone has no payload to flush. */
  lemma BlankRestHasNoPayload(rest: string)
    requires IsBlank(rest)
    ensures Payloads(Frame(rest + "\n\n").blocks) == []
  {
    hide Lines, DataValues, IsSpace;
    BlankClosed(rest);
    FrameIsAFraming(rest + "\n\n");
    var f := Frame(rest + "\n\n");
    forall b | b in f.blocks
      ensures IsBlank(b)
    {
      var i :| 0 <= i < |f.blocks| && f.blocks[i] == b;
      BlockInText(f.blocks, f.rest, i);
    }
    NoPayloads(f.blocks);
  }

  /** The inputs a prefix of the text yields, then those of its leftover. */
  lemma InputsInTwoSteps(ctx: Context, a: string, b: string)
    ensures Inputs(ctx, Payloads(Frame(a + b).blocks)) ==
            Inputs(ctx, Payloads(Frame(a).blocks)) + Inputs(ctx, Payloads(Frame(Frame(a).rest + b).blocks))
  {
    FrameInTwoSteps(a, b);
    var p, q := Frame(a).blocks, Frame(Frame(a).rest + b).blocks;
    FlatMapAppend(Payload, p, q);
    FlatMapAppend(Reading(ctx), Payloads(p), Payloads(q));
  }
}
