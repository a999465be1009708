/**
 `openai_stream_to_anthropic_stream` as the source runs it: fields updated in
 place, a buffer fed chunk by chunk, a final flush, and an early return at the
 first payload that ends the stream.
 */
module StreamDriver {
  import opened Sequences
  import opened Text
  import opened Json
  import opened SseFramer
  import opened StreamTranslator

  /** `_normalize_text_content` */
  method NormalizeTextContent(content: Content) returns (r: string)
    ensures r == NormalizedText(content)
  {
    match content
    case Items(items) =>
      var textChunks := "";
      for i := 0 to |items|
        invariant textChunks == FlatMap(ItemText, items[..i])
      {
        assert items[..i + 1] == items[..i] + [items[i]];
        FlatMapSnoc(ItemText, items[..i], items[i]);
        match items[i]
        case StringItem(s) => textChunks := textChunks + s;
        case DictItem(text) =>
          if text.Some? {
            textChunks := textChunks + text.value;
          }
        case OtherItem =>
      }
      assert items[..|items|] == items;
      r := textChunks;
    case _ =>
      r := NormalizedText(content);
  }

  lemma {:induction false} CallsSnoc(active: int, calls: seq<ToolCall>, call: ToolCall)
    ensures ActiveAfterCalls(active, calls + [call]) == ActiveAfterCall(ActiveAfterCalls(active, calls), call)
    ensures CallsEvents(active, calls + [call]) ==
            CallsEvents(active, calls) + CallEvents(ActiveAfterCalls(active, calls), call)
    decreases |calls|
  {
    hide CallEvents, ActiveAfterCall;
    if calls == [] {
      assert calls + [call] == [call] && [call][1..] == [];
    } else {
      CallsSnoc(ActiveAfterCall(active, calls[0]), calls[1..], call);
      assert (calls + [call])[1..] == calls[1..] + [call];
    }
  }

  lemma FrameOfEmpty(ctx: Context)
    ensures Frame("") == Framing([], "") && Inputs(ctx, Payloads([])) == []
  {
  }

  lemma RunSnoc(ctx: Context, st: State, inputs: seq<Input>, input: Input)
    ensures Run(ctx, st, inputs + [input]) ==
            Then(Run(ctx, st, inputs), StepInput(ctx, Run(ctx, st, inputs).state, input))
  {
    hide StepInput;
    RunAppend(ctx, st, inputs, [input]);
    assert [input][1..] == [];
  }

  function TextRun(ctx: Context, text: string): Step {
    Run(ctx, INITIAL, Inputs(ctx, Payloads(Frame(text).blocks)))
  }

  lemma RunInTwoSteps(ctx: Context, a: string, b: string)
    ensures TextRun(ctx, a + b) ==
            Then(TextRun(ctx, a),
                 Run(ctx, TextRun(ctx, a).state, Inputs(ctx, Payloads(Frame(Frame(a).rest + b).blocks))))
  {
    InputsInTwoSteps(ctx, a, b);
    RunAppend(ctx, INITIAL, Inputs(ctx, Payloads(Frame(a).blocks)),
              Inputs(ctx, Payloads(Frame(Frame(a).rest + b).blocks)));
  }

  /** Text after the end of the stream is never looked at. */
  lemma RunStaysDone(ctx: Context, a: string, b: string)
    requires TextRun(ctx, a).Done()
    ensures Conversion(ctx, a + b) == TextRun(ctx, a).events
    ensures Raises(ctx, a + b) == TextRun(ctx, a).status.Raised?
  {
    assert a + b + "\n\n" == a + (b + "\n\n");
    RunInTwoSteps(ctx, a, b + "\n\n");
  }

  class Translator {
    const ctx: Context
    var messageStarted: bool
    var finishReasonSent: bool
    var activeToolCallIndex: int
    var buffer: string

    constructor (ctx: Context)
      ensures this.ctx == ctx && Current() == INITIAL && buffer == ""
    {
      this.ctx := ctx;
      messageStarted, finishReasonSent, activeToolCallIndex, buffer := false, false, NONE, "";
    }

    function Current(): State
      reads this
    {
      State(messageStarted, finishReasonSent, activeToolCallIndex)
    }

    method TranslateToolCall(call: ToolCall) returns (events: seq<Event>)
      modifies `activeToolCallIndex
      ensures activeToolCallIndex == ActiveAfterCall(old(activeToolCallIndex), call)
      ensures events == CallEvents(old(activeToolCallIndex), call)
    {
      events := [];
      var index := call.index;
      if Truthy(call.id) {
        var idx: int;
        if index.Given? && index.value.Some? {
          idx := index.value.value;
        } else {
          idx := if activeToolCallIndex != NONE then activeToolCallIndex + 1 else 0;
          index := Given(Some(idx));
        }
        if activeToolCallIndex != NONE {
          events := events + [BlockStop(activeToolCallIndex)];
        }
        activeToolCallIndex := idx;
        events := events + [BlockStart(activeToolCallIndex, call.id.value, call.name)];
      }
      if call.arguments.Some? {
        events := events + [ArgsDelta(if index.Missing? then Some(0) else index.value, call.arguments.value)];
      }
    }

    method TranslateToolCalls(calls: seq<ToolCall>) returns (events: seq<Event>)
      modifies `activeToolCallIndex
      ensures activeToolCallIndex == ActiveAfterCalls(old(activeToolCallIndex), calls)
      ensures events == CallsEvents(old(activeToolCallIndex), calls)
    {
      events := [];
      for i := 0 to |calls|
        invariant activeToolCallIndex == ActiveAfterCalls(old(activeToolCallIndex), calls[..i])
        invariant events == CallsEvents(old(activeToolCallIndex), calls[..i])
      {
        assert calls[..i + 1] == calls[..i] + [calls[i]];
        CallsSnoc(old(activeToolCallIndex), calls[..i], calls[i]);
        var more := TranslateToolCall(calls[i]);
        events := events + more;
      }
      assert calls[..|calls|] == calls;
    }

    /** Ends the open tool block, if there is one. */
    method CloseBlock() returns (events: seq<Event>)
      modifies `activeToolCallIndex
      ensures activeToolCallIndex == NONE && events == Close(old(activeToolCallIndex))
    {
      events := [];
      if activeToolCallIndex != NONE {
        events := [BlockStop(activeToolCallIndex)];
        activeToolCallIndex := NONE;
      }
    }

    method TranslateContent(content: Content) returns (events: seq<Event>)
      modifies `activeToolCallIndex
      ensures activeToolCallIndex == if HasContent(content) then NONE else old(activeToolCallIndex)
      ensures events == ContentEvents(old(activeToolCallIndex), content)
    {
      events := [];
      if HasContent(content) {
        events := CloseBlock();
        var text := NormalizeTextContent(content);
        events := events + [TextDelta(text)];
      }
    }

    method TranslateFinish(reason: Option<string>) returns (events: seq<Event>)
      modifies `activeToolCallIndex, `finishReasonSent
      ensures activeToolCallIndex == if Truthy(reason) then NONE else old(activeToolCallIndex)
      ensures finishReasonSent == (old(finishReasonSent) || Truthy(reason))
      ensures events == FinishEvents(old(activeToolCallIndex), reason)
    {
      events := [];
      if Truthy(reason) {
        events := CloseBlock();
        events := events + [FinishDelta(MapFinishReason(reason.value))];
        finishReasonSent := true;
      }
    }

    method TranslateChoice(chunk: Chunk) returns (events: seq<Event>)
      requires chunk.choices != []
      modifies `messageStarted, `finishReasonSent, `activeToolCallIndex
      ensures Step(Current(), events, Going) == StepChoice(ctx, old(Current()), chunk)
    {
      hide CallsEvents, ContentEvents, FinishEvents;
      var choice := chunk.choices[0];
      events := [];
      if !messageStarted && Truthy(choice.delta.role) {
        events := [MessageStart(if chunk.id.Some? then chunk.id.value else Str(ctx.sessionId), ctx.model)];
        messageStarted := true;
      }
      var more := TranslateToolCalls(choice.delta.toolCalls);
      events := events + more;
      more := TranslateContent(choice.delta.content);
      events := events + more;
      more := TranslateFinish(choice.finishReason);
      events := events + more;
    }

    /** `_translate_payload` */
    method TranslatePayload(payload: string) returns (status: Status, events: seq<Event>)
      modifies `messageStarted, `finishReasonSent, `activeToolCallIndex
      ensures Step(Current(), events, status) == StepInput(ctx, old(Current()), Interpret(ctx, payload))
    {
      if payload == "" {
        return Going, [];
      }
      var stripped := Strip(payload);
      if stripped == "[DONE]" {
        events := CloseBlock();
        if !finishReasonSent {
          events := events + [EndTurnDelta];
          finishReasonSent := true;
        }
        return Finished, events + [MessageStop];
      }
      var parsed := ctx.loads(stripped);
      if parsed.NotJson? {
        return Going, [];
      }
      if parsed.Unexpected? {
        return Raised, [];
      }
      var chunk := parsed.chunk;
      if chunk.error.Some? {
        return Finished, [ConvertError(chunk.error.value)];
      }
      if chunk.choices == [] {
        return Going, UsageEvents(chunk.usage);
      }
      events := TranslateChoice(chunk);
      status := Going;
    }

    /** The payload loop of the driver, with its early return. */
    method TranslatePayloads(payloads: seq<string>) returns (status: Status, events: seq<Event>)
      modifies `messageStarted, `finishReasonSent, `activeToolCallIndex
      ensures Step(Current(), events, status) == Run(ctx, old(Current()), Inputs(ctx, payloads))
    {
      hide StepInput, Interpret;
      ghost var start := Current();
      status, events := Going, [];
      for i := 0 to |payloads|
        invariant status == Going
        invariant Step(Current(), events, Going) == Run(ctx, start, Inputs(ctx, payloads[..i]))
      {
        ghost var input := Interpret(ctx, payloads[i]);
        assert payloads[..i + 1] == payloads[..i] + [payloads[i]];
        FlatMapSnoc(Reading(ctx), payloads[..i], payloads[i]);
        RunSnoc(ctx, start, Inputs(ctx, payloads[..i]), input);
        var more;
        status, more := TranslatePayload(payloads[i]);
        events := events + more;
        if status != Going {
          ghost var rest := payloads[i + 1..];
          assert payloads == payloads[..i + 1] + rest;
          FlatMapAppend(Reading(ctx), payloads[..i + 1], rest);
          RunAppend(ctx, start, Inputs(ctx, payloads[..i + 1]), Inputs(ctx, rest));
          return;
        }
      }
      assert payloads[..|payloads|] == payloads;
    }

    /** One turn of the `async for` loop. */
    method Feed(chunk: string, ghost text: string) returns (status: Status, events: seq<Event>)
      requires buffer == Frame(text).rest
      modifies this
      ensures buffer == Frame(text + Normalize(chunk)).rest
      ensures Step(Current(), events, status) ==
              Run(ctx, old(Current()), Inputs(ctx, Payloads(Frame(Frame(text).rest + Normalize(chunk)).blocks)))
    {
      FrameInTwoSteps(text, Normalize(chunk));
      var payloads;
      buffer, payloads := ConsumeSseBuffer(buffer + Normalize(chunk));
      status, events := TranslatePayloads(payloads);
    }

    /** The whole generator: whatever the cuts, the events of the text in one piece. */
    method Convert(chunks: seq<string>) returns (out: seq<Event>, raised: bool)
      requires Current() == INITIAL && buffer == ""
      modifies this
      ensures out == Conversion(ctx, NormalizeAll(chunks))
      ensures raised == Raises(ctx, NormalizeAll(chunks))
    {
      hide StepInput, Interpret, Frame, Payloads;
      out := [];
      assert Frame("") == Framing([], "") && Inputs(ctx, Payloads([])) == [] by {
        FrameOfEmpty(ctx);
      }
      for i := 0 to |chunks|
        invariant buffer == Frame(NormalizeAll(chunks[..i])).rest
        invariant Step(Current(), out, Going) ==
                  Run(ctx, INITIAL, Inputs(ctx, Payloads(Frame(NormalizeAll(chunks[..i])).blocks)))
      {
        ghost var text := NormalizeAll(chunks[..i]);
        assert chunks[..i + 1] == chunks[..i] + [chunks[i]];
        FlatMapSnoc(Normalize, chunks[..i], chunks[i]);
        RunInTwoSteps(ctx, text, Normalize(chunks[i]));
        var status, events := Feed(chunks[i], text);
        out := out + events;
        if status != Going {
          assert chunks == chunks[..i + 1] + chunks[i + 1..];
          FlatMapAppend(Normalize, chunks[..i + 1], chunks[i + 1..]);
          RunStaysDone(ctx, NormalizeAll(chunks[..i + 1]), NormalizeAll(chunks[i + 1..]));
          raised := status == Raised;
          return;
        }
      }
      assert chunks[..|chunks|] == chunks;
      ghost var text := NormalizeAll(chunks);
      RunInTwoSteps(ctx, text, "\n\n");
      StripEmpty(buffer);
      if Strip(buffer) != "" {
        var payloads;
        buffer, payloads := ConsumeSseBuffer(buffer + "\n\n");
        var status, events := TranslatePayloads(payloads);
        out := out + events;
        if status != Going {
          raised := status == Raised;
          return;
        }
      } else {
        BlankRestHasNoPayload(buffer);
        assert out + [] == out;
      }
      out, raised := out + [MessageStop], false;
    }
  }

  /**
   Chunking invariance: two ways of cutting the same text, neither of them
   inside a CR LF pair, are converted to the same events.
   */
  lemma CutsDoNotMatter(ctx: Context, a: seq<string>, b: seq<string>)
    requires Concat(a) == Concat(b)
    requires CutsKeepCrLf(a) && CutsKeepCrLf(b)
    ensures Conversion(ctx, NormalizeAll(a)) == Conversion(ctx, NormalizeAll(b))
            == Conversion(ctx, Normalize(Concat(a)))
    ensures Raises(ctx, NormalizeAll(a)) == Raises(ctx, NormalizeAll(b)) == Raises(ctx, Normalize(Concat(a)))
  {
    NormalizeChunkwise(a);
    NormalizeChunkwise(b);
  }
}
