/**
 The shape of every conversion, projections of its events, and what they show
 first: no text and no usage is lost, added or reordered.
 */
module StreamProperties {
  import opened Sequences
  import opened Text
  import opened Json
  import opened StreamTranslator

  // ---- The part of the input that is processed ----

  /** The inputs that end a stream or break it off. */
  predicate Ends(input: Input) {
    input.Done? || input.Malformed? || (input.Received? && input.chunk.error.Some?)
  }

  /** The inputs before the first that ends the stream. */
  function Before(inputs: seq<Input>): (r: seq<Input>)
    ensures forall i <- r :: !Ends(i)
  {
    if inputs == [] || Ends(inputs[0]) then [] else [inputs[0]] + Before(inputs[1..])
  }

  /** The first input that ends the stream, if there is one. */
  function Ending(inputs: seq<Input>): (r: Option<Input>)
    ensures r.Some? ==> Ends(r.value)
  {
    if inputs == [] then None
    else if Ends(inputs[0]) then Some(inputs[0])
    else Ending(inputs[1..])
  }

  predicate HasChoice(input: Input) {
    input.Received? && !Ends(input) && input.chunk.choices != []
  }

  /** The processed inputs of a text. */
  function Processed(ctx: Context, text: string): seq<Input> {
    Before(TextInputs(ctx, text))
  }

  /** The events that follow the last processed input. */
  function Tail(ctx: Context, st: State, ending: Option<Input>): seq<Event> {
    if ending.Some? then StepInput(ctx, st, ending.value).events else [MessageStop]
  }

  lemma EndsIffDone(ctx: Context, st: State, input: Input)
    ensures StepInput(ctx, st, input).Done() == Ends(input)
  {
  }

  lemma RunFirst(ctx: Context, st: State, inputs: seq<Input>)
    requires inputs != []
    ensures Run(ctx, st, inputs) ==
            Then(StepInput(ctx, st, inputs[0]), Run(ctx, StepInput(ctx, st, inputs[0]).state, inputs[1..]))
  {
    hide StepInput;
  }

  lemma RunNone(ctx: Context, st: State)
    ensures Run(ctx, st, []) == Step(st, [], Going)
  {
  }

  lemma {:induction false} RunOfBody(ctx: Context, st: State, inputs: seq<Input>)
    ensures var body := Run(ctx, st, Before(inputs));
            !body.Done() && Run(ctx, st, inputs) ==
            if Ending(inputs).None? then body else Then(body, StepInput(ctx, body.state, Ending(inputs).value))
    decreases |inputs|
  {
    hide StepInput, Ends, Run;
    RunNone(ctx, st);
    if inputs == [] {
    } else {
      var first := inputs[0];
      EndsIffDone(ctx, st, first);
      RunFirst(ctx, st, inputs);
      if Ends(first) {
        var step := StepInput(ctx, st, first);
        assert [] + step.events == step.events;
      } else {
        RunOfBody(ctx, StepInput(ctx, st, first).state, inputs[1..]);
        assert Before(inputs)[1..] == Before(inputs[1..]);
        RunFirst(ctx, st, Before(inputs));
      }
    }
  }

  /** Every conversion is the run of its body followed by one closing step. */
  lemma ConversionShape(ctx: Context, text: string)
    ensures var body := Run(ctx, INITIAL, Processed(ctx, text));
            Conversion(ctx, text) == body.events + Tail(ctx, body.state, Ending(TextInputs(ctx, text)))
  {
    hide StepInput, Ends, Run, TextInputs;
    var inputs := TextInputs(ctx, text);
    RunOfBody(ctx, INITIAL, inputs);
    if Ending(inputs).Some? {
      EndsIffDone(ctx, Run(ctx, INITIAL, Before(inputs)).state, Ending(inputs).value);
    }
  }

  // ---- Projections of whole runs ----

  /**
   If a projection of the events of every step is a function of the input alone,
   the projection of a whole run is that function over its inputs.
   */
  lemma {:induction false} RunProjects<T>(ctx: Context, st: State, inputs: seq<Input>,
                                          ofEvent: Event -> seq<T>, ofInput: Input -> seq<T>)
    requires forall i <- inputs :: !Ends(i)
    requires forall s: State, i: Input | !Ends(i) ::
               FlatMap(ofEvent, StepInput(ctx, s, i).events) == ofInput(i)
    ensures FlatMap(ofEvent, Run(ctx, st, inputs).events) == FlatMap(ofInput, inputs)
    decreases |inputs|
  {
    hide StepInput, Ends;
    if inputs == [] {
    } else {
      var first := StepInput(ctx, st, inputs[0]);
      assert inputs[0] in inputs;
      EndsIffDone(ctx, st, inputs[0]);
      RunProjects(ctx, first.state, inputs[1..], ofEvent, ofInput);
      FlatMapAppend(ofEvent, first.events, Run(ctx, first.state, inputs[1..]).events);
    }
  }

  /** The projection of a conversion, from those of its steps. */
  lemma ConversionProjects<T>(ctx: Context, text: string, ofEvent: Event -> seq<T>, ofInput: Input -> seq<T>)
    requires forall s: State, i: Input | !Ends(i) ::
               FlatMap(ofEvent, StepInput(ctx, s, i).events) == ofInput(i)
    ensures FlatMap(ofEvent, Conversion(ctx, text)) ==
            FlatMap(ofInput, Processed(ctx, text))
            + FlatMap(ofEvent, Tail(ctx, Run(ctx, INITIAL, Processed(ctx, text)).state, Ending(TextInputs(ctx, text))))
  {
    hide StepInput, Ends, Tail, Run, TextInputs;
    var body := Run(ctx, INITIAL, Processed(ctx, text));
    ConversionShape(ctx, text);
    RunProjects(ctx, INITIAL, Processed(ctx, text), ofEvent, ofInput);
    FlatMapAppend(ofEvent, body.events, Tail(ctx, body.state, Ending(TextInputs(ctx, text))));
  }

  /** A projection that sees none of the events of tool blocks. */
  ghost predicate IgnoresTools<T>(ofEvent: Event -> seq<T>) {
    forall e: Event | e.BlockStart? || e.BlockStop? || e.ArgsDelta? :: ofEvent(e) == []
  }

  lemma {:induction false} CallsIgnored<T>(active: int, calls: seq<ToolCall>, ofEvent: Event -> seq<T>)
    requires IgnoresTools(ofEvent)
    ensures FlatMap(ofEvent, CallsEvents(active, calls)) == []
    decreases |calls|
  {
    if calls == [] {
    } else {
      var next := ActiveAfterCall(active, calls[0]);
      CallsIgnored(next, calls[1..], ofEvent);
      FlatMapAppend(ofEvent, CallEvents(active, calls[0]), CallsEvents(next, calls[1..]));
      FlatMapNothing(ofEvent, CallEvents(active, calls[0]));
    }
  }

  lemma ClosedIgnored<T>(active: int, e: Event, ofEvent: Event -> seq<T>)
    requires IgnoresTools(ofEvent)
    ensures FlatMap(ofEvent, Close(active) + [e]) == ofEvent(e)
  {
    FlatMapSnoc(ofEvent, Close(active), e);
    FlatMapNothing(ofEvent, Close(active));
  }

  /** The four parts of the events of a chunk with a choice, projected one by one. */
  lemma ChoiceProjects<T>(ctx: Context, st: State, chunk: Chunk, ofEvent: Event -> seq<T>)
    requires chunk.choices != []
    ensures
      var choice := chunk.choices[0];
      var afterCalls := ActiveAfterCalls(st.active, choice.delta.toolCalls);
      var afterContent := if HasContent(choice.delta.content) then NONE else afterCalls;
      FlatMap(ofEvent, StepChoice(ctx, st, chunk).events) ==
      FlatMap(ofEvent, StartEvents(ctx, st.messageStarted, chunk))
      + FlatMap(ofEvent, CallsEvents(st.active, choice.delta.toolCalls))
      + FlatMap(ofEvent, ContentEvents(afterCalls, choice.delta.content))
      + FlatMap(ofEvent, FinishEvents(afterContent, choice.finishReason))
  {
    hide StartEvents, CallsEvents, ContentEvents, FinishEvents, FlatMap;
    var choice := chunk.choices[0];
    var afterCalls := ActiveAfterCalls(st.active, choice.delta.toolCalls);
    var afterContent := if HasContent(choice.delta.content) then NONE else afterCalls;
    var a, b := StartEvents(ctx, st.messageStarted, chunk), CallsEvents(st.active, choice.delta.toolCalls);
    var c, d := ContentEvents(afterCalls, choice.delta.content), FinishEvents(afterContent, choice.finishReason);
    FlatMapAppend(ofEvent, a, b);
    FlatMapAppend(ofEvent, a + b, c);
    FlatMapAppend(ofEvent, a + b + c, d);
  }

  function TextPart<T>(content: Content, ofEvent: Event -> seq<T>): seq<T> {
    if HasContent(content) then ofEvent(TextDelta(NormalizedText(content))) else []
  }

  function FinishPart<T>(reason: Option<string>, ofEvent: Event -> seq<T>): seq<T> {
    if Truthy(reason) then ofEvent(FinishDelta(MapFinishReason(reason.value))) else []
  }

  lemma ContentOutsideTools<T>(active: int, content: Content, ofEvent: Event -> seq<T>)
    requires IgnoresTools(ofEvent)
    ensures FlatMap(ofEvent, ContentEvents(active, content)) == TextPart(content, ofEvent)
  {
    hide NormalizedText, HasContent, IgnoresTools;
    ClosedIgnored(active, TextDelta(NormalizedText(content)), ofEvent);
  }

  lemma FinishOutsideTools<T>(active: int, reason: Option<string>, ofEvent: Event -> seq<T>)
    requires IgnoresTools(ofEvent)
    ensures FlatMap(ofEvent, FinishEvents(active, reason)) == FinishPart(reason, ofEvent)
  {
    hide MapFinishReason, IgnoresTools;
    if Truthy(reason) {
      ClosedIgnored(active, FinishDelta(MapFinishReason(reason.value)), ofEvent);
    }
  }

  lemma ChoiceOutsideTools<T>(ctx: Context, st: State, chunk: Chunk, ofEvent: Event -> seq<T>)
    requires chunk.choices != [] && IgnoresTools(ofEvent)
    ensures FlatMap(ofEvent, StepChoice(ctx, st, chunk).events) ==
            FlatMap(ofEvent, StartEvents(ctx, st.messageStarted, chunk))
            + TextPart(chunk.choices[0].delta.content, ofEvent)
            + FinishPart(chunk.choices[0].finishReason, ofEvent)
  {
    hide StepChoice, StartEvents, CallsEvents, ContentEvents, FinishEvents, IgnoresTools, FlatMap;
    var choice := chunk.choices[0];
    var afterCalls := ActiveAfterCalls(st.active, choice.delta.toolCalls);
    var afterContent := if HasContent(choice.delta.content) then NONE else afterCalls;
    ChoiceProjects(ctx, st, chunk, ofEvent);
    CallsIgnored(st.active, choice.delta.toolCalls, ofEvent);
    ContentOutsideTools(afterCalls, choice.delta.content, ofEvent);
    FinishOutsideTools(afterContent, choice.finishReason, ofEvent);
  }

  /** A projection that sees neither the header nor the events of tool blocks. */
  ghost predicate InsideBody<T>(ofEvent: Event -> seq<T>) {
    IgnoresTools(ofEvent) && forall e: Event | e.MessageStart? :: ofEvent(e) == []
  }

  /** What such a projection sees of one step: text and finish reason of a choice, or usage. */
  function StepPart<T>(input: Input, ofEvent: Event -> seq<T>): seq<T> {
    if HasChoice(input) then
      TextPart(input.chunk.choices[0].delta.content, ofEvent) + FinishPart(input.chunk.choices[0].finishReason, ofEvent)
    else if input.Received? then FlatMap(ofEvent, UsageEvents(input.chunk.usage))
    else []
  }

  lemma HeaderOutsideBody<T>(ctx: Context, started: bool, chunk: Chunk, ofEvent: Event -> seq<T>)
    requires chunk.choices != [] && InsideBody(ofEvent)
    ensures FlatMap(ofEvent, StartEvents(ctx, started, chunk)) == []
  {
    FlatMapNothing(ofEvent, StartEvents(ctx, started, chunk));
  }

  lemma StepInsideBody<T>(ctx: Context, st: State, input: Input, ofEvent: Event -> seq<T>)
    requires !Ends(input) && InsideBody(ofEvent)
    ensures FlatMap(ofEvent, StepInput(ctx, st, input).events) == StepPart(input, ofEvent)
  {
    hide UsageEvents, TextPart, FinishPart;
    if HasChoice(input) {
      hide StepChoice, StartEvents, FlatMap;
      ChoiceOutsideTools(ctx, st, input.chunk, ofEvent);
      HeaderOutsideBody(ctx, st.messageStarted, input.chunk, ofEvent);
    }
  }

  /** A projection that sees nothing of the closing step. */
  ghost predicate IgnoresTail<T>(ofEvent: Event -> seq<T>) {
    forall e: Event | e.BlockStop? || e.EndTurnDelta? || e.MessageStop? || e.ErrorEvent? :: ofEvent(e) == []
  }

  lemma TailIgnored<T>(ctx: Context, st: State, ending: Option<Input>, ofEvent: Event -> seq<T>)
    requires ending.Some? ==> Ends(ending.value)
    requires IgnoresTail(ofEvent)
    ensures FlatMap(ofEvent, Tail(ctx, st, ending)) == []
  {
    FlatMapNothing(ofEvent, Tail(ctx, st, ending));
  }

  // ---- Text ----

  function EventText(e: Event): string {
    if e.TextDelta? then e.text else ""
  }

  function InputText(input: Input): string {
    if HasChoice(input) then NormalizedText(input.chunk.choices[0].delta.content) else ""
  }

  lemma NoContentNoText(content: Content)
    ensures !HasContent(content) ==> NormalizedText(content) == ""
  {
  }

  lemma StepText(ctx: Context, st: State, input: Input)
    requires !Ends(input)
    ensures FlatMap(EventText, StepInput(ctx, st, input).events) == InputText(input)
  {
    hide NormalizedText, HasContent, MapFinishReason, StepInput;
    StepInsideBody(ctx, st, input, EventText);
    if HasChoice(input) {
      NoContentNoText(input.chunk.choices[0].delta.content);
    } else if input.Received? {
      FlatMapNothing(EventText, UsageEvents(input.chunk.usage));
    }
  }

  /** The emitted text is the normalised text of the processed chunks, in order. */
  lemma TextConserved(ctx: Context, text: string)
    ensures FlatMap(EventText, Conversion(ctx, text)) == FlatMap(InputText, Processed(ctx, text))
  {
    hide StepInput, Ends, InputText, Run, TextInputs;
    forall s: State, i: Input | !Ends(i)
      ensures FlatMap(EventText, StepInput(ctx, s, i).events) == InputText(i)
    {
      StepText(ctx, s, i);
    }
    ConversionProjects(ctx, text, EventText, InputText);
    TailIgnored(ctx, Run(ctx, INITIAL, Processed(ctx, text)).state, Ending(TextInputs(ctx, text)), EventText);
  }

  // ---- Usage ----

  function EventUsage(e: Event): seq<(Json, Json)> {
    if e.UsageDelta? then [(e.inputTokens, e.outputTokens)] else []
  }

  /** Prompt and completion tokens of a chunk without choices, 0 for what is absent. */
  function InputUsage(input: Input): seq<(Json, Json)> {
    if input.Received? && input.chunk.choices == [] && input.chunk.usage.Some?
    then
      var u := input.chunk.usage.value;
      [(Zero(u.promptTokens), Zero(u.completionTokens))]
    else []
  }

  lemma StepUsage(ctx: Context, st: State, input: Input)
    requires !Ends(input)
    ensures FlatMap(EventUsage, StepInput(ctx, st, input).events) == InputUsage(input)
  {
    hide NormalizedText, HasContent, MapFinishReason, StepInput;
    StepInsideBody(ctx, st, input, EventUsage);
    if input.Received? && input.chunk.usage.Some? {
      FlatMapOne(EventUsage, UsageEvents(input.chunk.usage)[0]);
    }
  }

  /** Usage is reported once per processed usage chunk, prompt as input, completion as output. */
  lemma UsageConserved(ctx: Context, text: string)
    ensures FlatMap(EventUsage, Conversion(ctx, text)) == FlatMap(InputUsage, Processed(ctx, text))
  {
    hide StepInput, Ends, InputUsage, Run, TextInputs;
    forall s: State, i: Input | !Ends(i)
      ensures FlatMap(EventUsage, StepInput(ctx, s, i).events) == InputUsage(i)
    {
      StepUsage(ctx, s, i);
    }
    ConversionProjects(ctx, text, EventUsage, InputUsage);
    TailIgnored(ctx, Run(ctx, INITIAL, Processed(ctx, text)).state, Ending(TextInputs(ctx, text)), EventUsage);
  }
}
