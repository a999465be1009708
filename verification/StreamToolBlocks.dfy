/**
 Tool calls over whole conversions: every call and every argument fragment
 comes out once and in order, under the index the translator resolves it to.
 */
module StreamToolBlocks {
  import opened Sequences
  import opened Text
  import opened StreamTranslator
  import opened StreamProperties

  // ---- Calls and the block that is open when they arrive ----

  datatype Placed = Placed(active: int, call: ToolCall)

  function PlacedInCalls(active: int, calls: seq<ToolCall>): seq<Placed>
    decreases |calls|
  {
    if calls == [] then []
    else [Placed(active, calls[0])] + PlacedInCalls(ActiveAfterCall(active, calls[0]), calls[1..])
  }

  function InputCalls(input: Input): seq<ToolCall> {
    if HasChoice(input) then input.chunk.choices[0].delta.toolCalls else []
  }

  /** Text and a finish reason both close the open block. */
  predicate ClosesBlock(input: Input) {
    HasChoice(input)
    && (HasContent(input.chunk.choices[0].delta.content) || Truthy(input.chunk.choices[0].finishReason))
  }

  function ActiveAfterInput(active: int, input: Input): int {
    if ClosesBlock(input) then NONE else ActiveAfterCalls(active, InputCalls(input))
  }

  /** All tool calls of the inputs, each with the block open before it. */
  function PlacedCalls(active: int, inputs: seq<Input>): seq<Placed>
    decreases |inputs|
  {
    if inputs == [] then []
    else PlacedInCalls(active, InputCalls(inputs[0])) + PlacedCalls(ActiveAfterInput(active, inputs[0]), inputs[1..])
  }

  function CallOf(p: Placed): seq<ToolCall> {
    [p.call]
  }

  lemma {:induction false} PlacedInCallsAreCalls(active: int, calls: seq<ToolCall>)
    ensures FlatMap(CallOf, PlacedInCalls(active, calls)) == calls
    decreases |calls|
  {
    if calls == [] {
    } else {
      var next := ActiveAfterCall(active, calls[0]);
      PlacedInCallsAreCalls(next, calls[1..]);
      FlatMapCons(CallOf, Placed(active, calls[0]), PlacedInCalls(next, calls[1..]));
    }
  }

  /** Placing adds, drops and reorders no call. */
  lemma {:induction false} PlacedCallsAreCalls(active: int, inputs: seq<Input>)
    ensures FlatMap(CallOf, PlacedCalls(active, inputs)) == FlatMap(InputCalls, inputs)
    decreases |inputs|
  {
    hide InputCalls, ActiveAfterInput;
    if inputs == [] {
    } else {
      var next := ActiveAfterInput(active, inputs[0]);
      PlacedInCallsAreCalls(active, InputCalls(inputs[0]));
      PlacedCallsAreCalls(next, inputs[1..]);
      FlatMapAppend(CallOf, PlacedInCalls(active, InputCalls(inputs[0])), PlacedCalls(next, inputs[1..]));
    }
  }

  // ---- Conservation ----

  /** A projection of starts and argument deltas alone. */
  ghost predicate ToolsOnly<T>(ofEvent: Event -> seq<T>) {
    forall e: Event | !e.BlockStart? && !e.ArgsDelta? :: ofEvent(e) == []
  }

  /** The projection of what one call emits depends on the call and the open block. */
  ghost predicate FollowsCalls<T>(ofEvent: Event -> seq<T>, ofPlaced: Placed -> seq<T>) {
    forall p: Placed :: FlatMap(ofEvent, CallEvents(p.active, p.call)) == ofPlaced(p)
  }

  lemma {:induction false} CallsPlaced<T>(active: int, calls: seq<ToolCall>,
                                          ofEvent: Event -> seq<T>, ofPlaced: Placed -> seq<T>)
    requires FollowsCalls(ofEvent, ofPlaced)
    ensures FlatMap(ofEvent, CallsEvents(active, calls)) == FlatMap(ofPlaced, PlacedInCalls(active, calls))
    decreases |calls|
  {
    hide CallEvents, ActiveAfterCall;
    if calls == [] {
    } else {
      var p := Placed(active, calls[0]);
      var next := ActiveAfterCall(active, calls[0]);
      CallsPlaced(next, calls[1..], ofEvent, ofPlaced);
      FlatMapAppend(ofEvent, CallEvents(p.active, p.call), CallsEvents(next, calls[1..]));
      FlatMapCons(ofPlaced, p, PlacedInCalls(next, calls[1..]));
    }
  }

  lemma ActiveStep(ctx: Context, st: State, input: Input)
    requires !Ends(input)
    ensures StepInput(ctx, st, input).state.active == ActiveAfterInput(st.active, input)
  {
  }

  lemma StartHasNoTools<T>(ctx: Context, started: bool, chunk: Chunk, ofEvent: Event -> seq<T>)
    requires chunk.choices != [] && ToolsOnly(ofEvent)
    ensures FlatMap(ofEvent, StartEvents(ctx, started, chunk)) == []
  {
    FlatMapNothing(ofEvent, StartEvents(ctx, started, chunk));
  }

  lemma ContentHasNoTools<T>(active: int, content: Content, ofEvent: Event -> seq<T>)
    requires ToolsOnly(ofEvent)
    ensures FlatMap(ofEvent, ContentEvents(active, content)) == []
  {
    hide NormalizedText, HasContent;
    FlatMapNothing(ofEvent, ContentEvents(active, content));
  }

  lemma FinishHasNoTools<T>(active: int, reason: Option<string>, ofEvent: Event -> seq<T>)
    requires ToolsOnly(ofEvent)
    ensures FlatMap(ofEvent, FinishEvents(active, reason)) == []
  {
    hide MapFinishReason;
    FlatMapNothing(ofEvent, FinishEvents(active, reason));
  }

  lemma ChoicePlaced<T>(ctx: Context, st: State, chunk: Chunk, ofEvent: Event -> seq<T>, ofPlaced: Placed -> seq<T>)
    requires chunk.choices != []
    requires ToolsOnly(ofEvent) && FollowsCalls(ofEvent, ofPlaced)
    ensures FlatMap(ofEvent, StepChoice(ctx, st, chunk).events) ==
            FlatMap(ofPlaced, PlacedInCalls(st.active, chunk.choices[0].delta.toolCalls))
  {
    hide StepChoice, CallsEvents, FollowsCalls, ToolsOnly, StartEvents, ContentEvents, FinishEvents;
    var choice := chunk.choices[0];
    var afterCalls := ActiveAfterCalls(st.active, choice.delta.toolCalls);
    var afterContent := if HasContent(choice.delta.content) then NONE else afterCalls;
    ChoiceProjects(ctx, st, chunk, ofEvent);
    CallsPlaced(st.active, choice.delta.toolCalls, ofEvent, ofPlaced);
    StartHasNoTools(ctx, st.messageStarted, chunk, ofEvent);
    ContentHasNoTools(afterCalls, choice.delta.content, ofEvent);
    FinishHasNoTools(afterContent, choice.finishReason, ofEvent);
  }

  lemma StepPlaced<T>(ctx: Context, st: State, input: Input, ofEvent: Event -> seq<T>, ofPlaced: Placed -> seq<T>)
    requires !Ends(input)
    requires ToolsOnly(ofEvent) && FollowsCalls(ofEvent, ofPlaced)
    ensures FlatMap(ofEvent, StepInput(ctx, st, input).events) ==
            FlatMap(ofPlaced, PlacedInCalls(st.active, InputCalls(input)))
  {
    hide FollowsCalls;
    if HasChoice(input) {
      ChoicePlaced(ctx, st, input.chunk, ofEvent, ofPlaced);
    } else {
      FlatMapNothing(ofEvent, StepInput(ctx, st, input).events);
    }
  }

  lemma {:induction false} RunPlaced<T>(ctx: Context, st: State, inputs: seq<Input>,
                                        ofEvent: Event -> seq<T>, ofPlaced: Placed -> seq<T>)
    requires forall i <- inputs :: !Ends(i)
    requires ToolsOnly(ofEvent) && FollowsCalls(ofEvent, ofPlaced)
    ensures FlatMap(ofEvent, Run(ctx, st, inputs).events) == FlatMap(ofPlaced, PlacedCalls(st.active, inputs))
    decreases |inputs|
  {
    hide StepInput, Ends, ToolsOnly, FollowsCalls, PlacedInCalls, InputCalls, ActiveAfterInput;
    if inputs == [] {
    } else {
      var i, first := inputs[0], StepInput(ctx, st, inputs[0]);
      assert i in inputs;
      EndsIffDone(ctx, st, i);
      ActiveStep(ctx, st, i);
      StepPlaced(ctx, st, i, ofEvent, ofPlaced);
      RunPlaced(ctx, first.state, inputs[1..], ofEvent, ofPlaced);
      FlatMapAppend(ofEvent, first.events, Run(ctx, first.state, inputs[1..]).events);
      FlatMapAppend(ofPlaced, PlacedInCalls(st.active, InputCalls(i)), PlacedCalls(first.state.active, inputs[1..]));
    }
  }

  /** The calls a conversion processes. */
  function Calls(ctx: Context, text: string): seq<Placed> {
    PlacedCalls(NONE, Processed(ctx, text))
  }

  lemma ConversionPlaced<T>(ctx: Context, text: string, ofEvent: Event -> seq<T>, ofPlaced: Placed -> seq<T>)
    requires ToolsOnly(ofEvent) && FollowsCalls(ofEvent, ofPlaced)
    ensures FlatMap(ofEvent, Conversion(ctx, text)) == FlatMap(ofPlaced, Calls(ctx, text))
  {
    assert IgnoresTail(ofEvent);
    hide Tail, Run, TextInputs, Ends, ToolsOnly, FollowsCalls, IgnoresTail;
    var body := Run(ctx, INITIAL, Processed(ctx, text));
    var ending := Ending(TextInputs(ctx, text));
    ConversionShape(ctx, text);
    RunPlaced(ctx, INITIAL, Processed(ctx, text), ofEvent, ofPlaced);
    TailIgnored(ctx, body.state, ending, ofEvent);
    FlatMapAppend(ofEvent, body.events, Tail(ctx, body.state, ending));
  }

  datatype Opening = Opening(index: int, id: string, name: Option<string>)

  function EventOpening(e: Event): seq<Opening> {
    if e.BlockStart? then [Opening(e.index, e.id, e.name)] else []
  }

  function CallOpening(p: Placed): seq<Opening> {
    if Opens(p.call) then [Opening(StartIndex(p.active, p.call), p.call.id.value, p.call.name)] else []
  }

  lemma OpeningFollows(p: Placed)
    ensures FlatMap(EventOpening, CallEvents(p.active, p.call)) == CallOpening(p)
  {
    var opening, fragment := OpeningEvents(p.active, p.call), FragmentEvents(p.active, p.call);
    FlatMapAppend(EventOpening, opening, fragment);
    FlatMapNothing(EventOpening, fragment);
    if Opens(p.call) {
      var start := BlockStart(StartIndex(p.active, p.call), p.call.id.value, p.call.name);
      FlatMapSnoc(EventOpening, Close(p.active), start);
      FlatMapNothing(EventOpening, Close(p.active));
    }
  }

  /** One `content_block_start` per id-bearing call, in order, with its id, name and index. */
  lemma OpeningsConserved(ctx: Context, text: string)
    ensures FlatMap(EventOpening, Conversion(ctx, text)) == FlatMap(CallOpening, Calls(ctx, text))
  {
    hide CallEvents, CallOpening, Conversion, Calls;
    forall p: Placed
      ensures FlatMap(EventOpening, CallEvents(p.active, p.call)) == CallOpening(p)
    {
      OpeningFollows(p);
    }
    ConversionPlaced(ctx, text, EventOpening, CallOpening);
  }

  function JsonAt(at: Option<int>): Event -> string {
    (e: Event) => if e.ArgsDelta? && e.at == at then e.partialJson else ""
  }

  /** The index the arguments of a call belong to: that of its block, or the one it gives, 0 if it gives none. */
  function SentUnder(p: Placed): Option<int> {
    if Opens(p.call) then Some(StartIndex(p.active, p.call))
    else match p.call.index case Missing => Some(0) case Given(index) => index
  }

  function ArgumentsAt(at: Option<int>): Placed -> string {
    (p: Placed) =>
      if p.call.arguments.Some? && SentUnder(p) == at then p.call.arguments.value else ""
  }

  lemma ArgumentsFollow(at: Option<int>, p: Placed)
    ensures FlatMap(JsonAt(at), CallEvents(p.active, p.call)) == ArgumentsAt(at)(p)
  {
    var opening, fragment := OpeningEvents(p.active, p.call), FragmentEvents(p.active, p.call);
    FlatMapAppend(JsonAt(at), opening, fragment);
    FlatMapNothing(JsonAt(at), opening);
    if fragment != [] {
      FlatMapOne(JsonAt(at), fragment[0]);
    }
  }

  /** For each block index, the argument text sent under it is that of its calls, in order. */
  lemma ArgumentsConserved(ctx: Context, text: string, at: Option<int>)
    ensures FlatMap(JsonAt(at), Conversion(ctx, text)) == FlatMap(ArgumentsAt(at), Calls(ctx, text))
  {
    hide CallEvents, SentUnder, Conversion, Calls;
    forall p: Placed
      ensures FlatMap(JsonAt(at), CallEvents(p.active, p.call)) == ArgumentsAt(at)(p)
    {
      ArgumentsFollow(at, p);
    }
    ConversionPlaced(ctx, text, JsonAt(at), ArgumentsAt(at));
  }

  function EventFragment(e: Event): seq<(Option<int>, string)> {
    if e.ArgsDelta? then [(e.at, e.partialJson)] else []
  }

  function CallFragment(p: Placed): seq<(Option<int>, string)> {
    match p.call.arguments case None => [] case Some(json) => [(SentUnder(p), json)]
  }

  lemma FragmentFollows(p: Placed)
    ensures FlatMap(EventFragment, CallEvents(p.active, p.call)) == CallFragment(p)
  {
    var opening, fragment := OpeningEvents(p.active, p.call), FragmentEvents(p.active, p.call);
    FlatMapAppend(EventFragment, opening, fragment);
    FlatMapNothing(EventFragment, opening);
    if fragment != [] {
      FlatMapOne(EventFragment, fragment[0]);
    }
  }

  /**
   One argument delta per call with arguments, in order: under the index of its
   block if it has an id, else under the index it gives, and 0 if it gives none.
   */
  lemma FragmentsConserved(ctx: Context, text: string)
    ensures FlatMap(EventFragment, Conversion(ctx, text)) == FlatMap(CallFragment, Calls(ctx, text))
  {
    hide CallEvents, CallFragment, Conversion, Calls;
    forall p: Placed
      ensures FlatMap(EventFragment, CallEvents(p.active, p.call)) == CallFragment(p)
    {
      FragmentFollows(p);
    }
    ConversionPlaced(ctx, text, EventFragment, CallFragment);
  }

  // ---- Indices that are left out ----

  predicate Unnumbered(call: ToolCall) {
    Opens(call) && !(call.index.Given? && call.index.value.Some?)
  }

  predicate AllUnnumbered(inputs: seq<Input>) {
    forall i <- inputs :: forall c <- InputCalls(i) :: Unnumbered(c)
  }

  function CountFrom(first: int, n: nat): seq<int> {
    seq(n, k => first + k)
  }

  /** Counting on over all calls, and from 0 again after every text and every finish reason. */
  function Numbers(next: int, inputs: seq<Input>): seq<int>
    decreases |inputs|
  {
    if inputs == [] then []
    else
      var n := |InputCalls(inputs[0])|;
      CountFrom(next, n) + Numbers(if ClosesBlock(inputs[0]) then 0 else next + n, inputs[1..])
  }

  function EventIndex(e: Event): seq<int> {
    if e.BlockStart? then [e.index] else []
  }

  function CallIndex(p: Placed): seq<int> {
    if Opens(p.call) then [StartIndex(p.active, p.call)] else []
  }

  lemma IndexFollows(p: Placed)
    ensures FlatMap(EventIndex, CallEvents(p.active, p.call)) == CallIndex(p)
  {
    var opening, fragment := OpeningEvents(p.active, p.call), FragmentEvents(p.active, p.call);
    FlatMapAppend(EventIndex, opening, fragment);
    FlatMapNothing(EventIndex, fragment);
    if Opens(p.call) {
      FlatMapSnoc(EventIndex, Close(p.active), BlockStart(StartIndex(p.active, p.call), p.call.id.value, p.call.name));
      FlatMapNothing(EventIndex, Close(p.active));
    }
  }

  lemma {:induction false} CallsAreCounted(active: int, calls: seq<ToolCall>)
    requires NONE <= active && forall c <- calls :: Unnumbered(c)
    ensures FlatMap(CallIndex, PlacedInCalls(active, calls)) == CountFrom(active + 1, |calls|)
    ensures ActiveAfterCalls(active, calls) == active + |calls|
    decreases |calls|
  {
    if calls == [] {
    } else {
      var p := Placed(active, calls[0]);
      assert calls[0] in calls;
      CallsAreCounted(active + 1, calls[1..]);
      FlatMapCons(CallIndex, p, PlacedInCalls(active + 1, calls[1..]));
      assert CountFrom(active + 1, |calls|) == [active + 1] + CountFrom(active + 2, |calls| - 1);
    }
  }

  lemma {:induction false} InputsAreCounted(active: int, inputs: seq<Input>)
    requires NONE <= active && AllUnnumbered(inputs)
    ensures FlatMap(CallIndex, PlacedCalls(active, inputs)) == Numbers(active + 1, inputs)
    decreases |inputs|
  {
    hide InputCalls, ClosesBlock, Unnumbered, CallIndex, CountFrom;
    if inputs == [] {
    } else {
      var i, next := inputs[0], ActiveAfterInput(active, inputs[0]);
      assert i in inputs;
      CallsAreCounted(active, InputCalls(i));
      InputsAreCounted(next, inputs[1..]);
      FlatMapAppend(CallIndex, PlacedInCalls(active, InputCalls(i)), PlacedCalls(next, inputs[1..]));
    }
  }

  /** A backend that sends no indices gets its blocks numbered 0, 1, 2, ... anew after every text and finish reason. */
  lemma OmittedIndicesCount(ctx: Context, text: string)
    requires AllUnnumbered(Processed(ctx, text))
    ensures FlatMap(EventIndex, Conversion(ctx, text)) == Numbers(0, Processed(ctx, text))
  {
    hide CallEvents, CallIndex, Conversion, Processed, PlacedCalls, AllUnnumbered;
    forall p: Placed
      ensures FlatMap(EventIndex, CallEvents(p.active, p.call)) == CallIndex(p)
    {
      IndexFollows(p);
    }
    ConversionPlaced(ctx, text, EventIndex, CallIndex);
    InputsAreCounted(NONE, Processed(ctx, text));
  }
}
