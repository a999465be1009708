/**
 What a client of a conversion gets: it frames the emitted text, however it is
 cut, parses each payload, looks up its values, and has all events in order.
 */
module StreamClient {
  import opened Sequences
  import opened Text
  import opened Json
  import opened JsonReader
  import opened SseFramer
  import opened StreamTranslator
  import opened StreamProperties
  import opened StreamToolBlocks
  import opened StreamBracketing
  import opened StreamBlockContents
  import opened StreamReference
  import opened StreamPayloads
  import opened StreamOutput
  import opened StreamDecoder

  // ---- From the chunks to the events: only values Python can hold ----

  predicate IsHeld(value: Option<Json>, reprs: NumText -> bool) {
    value.Some? ==> Held(value.value, reprs)
  }

  /** The values a chunk passes on: its id and its usage. */
  predicate ChunkIsHeld(chunk: Chunk, reprs: NumText -> bool) {
    && IsHeld(chunk.id, reprs)
    && (chunk.usage.Some? ==>
          IsHeld(chunk.usage.value.promptTokens, reprs) && IsHeld(chunk.usage.value.completionTokens, reprs))
  }

  predicate InputIsHeld(input: Input, reprs: NumText -> bool) {
    input.Received? ==> ChunkIsHeld(input.chunk, reprs)
  }

  /** The index a call is sent under. */
  predicate CallIsHeld(p: Placed, reprs: NumText -> bool) {
    (Opens(p.call) || p.call.arguments.Some?) && SentUnder(p).Some? ==> reprs(IntText(SentUnder(p).value))
  }

  predicate ActiveIsHeld(active: int, reprs: NumText -> bool) {
    active != NONE ==> reprs(IntText(active))
  }

  predicate AllHeld(es: seq<Event>, reprs: NumText -> bool) {
    forall e <- es :: EventIsHeld(e, reprs)
  }

  lemma CallEventsAreHeld(p: Placed, reprs: NumText -> bool)
    requires ActiveIsHeld(p.active, reprs) && CallIsHeld(p, reprs)
    ensures AllHeld(CallEvents(p.active, p.call), reprs)
    ensures ActiveIsHeld(ActiveAfterCall(p.active, p.call), reprs)
  {
    hide IntText, Held;
  }

  lemma {:induction false} CallsEventsAreHeld(active: int, calls: seq<ToolCall>, reprs: NumText -> bool)
    requires ActiveIsHeld(active, reprs) && forall p <- PlacedInCalls(active, calls) :: CallIsHeld(p, reprs)
    ensures AllHeld(CallsEvents(active, calls), reprs)
    ensures ActiveIsHeld(ActiveAfterCalls(active, calls), reprs)
    decreases |calls|
  {
    hide CallEvents, ActiveAfterCall, CallIsHeld, ActiveIsHeld, EventIsHeld;
    if calls == [] {
    } else {
      var p, next := Placed(active, calls[0]), ActiveAfterCall(active, calls[0]);
      assert PlacedInCalls(active, calls)[0] == p;
      assert forall q <- PlacedInCalls(next, calls[1..]) :: q in PlacedInCalls(active, calls);
      CallEventsAreHeld(p, reprs);
      CallsEventsAreHeld(next, calls[1..], reprs);
    }
  }

  /** Closing the open block and sending an event without numbers of its own. */
  lemma ClosedIsHeld(active: int, e: Event, reprs: NumText -> bool)
    requires ActiveIsHeld(active, reprs) && EventIsHeld(e, reprs)
    ensures AllHeld(Close(active) + [e], reprs)
  {
    hide IntText, Held;
  }

  lemma HeaderIsHeld(ctx: Context, started: bool, chunk: Chunk, reprs: NumText -> bool)
    requires chunk.choices != [] && ChunkIsHeld(chunk, reprs)
    ensures AllHeld(StartEvents(ctx, started, chunk), reprs)
  {
    TypeIsHeld(ctx.sessionId, reprs);
    hide Held;
  }

  lemma ChoiceIsHeld(ctx: Context, st: State, chunk: Chunk, reprs: NumText -> bool)
    requires chunk.choices != [] && ChunkIsHeld(chunk, reprs) && ActiveIsHeld(st.active, reprs)
    requires forall p <- PlacedInCalls(st.active, chunk.choices[0].delta.toolCalls) :: CallIsHeld(p, reprs)
    ensures AllHeld(StepChoice(ctx, st, chunk).events, reprs)
    ensures ActiveIsHeld(StepChoice(ctx, st, chunk).state.active, reprs)
  {
    hide CallsEvents, ActiveAfterCalls, CallIsHeld, IntText, NormalizedText, HasContent, MapFinishReason, Held;
    var choice := chunk.choices[0];
    var afterCalls := ActiveAfterCalls(st.active, choice.delta.toolCalls);
    var afterContent := if HasContent(choice.delta.content) then NONE else afterCalls;
    CallsEventsAreHeld(st.active, choice.delta.toolCalls, reprs);
    ClosedIsHeld(afterCalls, TextDelta(NormalizedText(choice.delta.content)), reprs);
    if Truthy(choice.finishReason) {
      ClosedIsHeld(afterContent, FinishDelta(MapFinishReason(choice.finishReason.value)), reprs);
    }
    HeaderIsHeld(ctx, st.messageStarted, chunk, reprs);
  }

  lemma StepIsHeld(ctx: Context, st: State, input: Input, reprs: NumText -> bool)
    requires reprs("0") && !Ends(input) && InputIsHeld(input, reprs) && ActiveIsHeld(st.active, reprs)
    requires forall p <- PlacedInCalls(st.active, InputCalls(input)) :: CallIsHeld(p, reprs)
    ensures AllHeld(StepInput(ctx, st, input).events, reprs)
    ensures ActiveIsHeld(StepInput(ctx, st, input).state.active, reprs)
  {
    if HasChoice(input) {
      hide AllHeld, ActiveIsHeld, CallIsHeld, ChunkIsHeld, StepChoice, PlacedInCalls;
      ChoiceIsHeld(ctx, st, input.chunk, reprs);
    } else {
      hide ActiveIsHeld;
    }
  }

  lemma {:induction false} RunIsHeld(ctx: Context, st: State, inputs: seq<Input>, reprs: NumText -> bool)
    requires reprs("0") && ActiveIsHeld(st.active, reprs)
    requires forall i <- inputs :: !Ends(i) && InputIsHeld(i, reprs)
    requires forall p <- PlacedCalls(st.active, inputs) :: CallIsHeld(p, reprs)
    ensures AllHeld(Run(ctx, st, inputs).events, reprs)
    ensures ActiveIsHeld(Run(ctx, st, inputs).state.active, reprs)
    decreases |inputs|
  {
    hide StepInput, Ends, InputIsHeld, ActiveIsHeld, CallIsHeld, EventIsHeld, InputCalls, ActiveAfterInput,
      PlacedInCalls;
    if inputs == [] {
    } else {
      var i, first := inputs[0], StepInput(ctx, st, inputs[0]);
      assert i in inputs;
      EndsIffDone(ctx, st, i);
      ActiveStep(ctx, st, i);
      var now, later := PlacedInCalls(st.active, InputCalls(i)), PlacedCalls(first.state.active, inputs[1..]);
      assert PlacedCalls(st.active, inputs) == now + later;
      StepIsHeld(ctx, st, i, reprs);
      RunIsHeld(ctx, first.state, inputs[1..], reprs);
    }
  }

  lemma TailIsHeld(ctx: Context, st: State, ending: Option<Input>, reprs: NumText -> bool)
    requires ActiveIsHeld(st.active, reprs) && (ending.Some? ==> Ends(ending.value))
    ensures AllHeld(Tail(ctx, st, ending), reprs)
  {
    hide IntText, Held;
  }

  /** A conversion of chunks with values and indices Python can hold emits only such events. */
  lemma ConversionIsHeld(ctx: Context, text: string, reprs: NumText -> bool)
    requires reprs("0")
    requires forall i <- Processed(ctx, text) :: InputIsHeld(i, reprs)
    requires forall p <- Calls(ctx, text) :: CallIsHeld(p, reprs)
    ensures AllHeld(Conversion(ctx, text), reprs)
  {
    hide Run, TextInputs, Conversion, Tail, InputIsHeld, CallIsHeld, EventIsHeld;
    var body := Run(ctx, INITIAL, Processed(ctx, text));
    var ending := Ending(TextInputs(ctx, text));
    RunIsHeld(ctx, INITIAL, Processed(ctx, text), reprs);
    TailIsHeld(ctx, body.state, ending, reprs);
    ConversionShape(ctx, text);
  }

  // ---- The client ----

  /** The events of a block: none unless its data is JSON for an event of the type its first line names. */
  function ReadBlock(loads: string -> Option<Json>): string -> seq<Event> {
    (block: string) =>
      var payloads := Payload(block);
      if |payloads| != 1 || loads(payloads[0]).None? then []
      else
        var j := loads(payloads[0]).value;
        if TypeOf(j).Some? && Lines(block)[0] == "event: " + TypeOf(j).value && Decode(j).Some?
        then [Decode(j).value]
        else []
  }

  /** What a client reads from the pieces it receives. */
  function EventsRead(loads: string -> Option<Json>, pieces: seq<string>): seq<Event> {
    FlatMap(ReadBlock(loads), FrameChunks("", pieces).blocks)
  }

  lemma BlockIsRead(loads: string -> Option<Json>, e: Event, reprs: NumText -> bool)
    requires IsReader(loads, reprs) && EventIsHeld(e, reprs)
    ensures ReadBlock(loads)(Block(e)) == [e]
  {
    hide IsReader, EventIsHeld, EventData, EventJson, Payload, Lines, TypeOf, Decode, EventName, Block;
    BlockFrames(e);
    ClientReadsEvent(e, loads, reprs);
    EventDecoded(e);
  }

  lemma {:induction false} BlocksAreRead(loads: string -> Option<Json>, es: seq<Event>, reprs: NumText -> bool)
    requires IsReader(loads, reprs) && AllHeld(es, reprs)
    ensures FlatMap(ReadBlock(loads), Blocks(es)) == es
  {
    hide IsReader, EventIsHeld, ReadBlock, Block;
    if es == [] {
    } else {
      assert es[0] in es;
      BlockIsRead(loads, es[0], reprs);
      BlocksAreRead(loads, es[1..], reprs);
      FlatMapCons(ReadBlock(loads), Block(es[0]), Blocks(es[1..]));
    }
  }

  /** The pieces hold the text of a conversion and its chunks hold values and indices Python can hold. */
  predicate Carries(ctx: Context, text: string, pieces: seq<string>, reprs: NumText -> bool) {
    && Concat(pieces) == FlatMap(Render, Conversion(ctx, text))
    && (forall i <- Processed(ctx, text) :: InputIsHeld(i, reprs))
    && (forall p <- Calls(ctx, text) :: CallIsHeld(p, reprs))
  }

  /**
   The whole way: a backend's text is converted, the events are written out and
   cut anywhere, and a client that frames, parses and looks up what it receives
   has every event with all its fields, in order, and nothing left over.
   */
  lemma ClientReadsConversion(ctx: Context, text: string, pieces: seq<string>,
                              loads: string -> Option<Json>, reprs: NumText -> bool)
    requires IsReader(loads, reprs) && Carries(ctx, text, pieces, reprs)
    ensures EventsRead(loads, pieces) == Conversion(ctx, text)
    ensures FrameChunks("", pieces).rest == ""
  {
    assert reprs("0");
    hide IsReader, InputIsHeld, CallIsHeld, Conversion, Render, FrameChunks, Processed, Calls, FlatMap;
    ConversionIsHeld(ctx, text, reprs);
    OutputFrames(Conversion(ctx, text), pieces);
    BlocksAreRead(loads, Conversion(ctx, text), reprs);
  }

  /**
   From the backend's payloads to the client's objects: all text, usage and
   arguments of the chunks before the payload that stops the stream arrive in
   order, the arguments also block by block if the fragments fit.
   */
  lemma ClientGetsEverything(ctx: Context, text: string, n: nat, pieces: seq<string>,
                             loads: string -> Option<Json>, reprs: NumText -> bool)
    requires FirstStop(ctx, PayloadsOf(text), n)
    requires IsReader(loads, reprs) && Carries(ctx, text, pieces, reprs)
    ensures var got, chunks := EventsRead(loads, pieces), FlatMap(ChunkIn(ctx), PayloadsOf(text)[..n]);
            && FlatMap(EventText, got) == FlatMap(ChunkText, chunks)
            && FlatMap(EventUsage, got) == FlatMap(ChunkUsage, chunks)
            && FlatMap(EventFragment, got) == FlatMap(CallFragment, Calls(ctx, text))
            && FlatMap(ButStop, got) == ToldAll(ctx, 0, false, chunks) + Closing(ctx, PayloadsOf(text), n, chunks)
            && (AllFit(true, Calls(ctx, text)) ==> BlocksSeen(got) == IncludeAll([], Calls(ctx, text)))
  {
    hide IsReader, Carries, EventsRead, Conversion, FlatMap, FirstStop, ToldAll, Closing, Calls, AllFit, BlocksSeen,
      IncludeAll, PayloadsOf;
    ClientReadsConversion(ctx, text, pieces, loads, reprs);
    TextOfPayloads(ctx, text, n);
    UsageOfPayloads(ctx, text, n);
    FragmentsConserved(ctx, text);
    StopIsInRange(ctx, PayloadsOf(text), n);
    ConversionIsReference(ctx, text, n);
    if AllFit(true, Calls(ctx, text)) {
      BlocksConserved(ctx, text);
    }
  }
}
