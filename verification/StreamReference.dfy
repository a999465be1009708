/**
 What a stream means, said of its payload strings and of what `json.loads`
 makes of them: a reference for the translator that has no open block and no
 stops, only a counter for calls that come without an index.
 */
module StreamReference {
  import opened Sequences
  import opened Text
  import opened Json
  import opened SseFramer
  import opened StreamTranslator
  import opened StreamProperties

  // ---- Payloads ----

  /** The payloads of a text, its end closing the last block. */
  function PayloadsOf(text: string): seq<string> {
    Payloads(Frame(text + "\n\n").blocks)
  }

  predicate IsMarker(p: string) {
    Strip(p) == "[DONE]"
  }

  /** A payload that is parsed to something that raises. */
  predicate Breaks(ctx: Context, p: string) {
    p != "" && !IsMarker(p) && ctx.loads(Strip(p)) == Unexpected
  }

  predicate ReportsError(ctx: Context, p: string) {
    p != "" && !IsMarker(p) && ctx.loads(Strip(p)).Loaded? && ctx.loads(Strip(p)).chunk.error.Some?
  }

  /** After such a payload nothing is read. */
  predicate Stops(ctx: Context, p: string) {
    IsMarker(p) || Breaks(ctx, p) || ReportsError(ctx, p)
  }

  /** The first payload that stops the stream is number `n`; none does if there is no such number. */
  predicate FirstStop(ctx: Context, ps: seq<string>, n: nat) {
    && n <= |ps|
    && (forall i | 0 <= i < n :: !Stops(ctx, ps[i]))
    && (n < |ps| ==> Stops(ctx, ps[n]))
  }

  /** The chunk a payload holds, if any. */
  function ChunkIn(ctx: Context): string -> seq<Chunk> {
    (p: string) => if p != "" && !IsMarker(p) && ctx.loads(Strip(p)).Loaded? then [ctx.loads(Strip(p)).chunk] else []
  }

  function ChunkReceived(input: Input): seq<Chunk> {
    if input.Received? then [input.chunk] else []
  }

  lemma MarkerIsNotEmpty()
    ensures !IsMarker("")
  {
  }

  /** Payload by payload: what is received is what was parsed, and a stream ends at what stops it. */
  lemma PayloadMeaning(ctx: Context, p: string)
    ensures Ends(Interpret(ctx, p)) <==> Stops(ctx, p)
    ensures ChunkReceived(Interpret(ctx, p)) == ChunkIn(ctx)(p)
    ensures Interpret(ctx, p) == Done <==> IsMarker(p)
    ensures Interpret(ctx, p) == Malformed <==> Breaks(ctx, p)
  {
    MarkerIsNotEmpty();
    hide Strip;
  }

  lemma InputsCons(ctx: Context, p: string, ps: seq<string>)
    ensures Inputs(ctx, [p] + ps) == [Interpret(ctx, p)] + Inputs(ctx, ps)
    ensures Inputs(ctx, []) == []
  {
    hide Interpret;
    FlatMapCons(Reading(ctx), p, ps);
  }

  lemma {:induction false} BeforeStop(ctx: Context, ps: seq<string>, n: nat)
    requires FirstStop(ctx, ps, n)
    ensures Before(Inputs(ctx, ps)) == Inputs(ctx, ps[..n])
    ensures Ending(Inputs(ctx, ps)) == if n == |ps| then None else Some(Interpret(ctx, ps[n]))
    decreases |ps|
  {
    hide Interpret, Stops, Ends;
    if ps == [] {
    } else {
      PayloadMeaning(ctx, ps[0]);
      InputsCons(ctx, ps[0], ps[1..]);
      assert ps == [ps[0]] + ps[1..];
      if n == 0 {
        assert ps[..0] == [];
      } else {
        assert forall i | 0 <= i < n - 1 :: ps[1..][i] == ps[i + 1];
        BeforeStop(ctx, ps[1..], n - 1);
        assert ps[..n] == [ps[0]] + ps[1..][..n - 1];
        InputsCons(ctx, ps[0], ps[1..][..n - 1]);
      }
    }
  }

  lemma {:induction false} ChunksOfInputs(ctx: Context, ps: seq<string>)
    ensures FlatMap(ChunkReceived, Inputs(ctx, ps)) == FlatMap(ChunkIn(ctx), ps)
  {
    hide Interpret, ChunkIn, ChunkReceived;
    if ps == [] {
    } else {
      var rest := ps[1..];
      assert ps == [ps[0]] + rest;
      InputsCons(ctx, ps[0], rest);
      PayloadMeaning(ctx, ps[0]);
      ChunksOfInputs(ctx, rest);
      FlatMapCons(ChunkReceived, Interpret(ctx, ps[0]), Inputs(ctx, rest));
    }
  }

  /** The chunks that are processed are those parsed from the payloads before the first stop. */
  lemma ProcessedChunks(ctx: Context, text: string, n: nat)
    requires FirstStop(ctx, PayloadsOf(text), n)
    ensures FlatMap(ChunkReceived, Processed(ctx, text)) == FlatMap(ChunkIn(ctx), PayloadsOf(text)[..n])
  {
    hide Inputs, Before;
    BeforeStop(ctx, PayloadsOf(text), n);
    ChunksOfInputs(ctx, PayloadsOf(text)[..n]);
  }

  // ---- The reference ----

  function JoinedText(items: seq<ContentItem>): string {
    if items == [] then ""
    else
      var last := match items[|items| - 1]
                  case StringItem(s) => s
                  case DictItem(Some(t)) => t
                  case _ => "";
      JoinedText(items[..|items| - 1]) + last
  }

  /** The text of a content: itself, its `text`, the texts of its items, or how Python prints it. */
  function TextOf(content: Content): string {
    match content
    case NoContent => ""
    case Plain(s) => s
    case Items(items) => JoinedText(items)
    case Dict(Some(text), _) => text
    case Dict(None, repr) => repr
    case Scalar(repr) => repr
  }

  /** Empty strings and empty lists are as good as no content. */
  predicate IsEmpty(content: Content) {
    content in {NoContent, Plain(""), Items([])}
  }

  /** The names Anthropic has for OpenAI's finish reasons; others are passed on. */
  function StopReason(reason: string): string {
    if reason == "stop" then "end_turn"
    else if reason == "length" then "max_tokens"
    else if reason == "content_filter" then "stop_sequence"
    else if reason == "tool_calls" || reason == "function_call" then "tool_use"
    else reason
  }

  /** A string that counts, as a list of at most one. */
  function NonEmpty(s: Option<string>): seq<string> {
    match s case None => [] case Some(v) => if |v| == 0 then [] else [v]
  }

  function First(xs: seq<string>, default: string): string {
    if |xs| > 0 then xs[0] else default
  }

  /** The type of an error is its type, else its code; both it and the message have defaults. */
  function Reported(e: ErrorInfo): Event {
    ErrorEvent(
      First(NonEmpty(e.kind) + NonEmpty(e.code), "api_error"),
      First(NonEmpty(e.message), "Upstream request failed."))
  }

  function Fragment(index: Option<int>, call: ToolCall): seq<Event> {
    match call.arguments case None => [] case Some(json) => [ArgsDelta(index, json)]
  }

  /** The number a call gets: its own, or the next one. */
  function Number(next: int, call: ToolCall): int {
    match call.index case Given(Some(index)) => index case _ => next
  }

  /** Starts and arguments of a list of calls, the next free number being `next`. */
  function ToolEvents(next: int, calls: seq<ToolCall>): seq<Event>
    decreases |calls|
  {
    if calls == [] then []
    else
      var call := calls[0];
      if NonEmpty(call.id) == [] then
        Fragment(match call.index case Missing => Some(0) case Given(index) => index, call)
        + ToolEvents(next, calls[1..])
      else
        var n := Number(next, call);
        [BlockStart(n, NonEmpty(call.id)[0], call.name)] + Fragment(Some(n), call) + ToolEvents(n + 1, calls[1..])
  }

  /** The next free number after a list of calls. */
  function NextNumber(next: int, calls: seq<ToolCall>): int
    decreases |calls|
  {
    if calls == [] then next
    else if NonEmpty(calls[0].id) == [] then NextNumber(next, calls[1..])
    else NextNumber(Number(next, calls[0]) + 1, calls[1..])
  }

  function Header(ctx: Context, chunk: Chunk): Event {
    MessageStart(match chunk.id case Some(id) => id case None => Str(ctx.sessionId), ctx.model)
  }

  function TokenCount(tokens: Option<Json>): Json {
    match tokens case Some(j) => j case None => Num("0")
  }

  /** What a chunk is told as. */
  function Told(ctx: Context, next: int, started: bool, chunk: Chunk): seq<Event> {
    if chunk.choices == [] then
      match chunk.usage
      case None => []
      case Some(u) => [UsageDelta(TokenCount(u.promptTokens), TokenCount(u.completionTokens))]
    else
      var delta, reasons := chunk.choices[0].delta, NonEmpty(chunk.choices[0].finishReason);
      (if started || NonEmpty(delta.role) == [] then [] else [Header(ctx, chunk)])
      + ToolEvents(next, delta.toolCalls)
      + (if IsEmpty(delta.content) then [] else [TextDelta(TextOf(delta.content))])
      + (if reasons == [] then [] else [FinishDelta(StopReason(reasons[0]))])
  }

  /** Text and a finish reason start the numbers anew. */
  function NextAfter(next: int, chunk: Chunk): int {
    if chunk.choices == [] then next
    else if IsEmpty(chunk.choices[0].delta.content) && NonEmpty(chunk.choices[0].finishReason) == []
    then NextNumber(next, chunk.choices[0].delta.toolCalls)
    else 0
  }

  predicate NamesRole(chunk: Chunk) {
    chunk.choices != [] && NonEmpty(chunk.choices[0].delta.role) != []
  }

  predicate NamesReason(chunk: Chunk) {
    chunk.choices != [] && NonEmpty(chunk.choices[0].finishReason) != []
  }

  function ToldAll(ctx: Context, next: int, started: bool, chunks: seq<Chunk>): seq<Event>
    decreases |chunks|
  {
    if chunks == [] then []
    else
      Told(ctx, next, started, chunks[0])
      + ToldAll(ctx, NextAfter(next, chunks[0]), started || NamesRole(chunks[0]), chunks[1..])
  }

  /** How a stream ends: by its marker, an error, an exception, or the end of the text. */
  function Closing(ctx: Context, ps: seq<string>, n: nat, chunks: seq<Chunk>): seq<Event>
    requires FirstStop(ctx, ps, n)
  {
    if n == |ps| then [MessageStop]
    else if IsMarker(ps[n]) then (if exists c <- chunks :: NamesReason(c) then [] else [EndTurnDelta]) + [MessageStop]
    else if Breaks(ctx, ps[n]) then []
    else [Reported(ctx.loads(Strip(ps[n])).chunk.error.value)]
  }

  // ---- The translator follows it ----

  function ButStop(e: Event): seq<Event> {
    if e.BlockStop? then [] else [e]
  }

  lemma {:induction false} KeptWhole(es: seq<Event>)
    requires forall e <- es :: !e.BlockStop?
    ensures FlatMap(ButStop, es) == es
  {
    if es == [] {
    } else {
      assert es[0] in es;
      KeptWhole(es[1..]);
    }
  }

  lemma CloseDropped(active: int, es: seq<Event>)
    requires forall e <- es :: !e.BlockStop?
    ensures FlatMap(ButStop, Close(active) + es) == es
  {
    FlatMapAppend(ButStop, Close(active), es);
    FlatMapNothing(ButStop, Close(active));
    KeptWhole(es);
  }

  lemma TruthyIsGiven(s: Option<string>)
    ensures Truthy(s) <==> NonEmpty(s) != []
    ensures Truthy(s) ==> s.Some? && NonEmpty(s) == [s.value]
  {
  }

  lemma {:induction false} ItemsAreJoined(items: seq<ContentItem>)
    ensures FlatMap(ItemText, items) == JoinedText(items)
  {
    if items == [] {
    } else {
      var init, last := items[..|items| - 1], items[|items| - 1];
      ItemsAreJoined(init);
      assert items == init + [last];
      FlatMapSnoc(ItemText, init, last);
    }
  }

  lemma ContentIsTold(content: Content)
    ensures HasContent(content) <==> !IsEmpty(content)
    ensures NormalizedText(content) == TextOf(content)
  {
    if content.Items? {
      ItemsAreJoined(content.items);
    }
  }

  lemma ReasonIsMapped(reason: string)
    ensures MapFinishReason(reason) == StopReason(reason)
  {
  }

  lemma ErrorIsReported(e: ErrorInfo)
    ensures ConvertError(e) == Reported(e)
  {
    TruthyIsGiven(e.kind);
    TruthyIsGiven(e.code);
    TruthyIsGiven(e.message);
  }

  lemma CallIsTold(active: int, call: ToolCall)
    ensures FlatMap(ButStop, CallEvents(active, call)) == ToolEvents(active + 1, [call])
    ensures ActiveAfterCall(active, call) + 1 == NextNumber(active + 1, [call])
  {
    TruthyIsGiven(call.id);
    hide Truthy, NonEmpty;
    assert [call][1..] == [];
    var fragment := FragmentEvents(active, call);
    KeptWhole(fragment);
    if Opens(call) {
      var start := BlockStart(StartIndex(active, call), call.id.value, call.name);
      assert CallEvents(active, call) == Close(active) + ([start] + fragment);
      CloseDropped(active, [start] + fragment);
    }
  }

  lemma ToolEventsCons(next: int, call: ToolCall, calls: seq<ToolCall>)
    ensures ToolEvents(next, [call] + calls) == ToolEvents(next, [call]) + ToolEvents(NextNumber(next, [call]), calls)
    ensures NextNumber(next, [call] + calls) == NextNumber(NextNumber(next, [call]), calls)
  {
    hide NonEmpty, Fragment, Number;
    assert ([call] + calls)[1..] == calls && [call][1..] == [];
  }

  lemma {:induction false} CallsAreTold(active: int, calls: seq<ToolCall>)
    ensures FlatMap(ButStop, CallsEvents(active, calls)) == ToolEvents(active + 1, calls)
    ensures ActiveAfterCalls(active, calls) + 1 == NextNumber(active + 1, calls)
    decreases |calls|
  {
    hide CallEvents, ActiveAfterCall, NonEmpty, Fragment, Number;
    if calls == [] {
    } else {
      hide ToolEvents, NextNumber;
      var call, rest, next := calls[0], calls[1..], ActiveAfterCall(active, calls[0]);
      assert calls == [call] + rest;
      CallIsTold(active, call);
      CallsAreTold(next, rest);
      FlatMapAppend(ButStop, CallEvents(active, call), CallsEvents(next, rest));
      ToolEventsCons(active + 1, call, rest);
    }
  }

  lemma ChoiceIsTold(ctx: Context, st: State, chunk: Chunk)
    requires chunk.choices != []
    ensures FlatMap(ButStop, StepChoice(ctx, st, chunk).events) == Told(ctx, st.active + 1, st.messageStarted, chunk)
  {
    hide CallsEvents, ActiveAfterCalls, ToolEvents, HasContent, NormalizedText, IsEmpty, TextOf, MapFinishReason,
      StopReason, Truthy, NonEmpty, FlatMap, StepChoice;
    var choice := chunk.choices[0];
    var afterCalls := ActiveAfterCalls(st.active, choice.delta.toolCalls);
    var afterContent := if HasContent(choice.delta.content) then NONE else afterCalls;
    ChoiceProjects(ctx, st, chunk, ButStop);
    TruthyIsGiven(choice.delta.role);
    TruthyIsGiven(choice.finishReason);
    CallsAreTold(st.active, choice.delta.toolCalls);
    ContentIsTold(choice.delta.content);
    KeptWhole(StartEvents(ctx, st.messageStarted, chunk));
    KeptWhole([]);
    CloseDropped(afterCalls, [TextDelta(NormalizedText(choice.delta.content))]);
    if Truthy(choice.finishReason) {
      ReasonIsMapped(choice.finishReason.value);
      CloseDropped(afterContent, [FinishDelta(MapFinishReason(choice.finishReason.value))]);
    }
  }

  lemma ChoiceNext(ctx: Context, st: State, chunk: Chunk)
    requires chunk.choices != []
    ensures var after := StepChoice(ctx, st, chunk).state;
            && after.active + 1 == NextAfter(st.active + 1, chunk)
            && after.messageStarted == (st.messageStarted || NamesRole(chunk))
            && after.finishReasonSent == (st.finishReasonSent || NamesReason(chunk))
  {
    hide CallsEvents, ActiveAfterCalls, NextNumber, HasContent, IsEmpty, Truthy, NonEmpty, MapFinishReason;
    var choice := chunk.choices[0];
    TruthyIsGiven(choice.delta.role);
    TruthyIsGiven(choice.finishReason);
    CallsAreTold(st.active, choice.delta.toolCalls);
    ContentIsTold(choice.delta.content);
  }

  lemma StepIsTold(ctx: Context, st: State, chunk: Chunk)
    requires chunk.error.None?
    ensures var step := StepChunk(ctx, st, chunk);
            && FlatMap(ButStop, step.events) == Told(ctx, st.active + 1, st.messageStarted, chunk)
            && step.state.active + 1 == NextAfter(st.active + 1, chunk)
            && step.state.messageStarted == (st.messageStarted || NamesRole(chunk))
            && step.state.finishReasonSent == (st.finishReasonSent || NamesReason(chunk))
  {
    if chunk.choices == [] {
      KeptWhole(UsageEvents(chunk.usage));
    } else {
      hide StepChoice, Told, NextAfter, NamesRole, NamesReason;
      ChoiceIsTold(ctx, st, chunk);
      ChoiceNext(ctx, st, chunk);
    }
  }

  lemma ToldCons(ctx: Context, next: int, started: bool, chunk: Chunk, chunks: seq<Chunk>)
    ensures ToldAll(ctx, next, started, [chunk] + chunks) ==
            Told(ctx, next, started, chunk)
            + ToldAll(ctx, NextAfter(next, chunk), started || NamesRole(chunk), chunks)
  {
    hide Told, NextAfter, NamesRole;
    assert ([chunk] + chunks)[1..] == chunks;
  }

  lemma ReasonCons(chunk: Chunk, chunks: seq<Chunk>)
    ensures (exists c <- [chunk] + chunks :: NamesReason(c)) <==>
            NamesReason(chunk) || exists c <- chunks :: NamesReason(c)
  {
    hide NamesReason;
    assert chunk in [chunk] + chunks;
    assert forall c <- chunks :: c in [chunk] + chunks;
  }

  lemma {:induction false} RunIsTold(ctx: Context, st: State, inputs: seq<Input>)
    requires forall i <- inputs :: !Ends(i)
    ensures var run, chunks := Run(ctx, st, inputs), FlatMap(ChunkReceived, inputs);
            && FlatMap(ButStop, run.events) == ToldAll(ctx, st.active + 1, st.messageStarted, chunks)
            && run.state.finishReasonSent == (st.finishReasonSent || exists c <- chunks :: NamesReason(c))
    decreases |inputs|
  {
    hide Told, NextAfter, NamesRole, NamesReason, StepChunk;
    if inputs == [] {
    } else {
      var i, rest, first := inputs[0], inputs[1..], StepInput(ctx, st, inputs[0]);
      assert i in inputs;
      EndsIffDone(ctx, st, i);
      RunIsTold(ctx, first.state, rest);
      FlatMapAppend(ButStop, first.events, Run(ctx, first.state, rest).events);
      var more := FlatMap(ChunkReceived, rest);
      if i.Received? {
        StepIsTold(ctx, st, i.chunk);
        ToldCons(ctx, st.active + 1, st.messageStarted, i.chunk, more);
        ReasonCons(i.chunk, more);
      } else {
        assert [] + more == more;
      }
    }
  }

  lemma ReportedIsError(e: ErrorInfo)
    ensures Reported(e).ErrorEvent?
  {
  }

  lemma TailIsClosing(ctx: Context, st: State, ps: seq<string>, n: nat, chunks: seq<Chunk>)
    requires FirstStop(ctx, ps, n)
    requires st.finishReasonSent == exists c <- chunks :: NamesReason(c)
    ensures var ending := if n == |ps| then None else Some(Interpret(ctx, ps[n]));
            FlatMap(ButStop, Tail(ctx, st, ending)) == Closing(ctx, ps, n, chunks)
  {
    hide NamesReason, Reported, ConvertError, FlatMap, Strip;
    if n == |ps| {
      KeptWhole([MessageStop]);
    } else {
      PayloadMeaning(ctx, ps[n]);
      var reason := if st.finishReasonSent then [] else [EndTurnDelta];
      assert Close(st.active) + reason + [MessageStop] == Close(st.active) + (reason + [MessageStop]);
      CloseDropped(st.active, reason + [MessageStop]);
      KeptWhole([]);
      if ReportsError(ctx, ps[n]) {
        var e := ctx.loads(Strip(ps[n])).chunk.error.value;
        ErrorIsReported(e);
        KeptWhole([Reported(e)]) by {
          assert !Reported(e).BlockStop? by { ReportedIsError(e); }
        }
      }
    }
  }

  lemma StopIsInRange(ctx: Context, ps: seq<string>, n: nat)
    requires FirstStop(ctx, ps, n)
    ensures n <= |ps|
  {
  }

  /**
   But for the stops of tool blocks, every conversion is the reference: the
   chunks parsed from the payloads before the first that stops the stream, told
   one after the other, and the closing that this payload calls for.
   */
  lemma ConversionIsReference(ctx: Context, text: string, n: nat)
    requires FirstStop(ctx, PayloadsOf(text), n)
    ensures var ps := PayloadsOf(text);
            var chunks := FlatMap(ChunkIn(ctx), ps[..n]);
            FlatMap(ButStop, Conversion(ctx, text)) == ToldAll(ctx, 0, false, chunks) + Closing(ctx, ps, n, chunks)
  {
    hide Conversion, Run, Tail, Inputs, Before, FlatMap, ToldAll, Closing, Interpret, FirstStop;
    var ps := PayloadsOf(text);
    var body := Run(ctx, INITIAL, Processed(ctx, text));
    var ending := Ending(TextInputs(ctx, text));
    ConversionShape(ctx, text);
    ProcessedChunks(ctx, text, n);
    BeforeStop(ctx, ps, n);
    RunIsTold(ctx, INITIAL, Processed(ctx, text));
    StopIsInRange(ctx, ps, n);
    TailIsClosing(ctx, body.state, ps, n, FlatMap(ChunkIn(ctx), ps[..n]));
    FlatMapAppend(ButStop, body.events, Tail(ctx, body.state, ending));
  }
}
