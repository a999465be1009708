/**
 The block protocol a client sees: starts and stops alternate, a stop names the
 open block, text and stop reasons lie outside of tool blocks, and - in the
 strict form - argument deltas lie inside their own.
 */
module StreamBracketing {
  import opened Text
  import opened StreamTranslator
  import opened StreamProperties
  import opened StreamToolBlocks

  datatype Nesting = Violated | Outside | Inside(index: int)

  /** One event of the protocol; `strict` also places the argument deltas. */
  function Track(strict: bool, n: Nesting, e: Event): Nesting {
    match e
    case BlockStart(index, _, _) => if n.Outside? then Inside(index) else Violated
    case BlockStop(index) => if n == Inside(index) then Outside else Violated
    case ArgsDelta(at, _) => if strict && !(n.Inside? && at == Some(n.index)) then Violated else n
    case TextDelta(_) => if n.Outside? then n else Violated
    case FinishDelta(_) => if n.Outside? then n else Violated
    case EndTurnDelta => if n.Outside? then n else Violated
    case _ => n
  }

  function TrackAll(strict: bool, n: Nesting, es: seq<Event>): Nesting
    decreases |es|
  {
    if es == [] then n else TrackAll(strict, Track(strict, n, es[0]), es[1..])
  }

  lemma {:induction false} TrackAppend(strict: bool, n: Nesting, a: seq<Event>, b: seq<Event>)
    ensures TrackAll(strict, n, a + b) == TrackAll(strict, TrackAll(strict, n, a), b)
    decreases |a|
  {
    hide Track;
    if a == [] {
      assert a + b == b;
    } else {
      assert (a + b)[1..] == a[1..] + b;
      TrackAppend(strict, Track(strict, n, a[0]), a[1..], b);
    }
  }

  lemma TrackOne(strict: bool, n: Nesting, e: Event)
    ensures TrackAll(strict, n, [e]) == Track(strict, n, e)
  {
    assert [e][1..] == [];
  }

  /** The nesting that the translator's own index stands for. */
  function At(active: int): Nesting {
    if active == NONE then Outside else Inside(active)
  }

  /** No conversion recovers from here: a violation, or a block nothing can stop. */
  predicate Lost(n: Nesting) {
    n.Violated? || n == Inside(NONE)
  }

  predicate NoStrayStop(es: seq<Event>) {
    forall e <- es :: e != BlockStop(NONE)
  }

  lemma {:induction false} LostStays(strict: bool, n: Nesting, es: seq<Event>)
    requires Lost(n) && NoStrayStop(es)
    ensures Lost(TrackAll(strict, n, es))
    decreases |es|
  {
    if es == [] {
    } else {
      assert es[0] in es;
      assert forall e <- es[1..] :: e in es;
      LostStays(strict, Track(strict, n, es[0]), es[1..]);
    }
  }

  /** An argument fragment without an id of its own continues the open block. */
  predicate Continues(p: Placed) {
    p.call.arguments.Some? && !Opens(p.call)
    ==> p.active != NONE && (p.call.index == Given(Some(p.active)) || (p.call.index.Missing? && p.active == 0))
  }

  /**
   The call opens no block at the reserved index -1, by carrying it or by coming
   without an index after -2, and - strictly - continues only the open block.
   */
  predicate Fits(strict: bool, p: Placed) {
    && (Opens(p.call) ==> p.call.index != Given(Some(NONE)) && !(Unnumbered(p.call) && p.active == NONE - 1))
    && (strict ==> Continues(p))
  }

  lemma FitsIffNotReserved(strict: bool, p: Placed)
    ensures Fits(strict, p) <==>
            (Opens(p.call) ==> StartIndex(p.active, p.call) != NONE) && (strict ==> Continues(p))
  {
    hide Continues;
  }

  predicate AllFit(strict: bool, ps: seq<Placed>) {
    forall p <- ps :: Fits(strict, p)
  }

  /** The state of the protocol after events that should leave the block `active` open. */
  predicate Agrees(n: Nesting, fits: bool, active: int) {
    if fits then n == At(active) else Lost(n)
  }

  lemma CloseTracks(strict: bool, active: int)
    ensures TrackAll(strict, At(active), Close(active)) == Outside
    ensures NoStrayStop(Close(active))
  {
    if active != NONE {
      TrackOne(strict, At(active), BlockStop(active));
    }
  }

  lemma OpeningTracks(strict: bool, p: Placed)
    ensures NoStrayStop(OpeningEvents(p.active, p.call))
    ensures TrackAll(strict, At(p.active), OpeningEvents(p.active, p.call)) ==
            if Opens(p.call) then Inside(StartIndex(p.active, p.call)) else At(p.active)
  {
    hide StartIndex;
    CloseTracks(strict, p.active);
    if Opens(p.call) {
      var start := BlockStart(StartIndex(p.active, p.call), p.call.id.value, p.call.name);
      TrackAppend(strict, At(p.active), Close(p.active), [start]);
      TrackOne(strict, Outside, start);
    }
  }

  lemma CallTracks(strict: bool, p: Placed)
    ensures NoStrayStop(CallEvents(p.active, p.call))
    ensures Agrees(TrackAll(strict, At(p.active), CallEvents(p.active, p.call)),
                   Fits(strict, p), ActiveAfterCall(p.active, p.call))
  {
    FitsIffNotReserved(strict, p);
    hide OpeningEvents, StartIndex, Fits;
    OpeningTracks(strict, p);
    var n := TrackAll(strict, At(p.active), OpeningEvents(p.active, p.call));
    TrackAppend(strict, At(p.active), OpeningEvents(p.active, p.call), FragmentEvents(p.active, p.call));
    if p.call.arguments.Some? {
      TrackOne(strict, n, FragmentEvents(p.active, p.call)[0]);
    }
  }

  lemma AllFitAppend(strict: bool, a: seq<Placed>, b: seq<Placed>)
    ensures AllFit(strict, a + b) <==> AllFit(strict, a) && AllFit(strict, b)
  {
    hide Fits;
    assert forall p :: p in a + b <==> p in a || p in b;
  }

  lemma AllFitCons(strict: bool, p: Placed, ps: seq<Placed>)
    ensures AllFit(strict, [p] + ps) <==> Fits(strict, p) && AllFit(strict, ps)
  {
    hide Fits;
    AllFitAppend(strict, [p], ps);
  }

  lemma {:induction false} CallsTrack(strict: bool, active: int, calls: seq<ToolCall>)
    ensures NoStrayStop(CallsEvents(active, calls))
    ensures Agrees(TrackAll(strict, At(active), CallsEvents(active, calls)),
                   AllFit(strict, PlacedInCalls(active, calls)), ActiveAfterCalls(active, calls))
    decreases |calls|
  {
    hide CallEvents, ActiveAfterCall, Fits, At, Lost;
    if calls == [] {
    } else {
      var p := Placed(active, calls[0]);
      var next := ActiveAfterCall(active, calls[0]);
      var more := CallsEvents(next, calls[1..]);
      CallTracks(strict, p);
      CallsTrack(strict, next, calls[1..]);
      TrackAppend(strict, At(active), CallEvents(active, calls[0]), more);
      AllFitCons(strict, p, PlacedInCalls(next, calls[1..]));
      if !Fits(strict, p) {
        LostStays(strict, TrackAll(strict, At(active), CallEvents(active, calls[0])), more);
      }
    }
  }

  /** Events that may come anywhere. */
  predicate IsFree(e: Event) {
    e.MessageStart? || e.UsageDelta? || e.MessageStop? || e.ErrorEvent?
  }

  lemma {:induction false} OthersTrack(strict: bool, n: Nesting, es: seq<Event>)
    requires forall e <- es :: IsFree(e)
    ensures TrackAll(strict, n, es) == n
    decreases |es|
  {
    if es == [] {
    } else {
      assert es[0] in es;
      OthersTrack(strict, n, es[1..]);
    }
  }

  /** Closing the open block and then sending `e`: the content and finish parts of a chunk. */
  lemma ClosingTracks(strict: bool, n: Nesting, fits: bool, active: int, e: Event)
    requires Agrees(n, fits, active)
    requires !e.BlockStart? && !e.BlockStop? && !e.ArgsDelta?
    ensures Agrees(TrackAll(strict, n, Close(active) + [e]), fits, NONE)
  {
    CloseTracks(strict, active);
    TrackAppend(strict, n, Close(active), [e]);
    TrackOne(strict, TrackAll(strict, n, Close(active)), e);
    if !fits {
      LostStays(strict, n, Close(active));
    }
  }

  lemma ContentTracks(strict: bool, n: Nesting, fits: bool, active: int, content: Content)
    requires Agrees(n, fits, active)
    ensures Agrees(TrackAll(strict, n, ContentEvents(active, content)), fits,
                   if HasContent(content) then NONE else active)
  {
    hide HasContent, NormalizedText, Agrees;
    ClosingTracks(strict, n, fits, active, TextDelta(NormalizedText(content)));
  }

  lemma FinishTracks(strict: bool, n: Nesting, fits: bool, active: int, reason: Option<string>)
    requires Agrees(n, fits, active)
    ensures Agrees(TrackAll(strict, n, FinishEvents(active, reason)), fits, if Truthy(reason) then NONE else active)
  {
    hide MapFinishReason, Agrees;
    if Truthy(reason) {
      ClosingTracks(strict, n, fits, active, FinishDelta(MapFinishReason(reason.value)));
    }
  }

  lemma ChoiceTracks(strict: bool, ctx: Context, st: State, chunk: Chunk)
    requires chunk.choices != []
    ensures Agrees(TrackAll(strict, At(st.active), StepChoice(ctx, st, chunk).events),
                   AllFit(strict, PlacedInCalls(st.active, chunk.choices[0].delta.toolCalls)),
                   StepChoice(ctx, st, chunk).state.active)
  {
    hide CallsEvents, ActiveAfterCalls, AllFit, At, Lost, HasContent, Truthy, NormalizedText, MapFinishReason;
    var choice := chunk.choices[0];
    var fits := AllFit(strict, PlacedInCalls(st.active, choice.delta.toolCalls));
    var afterCalls := ActiveAfterCalls(st.active, choice.delta.toolCalls);
    var afterContent := if HasContent(choice.delta.content) then NONE else afterCalls;
    var a, b := StartEvents(ctx, st.messageStarted, chunk), CallsEvents(st.active, choice.delta.toolCalls);
    var c, d := ContentEvents(afterCalls, choice.delta.content), FinishEvents(afterContent, choice.finishReason);
    var n := At(st.active);
    OthersTrack(strict, n, a);
    TrackAppend(strict, n, a, b);
    TrackAppend(strict, n, a + b, c);
    TrackAppend(strict, n, a + b + c, d);
    CallsTrack(strict, st.active, choice.delta.toolCalls);
    n := TrackAll(strict, n, b);
    ContentTracks(strict, n, fits, afterCalls, choice.delta.content);
    n := TrackAll(strict, n, c);
    FinishTracks(strict, n, fits, afterContent, choice.finishReason);
  }

  lemma NoCallsAgree(strict: bool, active: int)
    ensures Agrees(At(active), AllFit(strict, []), active)
  {
  }

  lemma ChoiceNoStrayStop(ctx: Context, st: State, chunk: Chunk)
    requires chunk.choices != []
    ensures NoStrayStop(StepChoice(ctx, st, chunk).events)
  {
    hide CallsEvents, ActiveAfterCalls, HasContent, NormalizedText, MapFinishReason;
    CallsTrack(false, st.active, chunk.choices[0].delta.toolCalls);
  }

  lemma StepTracks(strict: bool, ctx: Context, st: State, input: Input)
    requires !Ends(input)
    ensures Agrees(TrackAll(strict, At(st.active), StepInput(ctx, st, input).events),
                   AllFit(strict, PlacedInCalls(st.active, InputCalls(input))),
                   ActiveAfterInput(st.active, input))
    ensures NoStrayStop(StepInput(ctx, st, input).events)
  {
    ActiveStep(ctx, st, input);
    hide ActiveAfterInput, Agrees;
    if HasChoice(input) {
      ChoiceTracks(strict, ctx, st, input.chunk);
      ChoiceNoStrayStop(ctx, st, input.chunk);
    } else {
      OthersTrack(strict, At(st.active), StepInput(ctx, st, input).events);
      NoCallsAgree(strict, st.active);
    }
  }

  function ActiveAfterInputs(active: int, inputs: seq<Input>): int
    decreases |inputs|
  {
    if inputs == [] then active else ActiveAfterInputs(ActiveAfterInput(active, inputs[0]), inputs[1..])
  }

  lemma {:induction false} RunTracks(strict: bool, ctx: Context, st: State, inputs: seq<Input>)
    requires forall i <- inputs :: !Ends(i)
    ensures Agrees(TrackAll(strict, At(st.active), Run(ctx, st, inputs).events),
                   AllFit(strict, PlacedCalls(st.active, inputs)),
                   ActiveAfterInputs(st.active, inputs))
    ensures NoStrayStop(Run(ctx, st, inputs).events)
    ensures Run(ctx, st, inputs).state.active == ActiveAfterInputs(st.active, inputs)
    decreases |inputs|
  {
    hide StepInput, Ends, At, Lost, AllFit, InputCalls, ActiveAfterInput;
    if inputs == [] {
      NoCallsAgree(strict, st.active);
    } else {
      var i, first := inputs[0], StepInput(ctx, st, inputs[0]);
      assert i in inputs;
      EndsIffDone(ctx, st, i);
      ActiveStep(ctx, st, i);
      StepTracks(strict, ctx, st, i);
      RunTracks(strict, ctx, first.state, inputs[1..]);
      var rest := Run(ctx, first.state, inputs[1..]).events;
      TrackAppend(strict, At(st.active), first.events, rest);
      var now := PlacedInCalls(st.active, InputCalls(i));
      AllFitAppend(strict, now, PlacedCalls(first.state.active, inputs[1..]));
      if !AllFit(strict, now) {
        LostStays(strict, TrackAll(strict, At(st.active), first.events), rest);
      }
    }
  }

  lemma ReasonTracks(strict: bool, n: Nesting, fits: bool, reason: seq<Event>)
    requires Agrees(n, fits, NONE) && (reason == [] || reason == [EndTurnDelta])
    ensures Agrees(TrackAll(strict, n, reason), fits, NONE)
  {
    TrackOne(strict, n, EndTurnDelta);
  }

  lemma JustCloseTracks(strict: bool, n: Nesting, fits: bool, active: int)
    requires Agrees(n, fits, active)
    ensures Agrees(TrackAll(strict, n, Close(active)), fits, NONE)
  {
    CloseTracks(strict, active);
    if !fits {
      LostStays(strict, n, Close(active));
    }
  }

  lemma TailTracks(strict: bool, ctx: Context, st: State, ending: Option<Input>, n: Nesting, fits: bool)
    requires ending.Some? ==> Ends(ending.value)
    requires Agrees(n, fits, st.active)
    ensures Agrees(TrackAll(strict, n, Tail(ctx, st, ending)), fits,
                   if ending == Some(Done) then NONE else st.active)
  {
    hide Agrees;
    if ending == Some(Done) {
      var close, reason := Close(st.active), if st.finishReasonSent then [] else [EndTurnDelta];
      assert Tail(ctx, st, ending) == close + reason + [MessageStop];
      JustCloseTracks(strict, n, fits, st.active);
      var closed := TrackAll(strict, n, close);
      ReasonTracks(strict, closed, fits, reason);
      TrackAppend(strict, n, close, reason);
      TrackAppend(strict, n, close + reason, [MessageStop]);
      TrackOne(strict, TrackAll(strict, closed, reason), MessageStop);
    } else {
      OthersTrack(strict, n, Tail(ctx, st, ending));
    }
  }

  /** The block a conversion leaves open: none after `[DONE]`, else whichever was open last. */
  function LeftOpen(ctx: Context, text: string): int {
    if Ending(TextInputs(ctx, text)) == Some(Done) then NONE
    else ActiveAfterInputs(NONE, Processed(ctx, text))
  }

  /**
   The protocol is kept, and ends in the state the translator believes in, if
   and only if no id-bearing call resolves to the index -1 and - in the strict
   form - every other fragment carries the index of the open block. So every
   started block is stopped if and only if, moreover, none is left open.
   */
  lemma Bracketing(strict: bool, ctx: Context, text: string)
    ensures TrackAll(strict, Outside, Conversion(ctx, text)) == At(LeftOpen(ctx, text))
            <==> AllFit(strict, Calls(ctx, text))
    ensures TrackAll(strict, Outside, Conversion(ctx, text)) == Outside
            <==> AllFit(strict, Calls(ctx, text)) && LeftOpen(ctx, text) == NONE
  {
    hide Run, TextInputs, Tail, AllFit, ActiveAfterInputs;
    var inputs := Processed(ctx, text);
    var body := Run(ctx, INITIAL, inputs);
    var ending := Ending(TextInputs(ctx, text));
    var fits := AllFit(strict, Calls(ctx, text));
    ConversionShape(ctx, text);
    RunTracks(strict, ctx, INITIAL, inputs);
    TrackAppend(strict, Outside, body.events, Tail(ctx, body.state, ending));
    TailTracks(strict, ctx, body.state, ending, TrackAll(strict, Outside, body.events), fits);
  }

  /** Backends number their calls from 0. */
  predicate NumbersFromZero(call: ToolCall) {
    call.index.Given? && call.index.value.Some? ==> 0 <= call.index.value.value
  }

  lemma {:induction false} CallsFromZeroFit(active: int, calls: seq<ToolCall>)
    requires NONE <= active && forall c <- calls :: NumbersFromZero(c)
    ensures AllFit(false, PlacedInCalls(active, calls)) && NONE <= ActiveAfterCalls(active, calls)
    decreases |calls|
  {
    if calls == [] {
    } else {
      assert calls[0] in calls;
      CallsFromZeroFit(ActiveAfterCall(active, calls[0]), calls[1..]);
    }
  }

  lemma {:induction false} InputsFromZeroFit(active: int, inputs: seq<Input>)
    requires NONE <= active && forall i <- inputs :: forall c <- InputCalls(i) :: NumbersFromZero(c)
    ensures AllFit(false, PlacedCalls(active, inputs))
    decreases |inputs|
  {
    hide NumbersFromZero, AllFit, InputCalls, ClosesBlock;
    if inputs == [] {
      NoCallsAgree(false, NONE);
      CallsFromZeroFit(NONE, []);
    } else {
      var i := inputs[0];
      assert i in inputs;
      CallsFromZeroFit(active, InputCalls(i));
      InputsFromZeroFit(ActiveAfterInput(active, i), inputs[1..]);
      AllFitAppend(false, PlacedInCalls(active, InputCalls(i)), PlacedCalls(ActiveAfterInput(active, i), inputs[1..]));
    }
  }

  /** With non-negative backend indices the brackets always hold, and `[DONE]` leaves no block open. */
  lemma BracketingFromZero(ctx: Context, text: string)
    requires forall i <- Processed(ctx, text) :: forall c <- InputCalls(i) :: NumbersFromZero(c)
    ensures TrackAll(false, Outside, Conversion(ctx, text)) == At(LeftOpen(ctx, text))
    ensures Ending(TextInputs(ctx, text)) == Some(Done) ==>
              TrackAll(false, Outside, Conversion(ctx, text)) == Outside
  {
    hide NumbersFromZero, InputCalls, TrackAll, ActiveAfterInputs, TextInputs, AllFit;
    InputsFromZeroFit(NONE, Processed(ctx, text));
    Bracketing(false, ctx, text);
  }
}
