/**
 What a client puts into each tool block: the arguments that arrive between the
 n-th start and its stop are those of the n-th call with an id and of the
 fragments that continue it, also where an index is used again.
 */
module StreamBlockContents {
  import opened Text
  import opened StreamTranslator
  import opened StreamProperties
  import opened StreamToolBlocks
  import opened StreamBracketing

  datatype ToolBlock = ToolBlock(opening: Opening, json: string)

  /** Text for the block that was started last. */
  function Extend(blocks: seq<ToolBlock>, json: string): seq<ToolBlock> {
    if blocks == [] then blocks
    else
      var last := blocks[|blocks| - 1];
      blocks[|blocks| - 1 := ToolBlock(last.opening, last.json + json)]
  }

  // ---- The client's side ----

  datatype View = View(blocks: seq<ToolBlock>, open: bool)

  /** Only starts, stops and what lies between a start and its stop count; indices are not looked at. */
  function See(v: View, e: Event): View {
    match e
    case BlockStart(index, id, name) => View(v.blocks + [ToolBlock(Opening(index, id, name), "")], true)
    case BlockStop(_) => View(v.blocks, false)
    case ArgsDelta(_, json) => if v.open then View(Extend(v.blocks, json), true) else v
    case _ => v
  }

  function SeeAll(v: View, es: seq<Event>): View
    decreases |es|
  {
    if es == [] then v else SeeAll(See(v, es[0]), es[1..])
  }

  lemma {:induction false} SeeAppend(v: View, a: seq<Event>, b: seq<Event>)
    ensures SeeAll(v, a + b) == SeeAll(SeeAll(v, a), b)
    decreases |a|
  {
    hide See;
    if a == [] {
      assert a + b == b;
    } else {
      assert (a + b)[1..] == a[1..] + b;
      SeeAppend(See(v, a[0]), a[1..], b);
    }
  }

  lemma SeeOne(v: View, e: Event)
    ensures SeeAll(v, [e]) == See(v, e)
  {
    assert [e][1..] == [];
  }

  /** The blocks in the events, each with its arguments. */
  function BlocksSeen(es: seq<Event>): seq<ToolBlock> {
    SeeAll(View([], false), es).blocks
  }

  // ---- The backend's side ----

  /** A call with an id begins a block; another one continues the last. */
  function Include(blocks: seq<ToolBlock>, p: Placed): seq<ToolBlock> {
    var json := if p.call.arguments.Some? then p.call.arguments.value else "";
    if Opens(p.call) then blocks + [ToolBlock(CallOpening(p)[0], json)]
    else if p.call.arguments.Some? then Extend(blocks, json)
    else blocks
  }

  function IncludeAll(blocks: seq<ToolBlock>, ps: seq<Placed>): seq<ToolBlock>
    decreases |ps|
  {
    if ps == [] then blocks else IncludeAll(Include(blocks, ps[0]), ps[1..])
  }

  lemma {:induction false} IncludeAppend(blocks: seq<ToolBlock>, a: seq<Placed>, b: seq<Placed>)
    ensures IncludeAll(blocks, a + b) == IncludeAll(IncludeAll(blocks, a), b)
    decreases |a|
  {
    hide Include;
    if a == [] {
      assert a + b == b;
    } else {
      assert (a + b)[1..] == a[1..] + b;
      IncludeAppend(Include(blocks, a[0]), a[1..], b);
    }
  }

  // ---- They agree ----

  /** The client has a block open exactly when the translator has. */
  predicate InStep(v: View, active: int) {
    v.open == (active != NONE) && (v.open ==> v.blocks != [])
  }

  lemma CloseSeen(v: View, active: int)
    requires InStep(v, active)
    ensures SeeAll(v, Close(active)) == View(v.blocks, false)
  {
    if active != NONE {
      SeeOne(v, BlockStop(active));
    }
  }

  lemma OpeningSeen(v: View, p: Placed)
    requires InStep(v, p.active)
    ensures SeeAll(v, OpeningEvents(p.active, p.call)) ==
            if Opens(p.call) then View(v.blocks + [ToolBlock(CallOpening(p)[0], "")], true) else v
  {
    hide StartIndex;
    if Opens(p.call) {
      var start := BlockStart(StartIndex(p.active, p.call), p.call.id.value, p.call.name);
      CloseSeen(v, p.active);
      SeeAppend(v, Close(p.active), [start]);
      SeeOne(View(v.blocks, false), start);
    }
  }

  lemma ExtendNew(blocks: seq<ToolBlock>, opening: Opening, json: string)
    ensures Extend(blocks + [ToolBlock(opening, "")], json) == blocks + [ToolBlock(opening, json)]
  {
    assert "" + json == json;
  }

  lemma ExtendKeeps(blocks: seq<ToolBlock>, json: string)
    ensures |Extend(blocks, json)| == |blocks|
  {
  }

  lemma CallSeen(v: View, p: Placed)
    requires InStep(v, p.active) && Fits(true, p)
    ensures var after := SeeAll(v, CallEvents(p.active, p.call));
            after.blocks == Include(v.blocks, p) && InStep(after, ActiveAfterCall(p.active, p.call))
  {
    FitsIffNotReserved(true, p);
    hide StartIndex, OpeningEvents, Extend, FragmentIndex, Fits;
    var started := SeeAll(v, OpeningEvents(p.active, p.call));
    OpeningSeen(v, p);
    SeeAppend(v, OpeningEvents(p.active, p.call), FragmentEvents(p.active, p.call));
    if p.call.arguments.Some? {
      SeeOne(started, FragmentEvents(p.active, p.call)[0]);
      ExtendKeeps(started.blocks, p.call.arguments.value);
      if Opens(p.call) {
        ExtendNew(v.blocks, CallOpening(p)[0], p.call.arguments.value);
      }
    }
  }

  lemma {:induction false} CallsSeen(v: View, active: int, calls: seq<ToolCall>)
    requires InStep(v, active) && AllFit(true, PlacedInCalls(active, calls))
    ensures var after := SeeAll(v, CallsEvents(active, calls));
            && after.blocks == IncludeAll(v.blocks, PlacedInCalls(active, calls))
            && InStep(after, ActiveAfterCalls(active, calls))
    decreases |calls|
  {
    hide CallEvents, ActiveAfterCall, Fits, InStep, Include;
    if calls == [] {
    } else {
      var p, next := Placed(active, calls[0]), ActiveAfterCall(active, calls[0]);
      var more := PlacedInCalls(next, calls[1..]);
      AllFitCons(true, p, more);
      CallSeen(v, p);
      SeeAppend(v, CallEvents(active, calls[0]), CallsEvents(next, calls[1..]));
      CallsSeen(SeeAll(v, CallEvents(active, calls[0])), next, calls[1..]);
      assert ([p] + more)[1..] == more;
    }
  }

  /** Text, a finish reason and the final step close the open block. */
  lemma ClosingSeen(v: View, active: int, e: Event)
    requires InStep(v, active)
    requires !e.BlockStart? && !e.BlockStop? && !e.ArgsDelta?
    ensures var after := SeeAll(v, Close(active) + [e]);
            after.blocks == v.blocks && InStep(after, NONE)
  {
    CloseSeen(v, active);
    SeeAppend(v, Close(active), [e]);
    SeeOne(View(v.blocks, false), e);
  }

  lemma {:induction false} OthersSeen(v: View, es: seq<Event>)
    requires forall e <- es :: !e.BlockStart? && !e.BlockStop? && !e.ArgsDelta?
    ensures SeeAll(v, es) == v
    decreases |es|
  {
    if es == [] {
    } else {
      assert es[0] in es;
      OthersSeen(v, es[1..]);
    }
  }

  lemma ContentSeen(v: View, active: int, content: Content)
    requires InStep(v, active)
    ensures var after := SeeAll(v, ContentEvents(active, content));
            after.blocks == v.blocks && InStep(after, if HasContent(content) then NONE else active)
  {
    hide HasContent, NormalizedText, InStep;
    ClosingSeen(v, active, TextDelta(NormalizedText(content)));
  }

  lemma FinishSeen(v: View, active: int, reason: Option<string>)
    requires InStep(v, active)
    ensures var after := SeeAll(v, FinishEvents(active, reason));
            after.blocks == v.blocks && InStep(after, if Truthy(reason) then NONE else active)
  {
    hide MapFinishReason, InStep;
    if Truthy(reason) {
      ClosingSeen(v, active, FinishDelta(MapFinishReason(reason.value)));
    }
  }

  lemma ChoiceSeen(v: View, ctx: Context, st: State, chunk: Chunk)
    requires chunk.choices != [] && InStep(v, st.active)
    requires AllFit(true, PlacedInCalls(st.active, chunk.choices[0].delta.toolCalls))
    ensures var step := StepChoice(ctx, st, chunk);
            var after := SeeAll(v, step.events);
            && after.blocks == IncludeAll(v.blocks, PlacedInCalls(st.active, chunk.choices[0].delta.toolCalls))
            && InStep(after, step.state.active)
  {
    hide CallsEvents, ActiveAfterCalls, AllFit, InStep, HasContent, NormalizedText, MapFinishReason, IncludeAll,
      ContentEvents, FinishEvents, See;
    var choice := chunk.choices[0];
    var afterCalls := ActiveAfterCalls(st.active, choice.delta.toolCalls);
    var afterContent := if HasContent(choice.delta.content) then NONE else afterCalls;
    var a, b := StartEvents(ctx, st.messageStarted, chunk), CallsEvents(st.active, choice.delta.toolCalls);
    var c, d := ContentEvents(afterCalls, choice.delta.content), FinishEvents(afterContent, choice.finishReason);
    OthersSeen(v, a);
    SeeAppend(v, a, b);
    SeeAppend(v, a + b, c);
    SeeAppend(v, a + b + c, d);
    CallsSeen(v, st.active, choice.delta.toolCalls);
    var w := SeeAll(v, b);
    ContentSeen(w, afterCalls, choice.delta.content);
    FinishSeen(SeeAll(w, c), afterContent, choice.finishReason);
  }

  lemma StepSeen(v: View, ctx: Context, st: State, input: Input)
    requires !Ends(input) && InStep(v, st.active)
    requires AllFit(true, PlacedInCalls(st.active, InputCalls(input)))
    ensures var step := StepInput(ctx, st, input);
            var after := SeeAll(v, step.events);
            && after.blocks == IncludeAll(v.blocks, PlacedInCalls(st.active, InputCalls(input)))
            && InStep(after, step.state.active)
  {
    hide InStep, AllFit, StepChoice;
    if HasChoice(input) {
      ChoiceSeen(v, ctx, st, input.chunk);
    } else {
      OthersSeen(v, StepInput(ctx, st, input).events);
    }
  }

  lemma {:induction false} RunSeen(v: View, ctx: Context, st: State, inputs: seq<Input>)
    requires forall i <- inputs :: !Ends(i)
    requires InStep(v, st.active) && AllFit(true, PlacedCalls(st.active, inputs))
    ensures var run := Run(ctx, st, inputs);
            var after := SeeAll(v, run.events);
            after.blocks == IncludeAll(v.blocks, PlacedCalls(st.active, inputs)) && InStep(after, run.state.active)
    decreases |inputs|
  {
    hide StepInput, Ends, InStep, AllFit, InputCalls, ActiveAfterInput, See, Include;
    if inputs == [] {
    } else {
      var i, first := inputs[0], StepInput(ctx, st, inputs[0]);
      assert i in inputs;
      EndsIffDone(ctx, st, i);
      ActiveStep(ctx, st, i);
      var now, later := PlacedInCalls(st.active, InputCalls(i)), PlacedCalls(first.state.active, inputs[1..]);
      AllFitAppend(true, now, later);
      StepSeen(v, ctx, st, i);
      RunSeen(SeeAll(v, first.events), ctx, first.state, inputs[1..]);
      SeeAppend(v, first.events, Run(ctx, first.state, inputs[1..]).events);
      IncludeAppend(v.blocks, now, later);
    }
  }

  lemma TailSeen(v: View, ctx: Context, st: State, ending: Option<Input>)
    requires ending.Some? ==> Ends(ending.value)
    requires InStep(v, st.active)
    ensures SeeAll(v, Tail(ctx, st, ending)).blocks == v.blocks
  {
    if ending == Some(Done) {
      var rest := (if st.finishReasonSent then [] else [EndTurnDelta]) + [MessageStop];
      assert Tail(ctx, st, ending) == Close(st.active) + rest;
      CloseSeen(v, st.active);
      SeeAppend(v, Close(st.active), rest);
      OthersSeen(View(v.blocks, false), rest);
    } else {
      OthersSeen(v, Tail(ctx, st, ending));
    }
  }

  /**
   If the fragments fit, the n-th block a client sees has the id, name and index
   of the n-th call with an id, and as arguments exactly those of that call and
   of the calls up to the next one with an id.
   */
  lemma BlocksConserved(ctx: Context, text: string)
    requires AllFit(true, Calls(ctx, text))
    ensures BlocksSeen(Conversion(ctx, text)) == IncludeAll([], Calls(ctx, text))
  {
    hide Run, TextInputs, Tail, AllFit, IncludeAll, SeeAll;
    var inputs, start := Processed(ctx, text), View([], false);
    var body := Run(ctx, INITIAL, inputs);
    var ending := Ending(TextInputs(ctx, text));
    ConversionShape(ctx, text);
    RunSeen(start, ctx, INITIAL, inputs);
    SeeAppend(start, body.events, Tail(ctx, body.state, ending));
    TailSeen(SeeAll(start, body.events), ctx, body.state, ending);
  }
}
