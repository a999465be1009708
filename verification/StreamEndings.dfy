/** Headers, stop reasons and the last event of a conversion. */
module StreamEndings {
  import opened Sequences
  import opened Text
  import opened Json
  import opened StreamTranslator
  import opened StreamProperties

  // ---- Stop reasons ----

  function EventReason(e: Event): seq<string> {
    match e
    case FinishDelta(reason) => [reason]
    case EndTurnDelta => ["end_turn"]
    case _ => []
  }

  function EventDefault(e: Event): seq<Event> {
    if e.EndTurnDelta? then [e] else []
  }

  function InputReason(input: Input): seq<string> {
    if HasChoice(input) && Truthy(input.chunk.choices[0].finishReason)
    then [MapFinishReason(input.chunk.choices[0].finishReason.value)]
    else []
  }

  function NoDefault(input: Input): seq<Event> {
    []
  }

  lemma StepReason(ctx: Context, st: State, input: Input)
    requires !Ends(input)
    ensures FlatMap(EventReason, StepInput(ctx, st, input).events) == InputReason(input)
  {
    hide NormalizedText, HasContent, MapFinishReason, StepInput;
    StepInsideBody(ctx, st, input, EventReason);
    if !HasChoice(input) && input.Received? {
      FlatMapNothing(EventReason, UsageEvents(input.chunk.usage));
    }
  }

  lemma StepDefault(ctx: Context, st: State, input: Input)
    requires !Ends(input)
    ensures FlatMap(EventDefault, StepInput(ctx, st, input).events) == []
  {
    hide NormalizedText, HasContent, MapFinishReason, StepInput;
    StepInsideBody(ctx, st, input, EventDefault);
    if !HasChoice(input) && input.Received? {
      FlatMapNothing(EventDefault, UsageEvents(input.chunk.usage));
    }
  }

  lemma StepSent(ctx: Context, st: State, input: Input)
    requires !Ends(input)
    ensures StepInput(ctx, st, input).state.finishReasonSent == (st.finishReasonSent || InputReason(input) != [])
  {
    hide MapFinishReason, CallsEvents;
  }

  lemma {:induction false} ReasonSent(ctx: Context, st: State, inputs: seq<Input>)
    requires forall i <- inputs :: !Ends(i)
    ensures Run(ctx, st, inputs).state.finishReasonSent ==
            (st.finishReasonSent || FlatMap(InputReason, inputs) != [])
    decreases |inputs|
  {
    hide StepInput, Ends, InputReason;
    if inputs == [] {
    } else {
      assert inputs[0] in inputs;
      EndsIffDone(ctx, st, inputs[0]);
      StepSent(ctx, st, inputs[0]);
      ReasonSent(ctx, StepInput(ctx, st, inputs[0]).state, inputs[1..]);
    }
  }

  lemma TailReason(ctx: Context, st: State, ending: Option<Input>)
    requires ending.Some? ==> Ends(ending.value)
    ensures FlatMap(EventReason, Tail(ctx, st, ending)) ==
            if ending == Some(Done) && !st.finishReasonSent then ["end_turn"] else []
    ensures FlatMap(EventDefault, Tail(ctx, st, ending)) ==
            if ending == Some(Done) && !st.finishReasonSent then [EndTurnDelta] else []
  {
    if ending == Some(Done) && !st.finishReasonSent {
      var close := Close(st.active);
      FlatMapNothing(EventReason, close);
      FlatMapNothing(EventDefault, close);
      FlatMapSnoc(EventReason, close, EndTurnDelta);
      FlatMapSnoc(EventDefault, close, EndTurnDelta);
      FlatMapSnoc(EventReason, close + [EndTurnDelta], MessageStop);
      FlatMapSnoc(EventDefault, close + [EndTurnDelta], MessageStop);
    } else {
      FlatMapNothing(EventReason, Tail(ctx, st, ending));
      FlatMapNothing(EventDefault, Tail(ctx, st, ending));
    }
  }

  /**
   The stop reasons sent are the mapped finish reasons of the processed chunks,
   one each and in order; `end_turn` is added exactly when `[DONE]` is reached
   and there was none, so a stream ended by `[DONE]` has at least one.
   */
  lemma StopReasons(ctx: Context, text: string)
    ensures var reasons := FlatMap(InputReason, Processed(ctx, text));
            var byDefault := Ending(TextInputs(ctx, text)) == Some(Done) && reasons == [];
            && FlatMap(EventReason, Conversion(ctx, text)) == (if byDefault then ["end_turn"] else reasons)
            && FlatMap(EventDefault, Conversion(ctx, text)) == (if byDefault then [EndTurnDelta] else [])
  {
    hide StepInput, Ends, InputReason, Run, TextInputs, Tail;
    forall s: State, i: Input | !Ends(i)
      ensures FlatMap(EventReason, StepInput(ctx, s, i).events) == InputReason(i)
      ensures FlatMap(EventDefault, StepInput(ctx, s, i).events) == NoDefault(i)
    {
      StepReason(ctx, s, i);
      StepDefault(ctx, s, i);
    }
    ConversionProjects(ctx, text, EventReason, InputReason);
    ConversionProjects(ctx, text, EventDefault, NoDefault);
    FlatMapNothing(NoDefault, Processed(ctx, text));
    ReasonSent(ctx, INITIAL, Processed(ctx, text));
    TailReason(ctx, Run(ctx, INITIAL, Processed(ctx, text)).state, Ending(TextInputs(ctx, text)));
  }

  // ---- The message header ----

  function EventHeader(e: Event): seq<Event> {
    if e.MessageStart? then [e] else []
  }

  predicate Introduces(input: Input) {
    HasChoice(input) && Truthy(input.chunk.choices[0].delta.role)
  }

  /** The header the first role-bearing chunk calls for. */
  function Header(ctx: Context, inputs: seq<Input>): (r: seq<Event>)
    ensures |r| <= 1
    ensures r != [] <==> exists i <- inputs :: Introduces(i)
  {
    if inputs == [] then []
    else if Introduces(inputs[0]) then
      var id := inputs[0].chunk.id;
      [MessageStart(if id.Some? then id.value else Str(ctx.sessionId), ctx.model)]
    else Header(ctx, inputs[1..])
  }

  lemma StepHeader(ctx: Context, st: State, input: Input)
    requires !Ends(input)
    ensures FlatMap(EventHeader, StepInput(ctx, st, input).events) ==
            if st.messageStarted then [] else Header(ctx, [input])
    ensures StepInput(ctx, st, input).state.messageStarted == (st.messageStarted || Introduces(input))
  {
    if HasChoice(input) {
      assert StepChoice(ctx, st, input.chunk).state.messageStarted == (st.messageStarted || Introduces(input));
      hide StepChoice;
      ChoiceOutsideTools(ctx, st, input.chunk, EventHeader);
      var start := StartEvents(ctx, st.messageStarted, input.chunk);
      if start != [] {
        FlatMapOne(EventHeader, start[0]);
      }
      assert [input][1..] == [];
    } else {
      FlatMapNothing(EventHeader, StepInput(ctx, st, input).events);
    }
  }

  lemma {:induction false} RunHeader(ctx: Context, st: State, inputs: seq<Input>)
    requires forall i <- inputs :: !Ends(i)
    ensures FlatMap(EventHeader, Run(ctx, st, inputs).events) == if st.messageStarted then [] else Header(ctx, inputs)
    decreases |inputs|
  {
    hide StepInput, Ends, Introduces;
    if inputs == [] {
    } else {
      var first := StepInput(ctx, st, inputs[0]);
      assert inputs[0] in inputs;
      EndsIffDone(ctx, st, inputs[0]);
      StepHeader(ctx, st, inputs[0]);
      RunHeader(ctx, first.state, inputs[1..]);
      FlatMapAppend(EventHeader, first.events, Run(ctx, first.state, inputs[1..]).events);
      assert [inputs[0]][1..] == [];
    }
  }

  /** At most one header, sent for the first chunk that names a role. */
  lemma OneHeader(ctx: Context, text: string)
    ensures FlatMap(EventHeader, Conversion(ctx, text)) == Header(ctx, Processed(ctx, text))
  {
    hide StepInput, Ends, Run, TextInputs, Tail, Header;
    var body := Run(ctx, INITIAL, Processed(ctx, text));
    var ending := Ending(TextInputs(ctx, text));
    ConversionShape(ctx, text);
    RunHeader(ctx, INITIAL, Processed(ctx, text));
    TailIgnored(ctx, body.state, ending, EventHeader);
    FlatMapAppend(EventHeader, body.events, Tail(ctx, body.state, ending));
  }

  // ---- The last event ----

  predicate IsEnd(e: Event) {
    e.MessageStop? || e.ErrorEvent?
  }

  function EventEnd(e: Event): seq<Event> {
    if IsEnd(e) then [e] else []
  }

  lemma StepEnd(ctx: Context, st: State, input: Input)
    requires !Ends(input)
    ensures FlatMap(EventEnd, StepInput(ctx, st, input).events) == []
  {
    if HasChoice(input) {
      hide StepChoice;
      ChoiceOutsideTools(ctx, st, input.chunk, EventEnd);
      FlatMapNothing(EventEnd, StartEvents(ctx, st.messageStarted, input.chunk));
    } else {
      FlatMapNothing(EventEnd, StepInput(ctx, st, input).events);
    }
  }

  lemma {:induction false} RunHasNoEnd(ctx: Context, st: State, inputs: seq<Input>)
    requires forall i <- inputs :: !Ends(i)
    ensures forall e <- Run(ctx, st, inputs).events :: !IsEnd(e)
  {
    hide StepInput, Ends;
    forall s: State, i: Input | !Ends(i)
      ensures FlatMap(EventEnd, StepInput(ctx, s, i).events) == NoDefault(i)
    {
      StepEnd(ctx, s, i);
    }
    RunProjects(ctx, st, inputs, EventEnd, NoDefault);
    FlatMapNothing(NoDefault, inputs);
    NothingInFlatMap(EventEnd, Run(ctx, st, inputs).events);
  }

  /** The event a stream closes with. */
  function LastEvent(ending: Option<Input>): Event {
    if ending.Some? && ending.value.Received? && ending.value.chunk.error.Some?
    then ConvertError(ending.value.chunk.error.value)
    else MessageStop
  }

  lemma TailShape(ctx: Context, st: State, ending: Option<Input>)
    requires ending != Some(Malformed) && (ending.Some? ==> Ends(ending.value))
    ensures var tail := Tail(ctx, st, ending);
            && tail != []
            && tail[|tail| - 1] == LastEvent(ending)
            && forall k | 0 <= k < |tail| - 1 :: !IsEnd(tail[k])
  {
    hide ConvertError;
  }

  lemma NoTail(ctx: Context, st: State)
    ensures Tail(ctx, st, Some(Malformed)) == []
  {
  }

  lemma RaisesOnlyOnMalformed(ctx: Context, st: State, input: Input)
    ensures StepInput(ctx, st, input).status.Raised? <==> input.Malformed?
  {
  }

  lemma RaisesIffMalformed(ctx: Context, text: string)
    ensures Raises(ctx, text) <==> Ending(TextInputs(ctx, text)) == Some(Malformed)
  {
    hide Run, TextInputs;
    var inputs := TextInputs(ctx, text);
    RunOfBody(ctx, INITIAL, inputs);
    if Ending(inputs).Some? {
      RaisesOnlyOnMalformed(ctx, Run(ctx, INITIAL, Before(inputs)).state, Ending(inputs).value);
    }
  }

  lemma EndsOnce(init: seq<Event>, tail: seq<Event>)
    requires tail != [] && (forall e <- init :: !IsEnd(e)) && forall k | 0 <= k < |tail| - 1 :: !IsEnd(tail[k])
    ensures var es := init + tail;
            es[|es| - 1] == tail[|tail| - 1] && forall k | 0 <= k < |es| - 1 :: !IsEnd(es[k])
  {
    hide IsEnd;
    var es := init + tail;
    forall k | 0 <= k < |es| - 1
      ensures !IsEnd(es[k])
    {
      if k < |init| {
        assert es[k] in init;
      } else {
        assert es[k] == tail[k - |init|];
      }
    }
  }

  lemma LastEventEnds(ending: Option<Input>)
    ensures IsEnd(LastEvent(ending))
  {
  }

  /**
   Every conversion that completes ends with exactly one closing event and
   nothing follows it: an `error` if an error chunk comes before any `[DONE]`,
   else `message_stop`. One that is broken off by an exception has none.
   */
  lemma OneEnding(ctx: Context, text: string)
    ensures Raises(ctx, text) <==> Ending(TextInputs(ctx, text)) == Some(Malformed)
    ensures Raises(ctx, text) ==> forall e <- Conversion(ctx, text) :: !IsEnd(e)
    ensures !Raises(ctx, text) ==>
              var es := Conversion(ctx, text);
              && es != []
              && es[|es| - 1] == LastEvent(Ending(TextInputs(ctx, text)))
              && IsEnd(es[|es| - 1])
              && forall k | 0 <= k < |es| - 1 :: !IsEnd(es[k])
  {
    hide Tail, Run, TextInputs, Ends, IsEnd, LastEvent, ConvertError, StepInput;
    var body := Run(ctx, INITIAL, Processed(ctx, text));
    var ending := Ending(TextInputs(ctx, text));
    ConversionShape(ctx, text);
    RaisesIffMalformed(ctx, text);
    RunHasNoEnd(ctx, INITIAL, Processed(ctx, text));
    if ending == Some(Malformed) {
      NoTail(ctx, body.state);
    } else {
      TailShape(ctx, body.state, ending);
      LastEventEnds(ending);
      EndsOnce(body.events, Tail(ctx, body.state, ending));
    }
  }
}
