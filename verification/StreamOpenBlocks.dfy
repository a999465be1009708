/**
 Streams on which the block protocol fails, one for each clause of its exact
 condition: a call at the reserved index -1, a call that is numbered -1, and a
 stream that ends without `[DONE]`.
 */
module StreamOpenBlocks {
  import opened Sequences
  import opened Text
  import opened SseFramer
  import opened StreamCuts
  import opened StreamTranslator
  import opened StreamProperties
  import opened StreamToolBlocks
  import opened StreamBracketing

  // ---- Sending values ----

  function DataBlock(v: string): seq<string> {
    [DATA + v]
  }

  /** The text of a stream with one event per value. */
  function Sent(values: seq<string>): string {
    Glue(FlatMap(DataBlock, values))
  }

  lemma {:induction false} SentBlocks(values: seq<string>)
    requires forall v <- values :: IsValue(v)
    ensures forall b <- FlatMap(DataBlock, values) :: !HasSeparator(b + "\n")
    ensures Payloads(FlatMap(DataBlock, values)) == values
  {
    hide IsValue, HasSeparator, Payload;
    if values == [] {
    } else {
      var v := values[0];
      assert v in values;
      ValueLine(v);
      LineHasNoSeparator(DATA + v);
      OneLinePayload(v);
      SentBlocks(values[1..]);
      FlatMapCons(Payload, DATA + v, FlatMap(DataBlock, values[1..]));
    }
  }

  lemma EmptyBlock()
    ensures Payload("") == [] && !HasSeparator("" + "\n") && !HasSeparator("") && Closed("") == "\n\n"
  {
  }

  /** Values sent as events are read as the payloads of the text, one by one. */
  lemma SentIsRead(ctx: Context, values: seq<string>)
    requires forall v <- values :: IsValue(v)
    ensures TextInputs(ctx, Sent(values)) == Inputs(ctx, values)
  {
    hide IsValue, HasSeparator, Payload, Frame, Inputs, Closed;
    var blocks := FlatMap(DataBlock, values);
    SentBlocks(values);
    EmptyBlock();
    FlatMapSnoc(Closed, blocks, "");
    assert Sent(values) + "\n\n" == Glue(blocks + [""]) + "";
    FramingIsUnique(Sent(values) + "\n\n", Framing(blocks + [""], ""));
    FlatMapSnoc(Payload, blocks, "");
    assert Payloads(blocks + [""]) == values;
  }

  // ---- The streams ----

  function CallAt(index: IndexField): ToolCall {
    ToolCall(Some("a"), index, None, None)
  }

  function CallsChunk(calls: seq<ToolCall>): Chunk {
    Chunk(None, None, None, [Choice(Delta(None, calls, NoContent), None)])
  }

  /** A backend whose payload `{}` stands for a chunk with these calls. */
  function Calling(calls: seq<ToolCall>): Context {
    Context("", "", (s: string) => if s == "{}" then Loaded(CallsChunk(calls)) else NotJson)
  }

  lemma ReadsCalls(calls: seq<ToolCall>, v: string)
    requires v == "{}"
    ensures IsValue(v) && Interpret(Calling(calls), v) == Received(CallsChunk(calls))
  {
    assert !IsSpace('{') && !IsSpace('}');
    StripPadding("", v, "");
    assert "" + v + "" == v;
  }

  lemma ReadsDone(ctx: Context, v: string)
    requires v == "[DONE]"
    ensures IsValue(v) && Interpret(ctx, v) == Done
  {
    assert !IsSpace('[');
    DoneWithPadding(ctx, "", "");
    assert "" + v + "" == v;
  }

  /** The calls, then `[DONE]`. */
  lemma CallsThenDone(calls: seq<ToolCall>)
    ensures TextInputs(Calling(calls), Sent(["{}", "[DONE]"])) == [Received(CallsChunk(calls)), Done]
  {
    hide Interpret, IsValue, Sent, TextInputs;
    var ctx := Calling(calls);
    ReadsCalls(calls, "{}");
    ReadsDone(ctx, "[DONE]");
    SentIsRead(ctx, ["{}", "[DONE]"]);
    assert ["{}", "[DONE]"] == ["{}"] + ["[DONE]"];
    FlatMapCons(Reading(ctx), "{}", ["[DONE]"]);
    FlatMapOne(Reading(ctx), "[DONE]");
  }

  /** The calls and no `[DONE]`. */
  lemma CallsAlone(calls: seq<ToolCall>)
    ensures TextInputs(Calling(calls), Sent(["{}"])) == [Received(CallsChunk(calls))]
  {
    hide Interpret, IsValue, Sent, TextInputs;
    var ctx := Calling(calls);
    ReadsCalls(calls, "{}");
    SentIsRead(ctx, ["{}"]);
    FlatMapOne(Reading(ctx), "{}");
  }

  lemma RunOfCalls(calls: seq<ToolCall>)
    ensures var ctx := Calling(calls);
            var active := ActiveAfterCalls(NONE, calls);
            && Run(ctx, INITIAL, [Received(CallsChunk(calls))]) ==
               Step(State(false, false, active), CallsEvents(NONE, calls), Going)
            && Run(ctx, INITIAL, [Received(CallsChunk(calls)), Done]) ==
               Step(State(false, true, NONE), CallsEvents(NONE, calls) + (Close(active) + [EndTurnDelta, MessageStop]),
                    Finished)
  {
    hide CallsEvents, ActiveAfterCalls, Calling;
    var ctx, first := Calling(calls), Received(CallsChunk(calls));
    var st := State(false, false, ActiveAfterCalls(NONE, calls));
    assert StepInput(ctx, INITIAL, first) == Step(st, CallsEvents(NONE, calls), Going) by {
      assert CallsEvents(NONE, calls) + [] == CallsEvents(NONE, calls);
    }
    assert StepInput(ctx, st, Done).events == Close(st.active) + [EndTurnDelta, MessageStop];
    assert [first, Done][1..] == [Done] && [first][1..] == [] && [Done][1..] == [];
    hide StepInput;
    RunFirst(ctx, INITIAL, [first]);
    RunFirst(ctx, INITIAL, [first, Done]);
    RunFirst(ctx, st, [Done]);
  }

  lemma ViolatedBy(es: seq<Event>, index: int)
    requires |es| == 3 && es[0] == BlockStart(index, "a", None) && es[1] == EndTurnDelta && es[2] == MessageStop
    ensures TrackAll(false, Outside, es).Violated?
  {
    assert es[1..][1..] == [es[2]];
    TrackOne(false, Violated, es[2]);
  }

  /** A block that a backend opens at index -1 is never stopped, not even by `[DONE]`. */
  lemma ReservedIndexIsNeverStopped()
    ensures var ctx := Calling([CallAt(Given(Some(-1)))]);
            var es := Conversion(ctx, Sent(["{}", "[DONE]"]));
            && es == [BlockStart(-1, "a", None), EndTurnDelta, MessageStop]
            && TrackAll(false, Outside, es).Violated?
  {
    hide Run, TextInputs, Sent;
    var calls := [CallAt(Given(Some(-1)))];
    CallsThenDone(calls);
    RunOfCalls(calls);
    assert calls[1..] == [];
    assert CallsEvents(NONE, calls) == [BlockStart(-1, "a", None)];
    ViolatedBy([BlockStart(-1, "a", None), EndTurnDelta, MessageStop], -1);
  }

  /** The number after -2 is -1: a call without an index falls on it although no call carries it. */
  lemma NumberedMinusOne()
    ensures var calls := [CallAt(Given(Some(-2))), CallAt(Missing)];
            && Conversion(Calling(calls), Sent(["{}", "[DONE]"])) ==
               [BlockStart(-2, "a", None), BlockStop(-2), BlockStart(-1, "a", None), EndTurnDelta, MessageStop]
            && !AllFit(false, PlacedInCalls(NONE, calls))
  {
    hide Run, TextInputs, Sent;
    var calls := [CallAt(Given(Some(-2))), CallAt(Missing)];
    CallsThenDone(calls);
    RunOfCalls(calls);
    assert calls[1..] == [CallAt(Missing)] && [CallAt(Missing)][1..] == [];
    assert CallsEvents(-2, [CallAt(Missing)]) == [BlockStop(-2), BlockStart(-1, "a", None)];
    assert CallsEvents(NONE, calls) == [BlockStart(-2, "a", None), BlockStop(-2), BlockStart(-1, "a", None)];
    var p := Placed(-2, CallAt(Missing));
    assert PlacedInCalls(NONE, calls)[1] == p && !Fits(false, p);
  }

  /** Without `[DONE]` the last block is left open, although the stream is closed. */
  lemma NoDoneLeavesBlockOpen()
    ensures var ctx := Calling([CallAt(Given(Some(0)))]);
            var es := Conversion(ctx, Sent(["{}"]));
            && es == [BlockStart(0, "a", None), MessageStop]
            && TrackAll(true, Outside, es) == Inside(0)
  {
    hide Run, TextInputs, Sent;
    var calls := [CallAt(Given(Some(0)))];
    CallsAlone(calls);
    RunOfCalls(calls);
    assert calls[1..] == [];
    assert CallsEvents(NONE, calls) == [BlockStart(0, "a", None)];
    var es := [BlockStart(0, "a", None), MessageStop];
    assert es[1..] == [MessageStop];
    TrackOne(true, Inside(0), MessageStop);
  }
}
