/**
 The laws of a conversion over the payload strings of its text and what
 `json.loads` makes of them: what stops a stream, what is sent last, and whose
 text and usage are sent.
 */
module StreamPayloads {
  import opened Sequences
  import opened Text
  import opened Json
  import opened StreamTranslator
  import opened StreamProperties
  import opened StreamEndings
  import opened StreamReference

  /** There is exactly one first stop. */
  lemma FirstStopExists(ctx: Context, ps: seq<string>) returns (n: nat)
    ensures FirstStop(ctx, ps, n) && forall m: nat | FirstStop(ctx, ps, m) :: m == n
  {
    hide Stops;
    n := 0;
    while n < |ps| && !Stops(ctx, ps[n])
      invariant n <= |ps| && forall i | 0 <= i < n :: !Stops(ctx, ps[i])
    {
      n := n + 1;
    }
    assert FirstStop(ctx, ps, n);
  }

  // ---- The end ----

  /** The event a stream has to end with. */
  function LastTold(ctx: Context, ps: seq<string>, n: nat): Event
    requires n < |ps| ==> !Breaks(ctx, ps[n])
  {
    if n < |ps| && ReportsError(ctx, ps[n]) then Reported(ctx.loads(Strip(ps[n])).chunk.error.value) else MessageStop
  }

  lemma LastIsTold(ctx: Context, ps: seq<string>, n: nat)
    requires FirstStop(ctx, ps, n) && (n < |ps| ==> !Breaks(ctx, ps[n]))
    ensures LastEvent(if n == |ps| then None else Some(Interpret(ctx, ps[n]))) == LastTold(ctx, ps, n)
  {
    hide ConvertError, Reported, Strip;
    if n < |ps| {
      PayloadMeaning(ctx, ps[n]);
      if ReportsError(ctx, ps[n]) {
        ErrorIsReported(ctx.loads(Strip(ps[n])).chunk.error.value);
      }
    }
  }

  /**
   A stream raises exactly if the first payload that stops it is JSON that is no
   chunk. Otherwise its last event is the error of that payload if it reports
   one, and `message_stop` in all other cases; no event before it is of either kind.
   */
  lemma HowStreamsEnd(ctx: Context, text: string, n: nat)
    requires FirstStop(ctx, PayloadsOf(text), n)
    ensures var ps, es := PayloadsOf(text), Conversion(ctx, text);
            && (Raises(ctx, text) <==> n < |ps| && Breaks(ctx, ps[n]))
            && (Raises(ctx, text) ==> forall e <- es :: !e.MessageStop? && !e.ErrorEvent?)
            && (!Raises(ctx, text) ==>
                  && es != [] && es[|es| - 1] == LastTold(ctx, ps, n)
                  && forall k | 0 <= k < |es| - 1 :: !es[k].MessageStop? && !es[k].ErrorEvent?)
  {
    var ps := PayloadsOf(text);
    BeforeStop(ctx, ps, n);
    OneEnding(ctx, text);
    if n < |ps| {
      PayloadMeaning(ctx, ps[n]);
    }
    hide Raises, Conversion, PayloadsOf, LastEvent, Interpret, Breaks, Inputs, LastTold;
    if !Raises(ctx, text) {
      LastIsTold(ctx, ps, n);
    }
  }

  // ---- Text and usage ----

  function ChunkText(chunk: Chunk): string {
    if chunk.choices == [] then "" else TextOf(chunk.choices[0].delta.content)
  }

  function ChunkUsage(chunk: Chunk): seq<(Json, Json)> {
    match chunk.usage
    case None => []
    case Some(u) => if chunk.choices == [] then [(TokenCount(u.promptTokens), TokenCount(u.completionTokens))] else []
  }

  lemma InputTextOfChunk(input: Input)
    requires !Ends(input)
    ensures InputText(input) == FlatMap(ChunkText, ChunkReceived(input))
  {
    hide NormalizedText, TextOf;
    if input.Received? {
      FlatMapOne(ChunkText, input.chunk);
      if input.chunk.choices != [] {
        ContentIsTold(input.chunk.choices[0].delta.content);
      }
    }
  }

  lemma InputUsageOfChunk(input: Input)
    requires !Ends(input)
    ensures InputUsage(input) == FlatMap(ChunkUsage, ChunkReceived(input))
  {
    if input.Received? {
      FlatMapOne(ChunkUsage, input.chunk);
    }
  }

  lemma {:induction false} ThroughChunks<T>(inputs: seq<Input>, ofInput: Input -> seq<T>, ofChunk: Chunk -> seq<T>)
    requires forall i <- inputs :: ofInput(i) == FlatMap(ofChunk, ChunkReceived(i))
    ensures FlatMap(ofInput, inputs) == FlatMap(ofChunk, FlatMap(ChunkReceived, inputs))
  {
    hide ChunkReceived;
    if inputs == [] {
    } else {
      assert inputs[0] in inputs;
      ThroughChunks(inputs[1..], ofInput, ofChunk);
      FlatMapAppend(ofChunk, ChunkReceived(inputs[0]), FlatMap(ChunkReceived, inputs[1..]));
    }
  }

  /** The text sent is that of the chunks parsed from the payloads before the first stop, in order. */
  lemma TextOfPayloads(ctx: Context, text: string, n: nat)
    requires FirstStop(ctx, PayloadsOf(text), n)
    ensures FlatMap(EventText, Conversion(ctx, text)) ==
            FlatMap(ChunkText, FlatMap(ChunkIn(ctx), PayloadsOf(text)[..n]))
  {
    hide Conversion, FlatMap, FirstStop, InputText, ChunkText, TextInputs;
    TextConserved(ctx, text);
    forall i <- Processed(ctx, text)
      ensures InputText(i) == FlatMap(ChunkText, ChunkReceived(i))
    {
      InputTextOfChunk(i);
    }
    ThroughChunks(Processed(ctx, text), InputText, ChunkText);
    ProcessedChunks(ctx, text, n);
  }

  /** Usage is sent once for every such chunk that has one and no choices, in order. */
  lemma UsageOfPayloads(ctx: Context, text: string, n: nat)
    requires FirstStop(ctx, PayloadsOf(text), n)
    ensures FlatMap(EventUsage, Conversion(ctx, text)) ==
            FlatMap(ChunkUsage, FlatMap(ChunkIn(ctx), PayloadsOf(text)[..n]))
  {
    hide Conversion, FlatMap, FirstStop, InputUsage, ChunkUsage, TextInputs;
    UsageConserved(ctx, text);
    forall i <- Processed(ctx, text)
      ensures InputUsage(i) == FlatMap(ChunkUsage, ChunkReceived(i))
    {
      InputUsageOfChunk(i);
    }
    ThroughChunks(Processed(ctx, text), InputUsage, ChunkUsage);
    ProcessedChunks(ctx, text, n);
  }

  // ---- Payloads without effect ----

  /** The empty payload and text that is no JSON. */
  predicate IsNoise(ctx: Context, p: string) {
    p == "" || (!IsMarker(p) && ctx.loads(Strip(p)).NotJson?)
  }

  lemma NoiseIsSkipped(ctx: Context, p: string)
    requires IsNoise(ctx, p)
    ensures Interpret(ctx, p) == Skipped
  {
    hide Strip;
  }

  lemma RunSkips(ctx: Context, st: State, a: seq<Input>, b: seq<Input>)
    ensures Run(ctx, st, a + [Skipped] + b) == Run(ctx, st, a + b)
  {
    var first := Run(ctx, st, a);
    assert a + [Skipped] + b == a + ([Skipped] + b);
    RunAppend(ctx, st, a, [Skipped] + b);
    RunAppend(ctx, st, a, b);
    assert ([Skipped] + b)[1..] == b;
    assert StepInput(ctx, first.state, Skipped) == Step(first.state, [], Going);
    hide StepInput;
    var rest := Run(ctx, first.state, b);
    assert [] + rest.events == rest.events;
  }

  /** Payloads that are no JSON change nothing: the same events, and raised alike. */
  lemma NoiseHasNoEffect(ctx: Context, noisy: string, clean: string, a: seq<string>, p: string, b: seq<string>)
    requires PayloadsOf(noisy) == a + [p] + b && PayloadsOf(clean) == a + b && IsNoise(ctx, p)
    ensures Conversion(ctx, noisy) == Conversion(ctx, clean)
    ensures Raises(ctx, noisy) == Raises(ctx, clean)
  {
    hide Interpret, FlatMap, Run, IsNoise;
    NoiseIsSkipped(ctx, p);
    FlatMapAppend(Reading(ctx), a + [p], b);
    FlatMapSnoc(Reading(ctx), a, p);
    FlatMapAppend(Reading(ctx), a, b);
    RunSkips(ctx, INITIAL, Inputs(ctx, a), Inputs(ctx, b));
  }
}
