/**
 The incremental Server-Sent-Events framer of the stream translator: a buffer
 is cut at blank lines, and every complete block yields the joined text of its
 `data:` lines (sections 9.2.5 and 9.2.6 of the WHATWG HTML Living Standard).
 */
module SseFramer {
  import opened Sequences
  import opened Text

  /** A blank-line separator starts at `i`. */
  predicate SeparatorAt(s: string, i: int) {
    0 <= i && i + 1 < |s| && s[i] == '\n' && s[i + 1] == '\n'
  }

  predicate HasSeparator(s: string) {
    exists i | 0 <= i < |s| :: SeparatorAt(s, i)
  }

  /** `s.find("\n\n")` from index `k` on */
  function FindSeparator(s: string, k: nat): (i: int)
    requires k <= |s|
    requires forall j | 0 <= j < k :: !SeparatorAt(s, j)
    ensures i == -1 <==> !HasSeparator(s)
    ensures i != -1 ==> SeparatorAt(s, i) && forall j | 0 <= j < i :: !SeparatorAt(s, j)
    decreases |s| - k
  {
    if k == |s| then -1 else if SeparatorAt(s, k) then k else FindSeparator(s, k + 1)
  }

  /** Complete blocks, in order, and the text after the last separator. */
  datatype Framing = Framing(blocks: seq<string>, rest: string)

  function Frame(s: string): Framing
    decreases |s|
  {
    var i := FindSeparator(s, 0);
    if i == -1 then Framing([], s)
    else
      var tail := Frame(s[i + 2..]);
      Framing([s[..i]] + tail.blocks, tail.rest)
  }

  /** A complete block with its separator. */
  function Closed(block: string): string {
    block + "\n\n"
  }

  /** The text a list of complete blocks was cut from. */
  function Glue(blocks: seq<string>): string {
    FlatMap(Closed, blocks)
  }

  /** What a framing of `s` has to be, said without an algorithm. */
  ghost predicate Frames(s: string, f: Framing) {
    && s == Glue(f.blocks) + f.rest
    && !HasSeparator(f.rest)
    && forall b <- f.blocks :: !HasSeparator(b + "\n")
  }

  lemma GlueNone()
    ensures Glue([]) == ""
  {
  }

  lemma GlueCons(b: string, blocks: seq<string>)
    ensures Glue([b] + blocks) == b + "\n\n" + Glue(blocks)
  {
    FlatMapCons(Closed, b, blocks);
  }

  lemma NoEarlierSeparator(s: string, i: int)
    requires 0 <= i <= |s| && forall j | 0 <= j < i :: !SeparatorAt(s, j)
    requires i < |s| && s[i] == '\n'
    ensures !HasSeparator(s[..i] + "\n")
  {
    var t := s[..i] + "\n";
    if HasSeparator(t) {
      var j :| 0 <= j < |t| && SeparatorAt(t, j);
      assert SeparatorAt(s, j);
      assert false;
    }
  }

  lemma FramesStep(s: string, i: int, f: Framing)
    requires SeparatorAt(s, i) && forall j | 0 <= j < i :: !SeparatorAt(s, j)
    requires Frames(s[i + 2..], f)
    ensures Frames(s, Framing([s[..i]] + f.blocks, f.rest))
  {
    hide Glue, HasSeparator;
    GlueCons(s[..i], f.blocks);
    assert s == s[..i] + "\n\n" + s[i + 2..];
    NoEarlierSeparator(s, i);
  }

  lemma {:induction false} FrameIsAFraming(s: string)
    ensures Frames(s, Frame(s))
    decreases |s|
  {
    var i := FindSeparator(s, 0);
    if i == -1 {
      GlueNone();
    } else {
      hide Frames, HasSeparator;
      FrameIsAFraming(s[i + 2..]);
      FramesStep(s, i, Frame(s[i + 2..]));
    }
  }

  lemma FirstSeparator(b: string, t: string)
    requires !HasSeparator(b + "\n")
    ensures FindSeparator(b + "\n\n" + t, 0) == |b|
  {
    var s := b + "\n\n" + t;
    assert SeparatorAt(s, |b|);
    var i := FindSeparator(s, 0);
    if i < |b| {
      assert SeparatorAt(b + "\n", i);
      assert false;
    }
  }

  lemma {:induction false} FramingIsUnique(s: string, f: Framing)
    requires Frames(s, f)
    ensures Frame(s) == f
    decreases |f.blocks|
  {
    hide Glue, HasSeparator;
    if f.blocks == [] {
      GlueNone();
      assert s == f.rest;
    } else {
      var b, g := f.blocks[0], Framing(f.blocks[1..], f.rest);
      var t := Glue(g.blocks) + g.rest;
      FramingIsUnique(t, g);
      assert f.blocks == [b] + g.blocks;
      GlueCons(b, g.blocks);
      assert s == b + "\n\n" + t;
      FirstSeparator(b, t);
      assert s[|b| + 2..] == t && s[..|b|] == b;
    }
  }

  /**
   Framing is lossless, the leftover holds no separator, and nothing else is a
   framing of the same text.
   */
  lemma FramingCharacterised(s: string, f: Framing)
    ensures Frames(s, f) <==> f == Frame(s)
  {
    FrameIsAFraming(s);
    if Frames(s, f) {
      FramingIsUnique(s, f);
    }
  }

  lemma FramingsCompose(a: string, b: string, f: Framing, g: Framing)
    requires Frames(a, f) && Frames(f.rest + b, g)
    ensures Frame(a + b) == Framing(f.blocks + g.blocks, g.rest)
  {
    FlatMapAppend(Closed, f.blocks, g.blocks);
    assert a + b == Glue(f.blocks) + (f.rest + b) == Glue(f.blocks + g.blocks) + g.rest;
    FramingIsUnique(a + b, Framing(f.blocks + g.blocks, g.rest));
  }

  /** Framing a prefix first and its leftover later loses and invents nothing. */
  lemma FrameInTwoSteps(a: string, b: string)
    ensures Frame(a + b) ==
            Framing(Frame(a).blocks + Frame(Frame(a).rest + b).blocks, Frame(Frame(a).rest + b).rest)
  {
    FrameIsAFraming(a);
    FrameIsAFraming(Frame(a).rest + b);
    FramingsCompose(a, b, Frame(a), Frame(Frame(a).rest + b));
  }

  /** Framing chunk by chunk, the leftover of each turn being carried to the next. */
  function FrameChunks(buffer: string, chunks: seq<string>): Framing
    decreases |chunks|
  {
    if chunks == [] then Framing([], buffer)
    else
      var now := Frame(buffer + chunks[0]);
      var later := FrameChunks(now.rest, chunks[1..]);
      Framing(now.blocks + later.blocks, later.rest)
  }

  /** However the text is cut, the blocks and the leftover are those of the whole. */
  lemma {:induction false} FrameChunksIsFrame(buffer: string, chunks: seq<string>)
    requires !HasSeparator(buffer)
    ensures FrameChunks(buffer, chunks) == Frame(buffer + Concat(chunks))
    decreases |chunks|
  {
    hide HasSeparator;
    if chunks == [] {
      assert buffer + Concat([]) == buffer;
    } else {
      var now := Frame(buffer + chunks[0]);
      var rest := Concat(chunks[1..]);
      FrameIsAFraming(buffer + chunks[0]);
      FrameChunksIsFrame(now.rest, chunks[1..]);
      assert buffer + Concat(chunks) == buffer + chunks[0] + rest;
      FrameInTwoSteps(buffer + chunks[0], rest);
    }
  }

  const DATA := "data:"

  predicate IsDataLine(l: string) {
    DATA <= l
  }

  /** The value of a `data:` line, without leading white space. */
  function DataValue(l: string): seq<string> {
    if IsDataLine(l) then [LStrip(l[|DATA|..])] else []
  }

  function DataValues(lines: seq<string>): seq<string> {
    FlatMap(DataValue, lines)
  }

  /** At most one payload per block. */
  function Payload(block: string): seq<string> {
    var values := DataValues(Lines(block));
    if IsBlank(block) || values == [] then [] else [Unlines(values)]
  }

  function Payloads(blocks: seq<string>): seq<string> {
    FlatMap(Payload, blocks)
  }

  /** Writes a payload the way a server does: one `data:` line per line of text. */
  function DataLines(values: seq<string>): seq<string> {
    if values == [] then [] else [DATA + " " + values[0]] + DataLines(values[1..])
  }

  lemma DataLineValue(v: string)
    requires '\n' !in v && (v != "" ==> !IsSpace(v[0]))
    ensures var l := DATA + " " + v; '\n' !in l && IsDataLine(l) && LStrip(l[|DATA|..]) == v
  {
    var l := DATA + (" " + v);
    assert DATA + " " + v == l;
    assert l[|DATA|..] == " " + v;
    LStripOneSpace(v);
  }

  lemma {:induction false} DataValuesOfDataLines(values: seq<string>)
    requires forall v <- values :: '\n' !in v && (v != "" ==> !IsSpace(v[0]))
    ensures DataValues(DataLines(values)) == values
    ensures |DataLines(values)| == |values|
    ensures forall l <- DataLines(values) :: '\n' !in l && IsDataLine(l)
  {
    if values == [] {
    } else {
      DataValuesOfDataLines(values[1..]);
      DataLineValue(values[0]);
      assert DataLines(values)[1..] == DataLines(values[1..]);
    }
  }

  lemma StartsWithData(ls: seq<string>)
    requires ls != [] && IsDataLine(ls[0])
    ensures !IsBlank(Unlines(ls))
  {
    assert !IsSpace('d');
    assert Unlines(ls)[0] == ls[0][0] == 'd';
  }

  /** Reading what a server wrote gives the text back, whatever its line count. */
  lemma PayloadRoundTrip(text: string)
    requires forall l <- Lines(text) :: l != "" ==> !IsSpace(l[0])
    ensures Payload(Unlines(DataLines(Lines(text)))) == [text]
  {
    hide LStrip, Lines, DataValue, IsBlank, IsDataLine;
    var values := Lines(text);
    DataValuesOfDataLines(values);
    var ls := DataLines(values);
    LinesOfUnlines(ls);
    UnlinesOfLines(text);
    assert ls[0] in ls;
    StartsWithData(ls);
  }

  lemma {:induction false} LinesOfBlank(s: string)
    requires IsBlank(s)
    ensures forall l <- Lines(s) :: IsBlank(l)
  {
    hide IsSpace;
    if s == "" {
    } else {
      var rest := Lines(s[1..]);
      LinesOfBlank(s[1..]);
      assert rest[0] in rest && forall l <- rest[1..] :: l in rest;
    }
  }

  lemma BlankIsNoData(l: string)
    requires IsBlank(l)
    ensures DataValue(l) == []
  {
    assert !IsSpace('d');
    assert "data:"[0] == 'd';
  }

  /** A blank block has no data lines, so testing for it changes nothing. */
  lemma PayloadOfLines(block: string)
    ensures var values := DataValues(Lines(block)); Payload(block) == if values == [] then [] else [Unlines(values)]
  {
    if IsBlank(block) {
      LinesOfBlank(block);
      forall l <- Lines(block)
        ensures DataValue(l) == []
      {
        BlankIsNoData(l);
      }
      FlatMapNothing(DataValue, Lines(block));
    }
  }

  /** Lines that do not begin with `data:` - comments, event names, ids - do not matter. */
  lemma OtherLinesIgnored(a: seq<string>, l: string, b: seq<string>)
    requires a + b != [] && (forall x <- a + b :: '\n' !in x) && '\n' !in l && !("data:" <= l)
    ensures Payload(Unlines(a + [l] + b)) == Payload(Unlines(a + b))
  {
    hide Payload, Lines, Unlines, LStrip;
    var with, without := a + [l] + b, a + b;
    assert forall x <- with :: x == l || x in without;
    LinesOfUnlines(with);
    LinesOfUnlines(without);
    FlatMapAppend(DataValue, a + [l], b);
    FlatMapSnoc(DataValue, a, l);
    FlatMapAppend(DataValue, a, b);
    assert DataValue(l) == [] && DataValues(a) + [] == DataValues(a);
    assert DataValues(with) == DataValues(without);
    PayloadOfLines(Unlines(with));
    PayloadOfLines(Unlines(without));
  }

  lemma OneLine(v: string)
    ensures Unlines([v]) == v
  {
  }

  /** White space after `data:` is not part of the value. */
  lemma PaddedDataLine(w: string, v: string)
    requires IsBlank(w) && '\n' !in w && '\n' !in v && (v != "" ==> !IsSpace(v[0]))
    ensures Payload("data:" + w + v) == [v]
  {
    hide IsBlank, IsSpace;
    var l := DATA + (w + v);
    assert "data:" + w + v == l && DATA <= l && l[|DATA|..] == w + v;
    if v == "" {
      assert w + v == w;
      LStripEmpty(w);
    } else {
      LStripPadding(w, v);
    }
    LinesOfLine(l);
    FlatMapOne(DataValue, l);
    PayloadOfLines(l);
    OneLine(v);
  }

  /** The inner loop of `_consume_sse_buffer`: one complete block. */
  method BlockPayload(rawEvent: string) returns (payload: seq<string>)
    ensures payload == Payload(rawEvent)
  {
    hide IsBlank, LStrip, Lines, Unlines;
    StripEmpty(rawEvent);
    if Strip(rawEvent) == "" {
      return [];
    }
    var dataLines := [];
    var lines := Lines(rawEvent);
    for i := 0 to |lines|
      invariant dataLines == DataValues(lines[..i])
    {
      assert lines[..i + 1] == lines[..i] + [lines[i]];
      FlatMapSnoc(DataValue, lines[..i], lines[i]);
      if IsDataLine(lines[i]) {
        dataLines := dataLines + [LStrip(lines[i][|DATA|..])];
      }
    }
    assert lines[..|lines|] == lines;
    payload := if dataLines != [] then [Unlines(dataLines)] else [];
  }

  /** `_consume_sse_buffer` */
  method ConsumeSseBuffer(data: string) returns (remaining: string, payloads: seq<string>)
    ensures remaining == Frame(data).rest
    ensures payloads == Payloads(Frame(data).blocks)
  {
    remaining, payloads := data, [];
    var separatorIndex := FindSeparator(remaining, 0);
    while separatorIndex != -1
      invariant separatorIndex == FindSeparator(remaining, 0)
      invariant Frame(remaining).rest == Frame(data).rest
      invariant payloads + Payloads(Frame(remaining).blocks) == Payloads(Frame(data).blocks)
      decreases |remaining|
    {
      var rawEvent := remaining[..separatorIndex];
      assert Frame(remaining).blocks[0] == rawEvent;
      assert Frame(remaining).blocks[1..] == Frame(remaining[separatorIndex + 2..]).blocks;
      remaining := remaining[separatorIndex + 2..];
      var payload := BlockPayload(rawEvent);
      payloads := payloads + payload;
      separatorIndex := FindSeparator(remaining, 0);
    }
  }
}
