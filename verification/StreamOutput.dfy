/**
 The text of the emitted events. Two events are assembled by hand in the source
 to avoid building and serialising a dictionary; the result is the same. The
 whole output is again a stream the framer reads back event by event.
 */
module StreamOutput {
  import opened Sequences
  import opened Text
  import opened Json
  import opened JsonReader
  import opened SseFramer
  import opened StreamTranslator

  function Digits(n: nat): NumText {
    var d := "0123456789"[n % 10];
    if n < 10 then [d] else Digits(n / 10) + [d]
  }

  /** `str(n)` */
  function IntText(n: int): NumText {
    if n < 0 then "-" + Digits(-n) else Digits(n)
  }

  function Int(n: int): Json {
    Num(IntText(n))
  }

  function OrNull(s: Option<string>): Json {
    if s.Some? then Str(s.value) else Null
  }

  /** The name on the `event:` line. */
  function EventName(e: Event): string {
    match e
    case MessageStart(_, _) => "message_start"
    case BlockStart(_, _, _) => "content_block_start"
    case ArgsDelta(_, _) => "content_block_delta"
    case TextDelta(_) => "content_block_delta"
    case BlockStop(_) => "content_block_stop"
    case FinishDelta(_) => "message_delta"
    case EndTurnDelta => "message_delta"
    case UsageDelta(_, _) => "message_delta"
    case MessageStop => "message_stop"
    case ErrorEvent(_, _) => "error"
  }

  function UsageJson(input: Json, output: Json): Json {
    Obj([Member("input_tokens", input), Member("output_tokens", output)])
  }

  function MessageMembers(id: Json, model: string): seq<Member> {
    [Member("id", id),
     Member("type", Str("message")),
     Member("role", Str("assistant")),
     Member("model", Str(model)),
     Member("content", Arr([])),
     Member("stop_reason", Null),
     Member("stop_sequence", Null),
     Member("usage", UsageJson(Int(0), Int(0)))]
  }

  /** The members of the event object after its `type`. */
  function EventMembers(e: Event): seq<Member> {
    match e
    case MessageStart(id, model) => [Member("message", Obj(MessageMembers(id, model)))]
    case BlockStart(index, id, name) =>
      [Member("index", Int(index)),
       Member("content_block", Obj([
         Member("type", Str("tool_use")),
         Member("id", Str(id)),
         Member("name", OrNull(name)),
         Member("input", Obj([]))]))]
    case ArgsDelta(at, partialJson) =>
      [Member("index", if at.Some? then Int(at.value) else Null),
       Member("delta", Obj([Member("type", Str("input_json_delta")), Member("partial_json", Str(partialJson))]))]
    case TextDelta(text) =>
      [Member("index", Num("0")),
       Member("delta", Obj([Member("type", Str("text_delta")), Member("text", Str(text))]))]
    case BlockStop(index) => [Member("index", Int(index))]
    case FinishDelta(reason) =>
      [Member("delta", Obj([Member("stop_reason", Str(reason))])), Member("usage", UsageJson(Int(0), Int(0)))]
    case EndTurnDelta => [Member("delta", Obj([Member("stop_reason", Str("end_turn"))]))]
    case UsageDelta(input, output) => [Member("delta", Obj([])), Member("usage", UsageJson(input, output))]
    case MessageStop => []
    case ErrorEvent(kind, message) =>
      [Member("error", Obj([Member("type", Str(kind)), Member("message", Str(message))]))]
  }

  function EventJson(e: Event): (j: Json)
    ensures j.Obj? && j.members != []
  {
    Obj([Member("type", Str(EventName(e)))] + EventMembers(e))
  }

  /** The style the text of an event follows: `message_stop` is written with a space. */
  function EventStyle(e: Event): Style {
    if e.MessageStop? then Style(true, false) else COMPACT
  }

  /** The text after `data: `, assembled as the source does. */
  function EventData(e: Event): string {
    match e
    case BlockStop(index) => "{" + "\"type\":\"content_block_stop\"" + "," + "\"index\":" + IntText(index) + "}"
    case TextDelta(text) =>
      "{" + "\"type\":\"content_block_delta\"" + "," + "\"index\":0" + ","
      + "\"delta\":" + "{" + "\"type\":\"text_delta\"" + "," + "\"text\":" + Quote(text, false) + "}" + "}"
    case MessageStop => "{\"type\": \"message_stop\"}"
    case _ => Dumps(EventJson(e), COMPACT)
  }

  // ---- The hand-assembled texts ----

  predicate IsPlain(c: char) {
    32 <= c as int < 127 && c != '\"' && c != '\\'
  }

  lemma {:induction false} EscapePlain(s: string, ascii: bool)
    requires forall i | 0 <= i < |s| :: IsPlain(s[i])
    ensures Escape(s, ascii) == s
  {
    if s == "" {
    } else {
      EscapePlain(s[1..], ascii);
      assert EscapeChar(s[0], ascii) == [s[0]];
    }
  }

  lemma QuotePlain(s: string)
    requires forall i | 0 <= i < |s| :: IsPlain(s[i])
    ensures Quote(s, false) == "\"" + s + "\""
  {
    EscapePlain(s, false);
  }

  lemma MemberPlain(key: string, value: Json, st: Style)
    requires !st.ascii && forall i | 0 <= i < |key| :: IsPlain(key[i])
    ensures DumpsMember(Member(key, value), st) == "\"" + key + "\"" + Colon(st) + Dumps(value, st)
  {
    QuotePlain(key);
  }

  lemma DumpsOne(a: Member, st: Style)
    ensures Dumps(Obj([a]), st) == "{" + DumpsMember(a, st) + "}"
  {
  }

  lemma DumpsTwo(a: Member, b: Member, st: Style)
    ensures Dumps(Obj([a, b]), st) == "{" + (DumpsMember(a, st) + Comma(st) + DumpsMember(b, st)) + "}"
  {
    assert [a, b][1..] == [b];
    assert DumpsMembers([b], st) == DumpsMember(b, st);
  }

  lemma DumpsThree(a: Member, b: Member, c: Member, st: Style)
    ensures Dumps(Obj([a, b, c]), st) ==
            "{" + (DumpsMember(a, st) + Comma(st) + (DumpsMember(b, st) + Comma(st) + DumpsMember(c, st))) + "}"
  {
    assert [a, b, c][1..] == [b, c] && [b, c][1..] == [c];
    assert DumpsMembers([c], st) == DumpsMember(c, st);
    assert DumpsMembers([b, c], st) == DumpsMember(b, st) + Comma(st) + DumpsMember(c, st);
  }

  lemma NamedMember(key: string, name: string, st: Style)
    requires !st.ascii
    requires forall i | 0 <= i < |key| :: IsPlain(key[i])
    requires forall i | 0 <= i < |name| :: IsPlain(name[i])
    ensures DumpsMember(Member(key, Str(name)), st) == "\"" + key + "\"" + Colon(st) + ("\"" + name + "\"")
  {
    hide Quote;
    MemberPlain(key, Str(name), st);
    QuotePlain(name);
  }

  lemma DumpsStr(text: string)
    ensures Dumps(Str(text), COMPACT) == Quote(text, false)
  {
  }

  lemma DumpsNum(literal: NumText, st: Style)
    ensures Dumps(Num(literal), st) == literal
  {
  }

  lemma AssembleTwo(t: string, k: string, v: string)
    ensures "{" + (t + "," + (k + v)) + "}" == "{" + t + "," + k + v + "}"
  {
  }

  lemma AssembleThree(t: string, i: string, k: string, v: string)
    ensures "{" + (t + "," + (i + "," + (k + v))) + "}" == "{" + t + "," + i + "," + k + v + "}"
  {
    AssembleTwo(t, i, "," + (k + v));
    assert "{" + (t + "," + (i + "," + (k + v))) == "{" + t + "," + i + "," + k + v;
  }

  lemma TypeMember(name: string, text: string)
    requires forall i | 0 <= i < |name| :: IsPlain(name[i])
    requires text == "\"type\":\"" + name + "\""
    ensures DumpsMember(Member("type", Str(name)), COMPACT) == text
  {
    hide DumpsMember, Dumps;
    NamedMember("type", name, COMPACT);
  }

  lemma TextDeltaInner(text: string)
    ensures Dumps(Obj([Member("type", Str("text_delta")), Member("text", Str(text))]), COMPACT) ==
            "{" + "\"type\":\"text_delta\"" + "," + "\"text\":" + Quote(text, false) + "}"
  {
    hide Quote, DumpsMember, DumpsMembers, Dumps;
    DumpsTwo(Member("type", Str("text_delta")), Member("text", Str(text)), COMPACT);
    TypeMember("text_delta", "\"type\":\"text_delta\"");
    assert DumpsMember(Member("text", Str(text)), COMPACT) == "\"text\":" + Quote(text, false) by {
      MemberPlain("text", Str(text), COMPACT);
      DumpsStr(text);
    }
    AssembleTwo("\"type\":\"text_delta\"", "\"text\":", Quote(text, false));
  }

  lemma ZeroIndexMember(zero: Json)
    requires zero == Num("0")
    ensures DumpsMember(Member("index", zero), COMPACT) == "\"index\":0"
  {
    hide DumpsMember, Dumps;
    MemberPlain("index", zero, COMPACT);
    DumpsNum(zero.literal, COMPACT);
  }

  lemma DeltaMember(inner: Json)
    ensures DumpsMember(Member("delta", inner), COMPACT) == "\"delta\":" + Dumps(inner, COMPACT)
  {
    hide DumpsMember, Dumps;
    MemberPlain("delta", inner, COMPACT);
  }

  lemma ThreeMembers(a: Member, b: Member, c: Member, t: string, i: string, k: string, v: string)
    requires DumpsMember(a, COMPACT) == t && DumpsMember(b, COMPACT) == i && DumpsMember(c, COMPACT) == k + v
    ensures Dumps(Obj([a, b, c]), COMPACT) == "{" + t + "," + i + "," + k + v + "}"
  {
    hide DumpsMember, DumpsMembers, Dumps;
    DumpsThree(a, b, c, COMPACT);
    AssembleThree(t, i, k, v);
  }

  lemma TextDeltaOuter(inner: Json)
    ensures Dumps(Obj([Member("type", Str("content_block_delta")), Member("index", Num("0")), Member("delta", inner)]),
                  COMPACT) ==
            "{" + "\"type\":\"content_block_delta\"" + "," + "\"index\":0" + "," + "\"delta\":"
            + Dumps(inner, COMPACT) + "}"
  {
    hide DumpsMember, DumpsMembers, Dumps;
    TypeMember("content_block_delta", "\"type\":\"content_block_delta\"");
    ZeroIndexMember(Num("0"));
    DeltaMember(inner);
    ThreeMembers(Member("type", Str("content_block_delta")), Member("index", Num("0")), Member("delta", inner),
                 "\"type\":\"content_block_delta\"", "\"index\":0", "\"delta\":", Dumps(inner, COMPACT));
  }

  lemma TextDeltaData(text: string)
    ensures EventData(TextDelta(text)) == Dumps(EventJson(TextDelta(text)), COMPACT)
  {
    hide Quote, DumpsMember, DumpsMembers, Dumps;
    var inner := Obj([Member("type", Str("text_delta")), Member("text", Str(text))]);
    TextDeltaInner(text);
    TextDeltaOuter(inner);
    assert EventJson(TextDelta(text)).members ==
           [Member("type", Str("content_block_delta")), Member("index", Num("0")), Member("delta", inner)];
  }

  lemma IndexMember(index: int)
    ensures DumpsMember(Member("index", Int(index)), COMPACT) == "\"index\":" + IntText(index)
  {
    hide Quote, DumpsMember, Dumps, IntText;
    MemberPlain("index", Int(index), COMPACT);
    DumpsNum(IntText(index), COMPACT);
  }

  lemma BlockStopMembers(index: int)
    ensures EventJson(BlockStop(index)).members ==
            [Member("type", Str("content_block_stop")), Member("index", Int(index))]
  {
    hide Int;
  }

  lemma BlockStopData(index: int)
    ensures EventData(BlockStop(index)) == Dumps(EventJson(BlockStop(index)), COMPACT)
  {
    hide Quote, DumpsMember, DumpsMembers, Dumps, IntText, Int, EventJson;
    var kind, at := Member("type", Str("content_block_stop")), Member("index", Int(index));
    DumpsTwo(kind, at, COMPACT);
    TypeMember("content_block_stop", "\"type\":\"content_block_stop\"");
    IndexMember(index);
    AssembleTwo("\"type\":\"content_block_stop\"", "\"index\":", IntText(index));
    BlockStopMembers(index);
  }

  lemma MessageStopData()
    ensures EventData(MessageStop) == Dumps(EventJson(MessageStop), Style(true, false))
  {
    hide DumpsMember, DumpsMembers, Quote, Dumps;
    var st := Style(true, false);
    NamedMember("type", "message_stop", st);
    DumpsOne(Member("type", Str("message_stop")), st);
    assert EventJson(MessageStop).members == [Member("type", Str("message_stop"))];
  }

  /** Every event text, also the hand-assembled ones, is its object serialised. */
  lemma DataIsSerialised(e: Event)
    ensures EventData(e) == Dumps(EventJson(e), EventStyle(e))
  {
    hide Dumps, EventJson;
    match e
    case TextDelta(text) => TextDeltaData(text);
    case BlockStop(index) => BlockStopData(index);
    case MessageStop => MessageStopData();
    case _ =>
  }

  /** The numbers and the values an event carries are ones Python can hold. */
  predicate EventIsHeld(e: Event, reprs: NumText -> bool) {
    match e
    case MessageStart(id, _) => Held(id, reprs)
    case BlockStart(index, _, _) => reprs(IntText(index))
    case ArgsDelta(at, _) => at.Some? ==> reprs(IntText(at.value))
    case BlockStop(index) => reprs(IntText(index))
    case UsageDelta(input, output) => Held(input, reprs) && Held(output, reprs)
    case _ => true
  }

  lemma OneIsHeld(a: Member, reprs: NumText -> bool)
    requires Held(a.value, reprs)
    ensures Held(Obj([a]), reprs)
  {
  }

  lemma TwoAreHeld(a: Member, b: Member, reprs: NumText -> bool)
    requires a.key != b.key && Held(a.value, reprs) && Held(b.value, reprs)
    ensures Held(Obj([a, b]), reprs)
  {
    assert Keys([a, b]) == [a.key, b.key];
  }

  /** A member put before an object that has no such key. */
  lemma MoreIsHeld(a: Member, more: seq<Member>, reprs: NumText -> bool)
    requires Held(a.value, reprs) && Held(Obj(more), reprs) && a.key !in Keys(more)
    ensures Held(Obj([a] + more), reprs)
  {
    KeysCons(a, more);
    DistinctCons(a.key, Keys(more));
  }

  lemma UsageIsHeld(input: Json, output: Json, reprs: NumText -> bool)
    requires Held(input, reprs) && Held(output, reprs)
    ensures Held(UsageJson(input, output), reprs)
  {
    TwoAreHeld(Member("input_tokens", input), Member("output_tokens", output), reprs);
  }

  lemma MessageKeys(id: Json, model: string)
    ensures Keys(MessageMembers(id, model)) ==
            ["id", "type", "role", "model", "content", "stop_reason", "stop_sequence", "usage"]
  {
    hide UsageJson;
  }

  lemma MessageKeysAreDistinct(keys: seq<string>)
    requires keys == ["id", "type", "role", "model", "content", "stop_reason", "stop_sequence", "usage"]
    ensures Distinct(keys)
  {
  }

  lemma LeavesAreHeld(index: int, name: Option<string>, reprs: NumText -> bool)
    ensures Held(Null, reprs) && Held(OrNull(name), reprs) && Held(Obj([]), reprs)
    ensures Held(Int(index), reprs) <==> reprs(IntText(index))
    ensures Held(Num("0"), reprs) <==> reprs("0")
  {
    hide IntText;
  }

  lemma TypeIsHeld(name: string, reprs: NumText -> bool)
    ensures Held(Str(name), reprs)
  {
  }

  predicate IsLeaf(j: Json) {
    j.Str? || j.Null? || j == Arr([])
  }

  lemma LeafIsHeld(j: Json, reprs: NumText -> bool)
    requires IsLeaf(j)
    ensures Held(j, reprs)
  {
  }

  lemma MessageShape(id: Json, model: string)
    ensures var ms := MessageMembers(id, model);
            && |ms| == 8 && ms[0].value == id && ms[7].value == UsageJson(Int(0), Int(0))
            && IsLeaf(ms[1].value) && IsLeaf(ms[2].value) && IsLeaf(ms[3].value)
            && IsLeaf(ms[4].value) && IsLeaf(ms[5].value) && IsLeaf(ms[6].value)
  {
    hide UsageJson, Int;
  }

  lemma MessageValuesAreHeld(id: Json, model: string, reprs: NumText -> bool)
    requires reprs("0") && Held(id, reprs)
    ensures var ms := MessageMembers(id, model);
            && |ms| == 8
            && Held(ms[0].value, reprs) && Held(ms[1].value, reprs) && Held(ms[2].value, reprs)
            && Held(ms[3].value, reprs) && Held(ms[4].value, reprs) && Held(ms[5].value, reprs)
            && Held(ms[6].value, reprs) && Held(ms[7].value, reprs)
  {
    LeavesAreHeld(0, None, reprs);
    UsageIsHeld(Int(0), Int(0), reprs);
    hide Held, UsageJson, Int, IsLeaf, MessageMembers;
    MessageShape(id, model);
    var ms := MessageMembers(id, model);
    LeafIsHeld(ms[1].value, reprs);
    LeafIsHeld(ms[2].value, reprs);
    LeafIsHeld(ms[3].value, reprs);
    LeafIsHeld(ms[4].value, reprs);
    LeafIsHeld(ms[5].value, reprs);
    LeafIsHeld(ms[6].value, reprs);
  }

  lemma EightAreHeld(ms: seq<Member>, reprs: NumText -> bool)
    requires |ms| == 8 && Distinct(Keys(ms))
    requires Held(ms[0].value, reprs) && Held(ms[1].value, reprs) && Held(ms[2].value, reprs)
    requires Held(ms[3].value, reprs) && Held(ms[4].value, reprs) && Held(ms[5].value, reprs)
    requires Held(ms[6].value, reprs) && Held(ms[7].value, reprs)
    ensures Held(Obj(ms), reprs)
  {
    forall m <- ms
      ensures Held(m.value, reprs)
    {
      hide Held;
      var i :| 0 <= i < |ms| && ms[i] == m;
    }
  }

  lemma MessageIsHeld(id: Json, model: string, reprs: NumText -> bool)
    requires reprs("0") && Held(id, reprs)
    ensures Held(Obj(MessageMembers(id, model)), reprs)
  {
    hide Distinct, Keys, Held, MessageMembers;
    MessageKeys(id, model);
    MessageKeysAreDistinct(Keys(MessageMembers(id, model)));
    MessageValuesAreHeld(id, model, reprs);
    EightAreHeld(MessageMembers(id, model), reprs);
  }

  lemma ToolIsHeld(id: string, name: Json, reprs: NumText -> bool)
    requires Held(name, reprs)
    ensures Held(Obj([Member("type", Str("tool_use")), Member("id", Str(id)), Member("name", name),
                      Member("input", Obj([]))]), reprs)
  {
    var ms := [Member("type", Str("tool_use")), Member("id", Str(id)), Member("name", name), Member("input", Obj([]))];
    assert Keys(ms) == ["type", "id", "name", "input"];
  }

  lemma OneStringIsHeld(key: string, text: string, reprs: NumText -> bool)
    ensures Held(Obj([Member(key, Str(text))]), reprs)
  {
    OneIsHeld(Member(key, Str(text)), reprs);
  }

  lemma TwoStringsAreHeld(key: string, text: string, other: string, more: string, reprs: NumText -> bool)
    requires key != other
    ensures Held(Obj([Member(key, Str(text)), Member(other, Str(more))]), reprs)
  {
    TwoAreHeld(Member(key, Str(text)), Member(other, Str(more)), reprs);
  }

  lemma BlockEventIsHeld(e: Event, reprs: NumText -> bool)
    requires reprs("0") && EventIsHeld(e, reprs)
    requires e.BlockStart? || e.ArgsDelta? || e.TextDelta? || e.BlockStop?
    ensures Held(Obj(EventMembers(e)), reprs)
  {
    hide Held, Keys, Distinct, IntText, Int, OrNull;
    match e
    case BlockStart(index, id, name) =>
      LeavesAreHeld(index, name, reprs);
      ToolIsHeld(id, OrNull(name), reprs);
      TwoAreHeld(EventMembers(e)[0], EventMembers(e)[1], reprs);
    case ArgsDelta(at, partialJson) =>
      LeavesAreHeld(if at.Some? then at.value else 0, None, reprs);
      TwoStringsAreHeld("type", "input_json_delta", "partial_json", partialJson, reprs);
      TwoAreHeld(EventMembers(e)[0], EventMembers(e)[1], reprs);
    case TextDelta(text) =>
      LeavesAreHeld(0, None, reprs);
      TwoStringsAreHeld("type", "text_delta", "text", text, reprs);
      TwoAreHeld(EventMembers(e)[0], EventMembers(e)[1], reprs);
    case BlockStop(index) =>
      LeavesAreHeld(index, None, reprs);
      OneIsHeld(EventMembers(e)[0], reprs);
  }

  lemma MessageEventIsHeld(e: Event, reprs: NumText -> bool)
    requires reprs("0") && EventIsHeld(e, reprs)
    requires !(e.BlockStart? || e.ArgsDelta? || e.TextDelta? || e.BlockStop?)
    ensures Held(Obj(EventMembers(e)), reprs)
  {
    LeavesAreHeld(0, None, reprs);
    UsageIsHeld(Int(0), Int(0), reprs);
    hide Held, MessageMembers, Keys, Distinct, IntText, Int, UsageJson;
    match e
    case MessageStart(id, model) =>
      MessageIsHeld(id, model, reprs);
      OneIsHeld(EventMembers(e)[0], reprs);
    case FinishDelta(reason) =>
      OneStringIsHeld("stop_reason", reason, reprs);
      TwoAreHeld(EventMembers(e)[0], EventMembers(e)[1], reprs);
    case EndTurnDelta =>
      OneStringIsHeld("stop_reason", "end_turn", reprs);
      OneIsHeld(EventMembers(e)[0], reprs);
    case UsageDelta(input, output) =>
      UsageIsHeld(input, output, reprs);
      TwoAreHeld(EventMembers(e)[0], EventMembers(e)[1], reprs);
    case MessageStop =>
    case ErrorEvent(kind, message) =>
      TwoStringsAreHeld("type", kind, "message", message, reprs);
      OneIsHeld(EventMembers(e)[0], reprs);
  }

  lemma MembersAreHeld(e: Event, reprs: NumText -> bool)
    requires reprs("0") && EventIsHeld(e, reprs)
    ensures Held(Obj(EventMembers(e)), reprs)
  {
    if e.BlockStart? || e.ArgsDelta? || e.TextDelta? || e.BlockStop? {
      BlockEventIsHeld(e, reprs);
    } else {
      MessageEventIsHeld(e, reprs);
    }
  }

  lemma NoTypeAmongMembers(e: Event)
    ensures "type" !in Keys(EventMembers(e))
  {
    assert forall m <- EventMembers(e) :: m.key != "type";
  }

  /** The object of an event is one Python can hold if its numbers and values are. */
  lemma EventJsonIsHeld(e: Event, reprs: NumText -> bool)
    requires reprs("0") && EventIsHeld(e, reprs)
    ensures Held(EventJson(e), reprs)
  {
    MembersAreHeld(e, reprs);
    NoTypeAmongMembers(e);
    hide EventMembers, Held;
    TypeIsHeld(EventName(e), reprs);
    MoreIsHeld(Member("type", Str(EventName(e))), EventMembers(e), reprs);
  }

  /** A client that reads the text back gets the event's object, its type being the event name. */
  lemma ClientReadsEvent(e: Event, loads: string -> Option<Json>, reprs: NumText -> bool)
    requires IsReader(loads, reprs) && EventIsHeld(e, reprs)
    ensures loads(EventData(e)) == Some(EventJson(e))
    ensures EventJson(e).members[0] == Member("type", Str(EventName(e)))
  {
    hide Dumps, Held, EventMembers, EventIsHeld, EventData;
    DataIsSerialised(e);
    EventJsonIsHeld(e, reprs);
  }

  // ---- The output as a stream ----

  function Block(e: Event): string {
    "event: " + EventName(e) + "\ndata: " + EventData(e)
  }

  /** What is yielded. */
  function Render(e: Event): string {
    Closed(Block(e))
  }

  lemma DumpsOfObject(j: Json, st: Style)
    requires j.Obj?
    ensures Dumps(j, st) != "" && Dumps(j, st)[0] == '{'
  {
  }

  lemma DataIsOneLine(e: Event)
    ensures Printable(EventData(e)) && EventData(e) != "" && EventData(e)[0] == '{'
  {
    hide EventData, Dumps, EventJson;
    DataIsSerialised(e);
    DumpsIsPrintable(EventJson(e), EventStyle(e));
    DumpsOfObject(EventJson(e), EventStyle(e));
  }

  lemma NameIsOneLine(e: Event)
    ensures forall i | 0 <= i < |EventName(e)| :: IsPlain(EventName(e)[i])
  {
  }

  lemma NotBlank(b: string)
    requires b != "" && b[0] == 'e'
    ensures !IsBlank(b)
  {
    assert !IsSpace('e');
  }

  lemma NotData(l: string)
    requires |l| > 0 && l[0] == 'e'
    ensures DataValue(l) == []
  {
  }

  lemma TwoDataValues(first: string, second: string, data: string)
    requires |first| > 0 && first[0] == 'e'
    requires DataValue(second) == [data]
    ensures DataValues([first, second]) == [data]
  {
    hide DataValue;
    assert DataValue(first) == [] by { NotData(first); }
    assert [first, second] == [first] + [second];
    FlatMapCons(DataValue, first, [second]);
    FlatMapOne(DataValue, second);
  }

  lemma TwoLinesNoSeparator(first: string, second: string)
    requires '\n' !in first && '\n' !in second && second != ""
    ensures !HasSeparator(first + "\n" + second + "\n")
  {
    var s := first + "\n" + second + "\n";
    forall i | 0 <= i < |s|
      ensures !SeparatorAt(s, i)
    {
      if i < |first| {
        assert s[i] == first[i];
      } else if i == |first| {
        assert s[i + 1] == second[0];
      } else if i < |s| - 1 {
        assert s[i] == second[i - |first| - 1];
      }
    }
  }

  /** A two-line block with a name and a data line is framed whole and yields its data. */
  lemma TwoLineBlock(name: string, data: string)
    requires '\n' !in name && '\n' !in data && data != "" && !IsSpace(data[0])
    ensures var b := "event: " + name + "\ndata: " + data;
            !HasSeparator(b + "\n") && Payload(b) == [data] && Lines(b)[0] == "event: " + name
  {
    hide LStrip, Lines, IsSpace;
    var first, second := "event: " + name, DATA + " " + data;
    var b := "event: " + name + "\ndata: " + data;
    assert b == first + "\n" + second;
    DataLineValue(data);
    LinesOfCons(first, second);
    LinesOfLine(second);
    TwoDataValues(first, second, data);
    TwoLinesNoSeparator(first, second);
    assert b[0] == 'e';
    NotBlank(b);
  }

  lemma BlockFrames(e: Event)
    ensures !HasSeparator(Block(e) + "\n") && Payload(Block(e)) == [EventData(e)]
    ensures Lines(Block(e))[0] == "event: " + EventName(e)
  {
    hide EventName, EventData;
    NameIsOneLine(e);
    DataIsOneLine(e);
    assert !IsSpace('{');
    TwoLineBlock(EventName(e), EventData(e));
  }

  function Blocks(es: seq<Event>): seq<string> {
    if es == [] then [] else [Block(es[0])] + Blocks(es[1..])
  }

  function Data(e: Event): seq<string> {
    [EventData(e)]
  }

  lemma {:induction false} OutputBlocks(es: seq<Event>)
    ensures Glue(Blocks(es)) == FlatMap(Render, es)
    ensures forall b <- Blocks(es) :: !HasSeparator(b + "\n")
    ensures Payloads(Blocks(es)) == FlatMap(Data, es)
  {
    hide Block, HasSeparator, Payload, EventData, Closed;
    if es == [] {
    } else {
      OutputBlocks(es[1..]);
      BlockFrames(es[0]);
      FlatMapCons(Closed, Block(es[0]), Blocks(es[1..]));
      FlatMapCons(Payload, Block(es[0]), Blocks(es[1..]));
    }
  }

  /**
   The output is valid input to the same framer: however it is cut, it frames to
   one payload per event, namely the event's data, and nothing is left over.
   */
  lemma OutputFrames(es: seq<Event>, chunks: seq<string>)
    requires Concat(chunks) == FlatMap(Render, es)
    ensures FrameChunks("", chunks) == Framing(Blocks(es), "")
    ensures Payloads(FrameChunks("", chunks).blocks) == FlatMap(Data, es)
  {
    hide Render, Payload, FrameChunks, Frame, EventData;
    OutputBlocks(es);
    FrameChunksIsFrame("", chunks);
    var text := FlatMap(Render, es);
    assert "" + Concat(chunks) == text;
    assert text == Glue(Blocks(es)) + "";
    FramingIsUnique(text, Framing(Blocks(es), ""));
  }
}
