/**
 The client's reading of an event: values are looked up by their keys in the
 parsed object, whatever the order of its members, and give back the event.
 */
module StreamDecoder {
  import opened Text
  import opened Json
  import opened StreamTranslator
  import opened StreamOutput

  // ---- Looking up ----

  function Lookup(members: seq<Member>, key: string): Option<Json> {
    if members == [] then None
    else if members[0].key == key then Some(members[0].value)
    else Lookup(members[1..], key)
  }

  function Field(j: Json, key: string): Option<Json> {
    if j.Obj? then Lookup(j.members, key) else None
  }

  lemma {:induction false} LookupAt(members: seq<Member>, i: nat)
    requires i < |members| && forall k | 0 <= k < i :: members[k].key != members[i].key
    ensures Lookup(members, members[i].key) == Some(members[i].value)
  {
    if i == 0 {
    } else {
      LookupAt(members[1..], i - 1);
    }
  }

  lemma {:induction false} LookupNone(members: seq<Member>, key: string)
    requires forall m <- members :: m.key != key
    ensures Lookup(members, key) == None
  {
    if members == [] {
    } else {
      assert members[0] in members;
      LookupNone(members[1..], key);
    }
  }

  lemma OneField(a: Member)
    ensures Field(Obj([a]), a.key) == Some(a.value)
  {
    LookupAt([a], 0);
  }

  lemma TwoFields(a: Member, b: Member)
    requires a.key != b.key
    ensures Field(Obj([a, b]), a.key) == Some(a.value) && Field(Obj([a, b]), b.key) == Some(b.value)
  {
    LookupAt([a, b], 0);
    LookupAt([a, b], 1);
  }

  lemma ThreeFields(a: Member, b: Member, c: Member)
    requires a.key != b.key && a.key != c.key && b.key != c.key
    ensures Field(Obj([a, b, c]), a.key) == Some(a.value) && Field(Obj([a, b, c]), b.key) == Some(b.value)
    ensures Field(Obj([a, b, c]), c.key) == Some(c.value)
  {
    LookupAt([a, b, c], 0);
    LookupAt([a, b, c], 1);
    LookupAt([a, b, c], 2);
  }

  lemma OtherField(a: Member, b: Member, key: string)
    requires key != a.key && key != b.key
    ensures Field(Obj([a, b]), key) == None
  {
    LookupNone([a, b], key);
  }

  lemma NoField(key: string)
    ensures Field(Obj([]), key) == None
  {
  }

  // ---- Numbers ----

  function DigitsValue(s: string): int {
    if s == "" then 0 else 10 * DigitsValue(s[..|s| - 1]) + (s[|s| - 1] as int - '0' as int)
  }

  /** The integer a literal stands for. */
  function IntValue(s: string): int {
    if s != "" && s[0] == '-' then -DigitsValue(s[1..]) else DigitsValue(s)
  }

  lemma DigitValue(d: nat)
    requires d < 10
    ensures "0123456789"[d] as int - '0' as int == d
  {
  }

  lemma {:induction false} DigitsRoundTrip(n: nat)
    ensures DigitsValue(Digits(n)) == n && Digits(n)[0] != '-'
  {
    DigitValue(n % 10);
    var s := Digits(n);
    if n < 10 {
      assert s[..|s| - 1] == "";
    } else {
      DigitsRoundTrip(n / 10);
      assert s[..|s| - 1] == Digits(n / 10);
    }
  }

  lemma IntRoundTrip(n: int)
    ensures IntValue(IntText(n)) == n
  {
    DigitsRoundTrip(if n < 0 then -n else n);
    if n < 0 {
      assert IntText(n)[1..] == Digits(-n);
    }
  }

  // ---- The reader ----

  function IntIn(j: Option<Json>): Option<int> {
    if j.Some? && j.value.Num? then Some(IntValue(j.value.literal)) else None
  }

  function StringIn(j: Option<Json>): Option<string> {
    if j.Some? && j.value.Str? then Some(j.value.s) else None
  }

  predicate IsZeroUsage(j: Json) {
    Field(j, "input_tokens") == Some(Num("0")) && Field(j, "output_tokens") == Some(Num("0"))
  }

  /** A message that has just begun: an assistant's, without content, stop reason and tokens. */
  predicate HasBegun(m: Json) {
    && Field(m, "type") == Some(Str("message")) && Field(m, "role") == Some(Str("assistant"))
    && Field(m, "content") == Some(Arr([]))
    && Field(m, "stop_reason") == Some(Null) && Field(m, "stop_sequence") == Some(Null)
    && Field(m, "usage").Some? && IsZeroUsage(Field(m, "usage").value)
  }

  function DecodeMessageStart(m: Json): Option<Event> {
    var id, model := Field(m, "id"), StringIn(Field(m, "model"));
    if HasBegun(m) && id.Some? && model.Some? then Some(MessageStart(id.value, model.value)) else None
  }

  /** Null is a name that is not there. */
  function DecodeBlockStart(index: Option<int>, block: Json): Option<Event> {
    var id, name := StringIn(Field(block, "id")), Field(block, "name");
    if && index.Some? && id.Some? && name.Some? && (name.value.Str? || name.value.Null?)
       && Field(block, "type") == Some(Str("tool_use")) && Field(block, "input") == Some(Obj([]))
    then Some(BlockStart(index.value, id.value, StringIn(name)))
    else None
  }

  function DecodeBlockDelta(index: Option<Json>, delta: Json): Option<Event> {
    var kind, text := StringIn(Field(delta, "type")), StringIn(Field(delta, "text"));
    var json := StringIn(Field(delta, "partial_json"));
    if kind == Some("text_delta") && IntIn(index) == Some(0) && text.Some? then Some(TextDelta(text.value))
    else if kind == Some("input_json_delta") && index.Some? && (index.value.Num? || index.value.Null?) && json.Some?
    then Some(ArgsDelta(IntIn(index), json.value))
    else None
  }

  /** A stop reason comes with a usage of zeros; only the default `end_turn` comes without one. */
  function DecodeMessageDelta(delta: Json, usage: Option<Json>): Option<Event> {
    var reason := StringIn(Field(delta, "stop_reason"));
    if usage.None? then (if reason == Some("end_turn") then Some(EndTurnDelta) else None)
    else if reason.Some? then (if IsZeroUsage(usage.value) then Some(FinishDelta(reason.value)) else None)
    else
      var input, output := Field(usage.value, "input_tokens"), Field(usage.value, "output_tokens");
      if input.Some? && output.Some? then Some(UsageDelta(input.value, output.value)) else None
  }

  function DecodeError(error: Json): Option<Event> {
    var kind, message := StringIn(Field(error, "type")), StringIn(Field(error, "message"));
    if kind.Some? && message.Some? then Some(ErrorEvent(kind.value, message.value)) else None
  }

  function TypeOf(j: Json): Option<string> {
    StringIn(Field(j, "type"))
  }

  /** The event an object stands for. */
  function Decode(j: Json): Option<Event> {
    var kind, index, delta := TypeOf(j), Field(j, "index"), Field(j, "delta");
    if kind == Some("message_start") then
      var m := Field(j, "message");
      if m.Some? then DecodeMessageStart(m.value) else None
    else if kind == Some("content_block_start") then
      var block := Field(j, "content_block");
      if block.Some? then DecodeBlockStart(IntIn(index), block.value) else None
    else if kind == Some("content_block_delta") then
      if delta.Some? then DecodeBlockDelta(index, delta.value) else None
    else if kind == Some("content_block_stop") then
      if IntIn(index).Some? then Some(BlockStop(IntIn(index).value)) else None
    else if kind == Some("message_delta") then
      if delta.Some? then DecodeMessageDelta(delta.value, Field(j, "usage")) else None
    else if kind == Some("message_stop") then Some(MessageStop)
    else if kind == Some("error") then
      var error := Field(j, "error");
      if error.Some? then DecodeError(error.value) else None
    else None
  }

  // ---- Nothing is lost ----

  lemma UsageDecoded(input: Json, output: Json)
    ensures Field(UsageJson(input, output), "input_tokens") == Some(input)
    ensures Field(UsageJson(input, output), "output_tokens") == Some(output)
  {
    TwoFields(Member("input_tokens", input), Member("output_tokens", output));
  }

  lemma ZeroText()
    ensures Int(0) == Num("0")
  {
  }

  lemma ZeroUsage()
    ensures IsZeroUsage(UsageJson(Int(0), Int(0)))
  {
    ZeroText();
    hide UsageJson, Field, Int;
    UsageDecoded(Int(0), Int(0));
  }

  lemma MessageField(id: Json, model: string, i: nat)
    requires i < 8
    ensures |MessageMembers(id, model)| == 8
    ensures var members := MessageMembers(id, model); Field(Obj(members), members[i].key) == Some(members[i].value)
  {
    var members := MessageMembers(id, model);
    MessageKeys(id, model);
    MessageKeysAreDistinct(Keys(members));
    assert |members| == 8 && forall k | 0 <= k < 8 :: Keys(members)[k] == members[k].key;
    hide MessageMembers, Lookup;
    LookupAt(members, i);
  }

  lemma MessageStartDecoded(id: Json, model: string)
    ensures DecodeMessageStart(Obj(MessageMembers(id, model))) == Some(MessageStart(id, model))
  {
    hide Field, Int, UsageJson, IsZeroUsage;
    ZeroUsage();
    MessageField(id, model, 0);
    MessageField(id, model, 1);
    MessageField(id, model, 2);
    MessageField(id, model, 3);
    MessageField(id, model, 4);
    MessageField(id, model, 5);
    MessageField(id, model, 6);
    MessageField(id, model, 7);
  }

  lemma FourFields(a: Member, b: Member, c: Member, d: Member)
    requires a.key != b.key && a.key != c.key && a.key != d.key && b.key != c.key && b.key != d.key && c.key != d.key
    ensures var j := Obj([a, b, c, d]);
            && Field(j, a.key) == Some(a.value) && Field(j, b.key) == Some(b.value)
            && Field(j, c.key) == Some(c.value) && Field(j, d.key) == Some(d.value)
  {
    var members := [a, b, c, d];
    LookupAt(members, 0);
    LookupAt(members, 1);
    LookupAt(members, 2);
    LookupAt(members, 3);
  }

  lemma BlockStartDecoded(index: int, id: string, name: Option<string>)
    ensures DecodeBlockStart(Some(index), Obj([Member("type", Str("tool_use")), Member("id", Str(id)),
                                               Member("name", OrNull(name)), Member("input", Obj([]))])) ==
            Some(BlockStart(index, id, name))
  {
    hide Field;
    FourFields(Member("type", Str("tool_use")), Member("id", Str(id)), Member("name", OrNull(name)),
               Member("input", Obj([])));
  }

  lemma TextDeltaDecoded(text: string)
    ensures DecodeBlockDelta(Some(Num("0")), Obj([Member("type", Str("text_delta")), Member("text", Str(text))])) ==
            Some(TextDelta(text))
  {
    IntRoundTrip(0);
    ZeroText();
    hide Field, IntValue, Int;
    TwoFields(Member("type", Str("text_delta")), Member("text", Str(text)));
  }

  lemma ArgsDeltaDecoded(at: Option<int>, json: string)
    ensures DecodeBlockDelta(Some(if at.Some? then Int(at.value) else Null),
                             Obj([Member("type", Str("input_json_delta")), Member("partial_json", Str(json))])) ==
            Some(ArgsDelta(at, json))
  {
    if at.Some? {
      IntRoundTrip(at.value);
    }
    hide Field, IntValue, IntText;
    TwoFields(Member("type", Str("input_json_delta")), Member("partial_json", Str(json)));
  }

  lemma ReasonDecoded(reason: string)
    ensures DecodeMessageDelta(Obj([Member("stop_reason", Str(reason))]), Some(UsageJson(Int(0), Int(0)))) ==
            Some(FinishDelta(reason))
    ensures reason == "end_turn" ==>
              DecodeMessageDelta(Obj([Member("stop_reason", Str(reason))]), None) == Some(EndTurnDelta)
  {
    hide Field, Int, UsageJson, IsZeroUsage;
    ZeroUsage();
    OneField(Member("stop_reason", Str(reason)));
  }

  lemma UsageDeltaDecoded(input: Json, output: Json)
    ensures DecodeMessageDelta(Obj([]), Some(UsageJson(input, output))) == Some(UsageDelta(input, output))
  {
    hide Field, UsageJson, IsZeroUsage;
    NoField("stop_reason");
    UsageDecoded(input, output);
  }

  lemma ErrorDecoded(kind: string, message: string)
    ensures DecodeError(Obj([Member("type", Str(kind)), Member("message", Str(message))])) ==
            Some(ErrorEvent(kind, message))
  {
    hide Field;
    TwoFields(Member("type", Str(kind)), Member("message", Str(message)));
  }

  /** The type of an object with up to two other members, and these. */
  lemma TypedObject(kind: string, more: seq<Member>)
    requires |more| <= 2 && forall m <- more :: m.key != "type"
    requires |more| == 2 ==> more[0].key != more[1].key
    ensures var j := Obj([Member("type", Str(kind))] + more);
            && TypeOf(j) == Some(kind)
            && forall m <- more :: Field(j, m.key) == Some(m.value)
  {
    var t := Member("type", Str(kind));
    if |more| == 0 {
      assert [t] + more == [t];
      OneField(t);
    } else if |more| == 1 {
      assert [t] + more == [t, more[0]];
      TwoFields(t, more[0]);
    } else {
      assert [t] + more == [t, more[0], more[1]];
      ThreeFields(t, more[0], more[1]);
    }
  }

  lemma MembersDiffer(e: Event)
    ensures |EventMembers(e)| <= 2 && (|EventMembers(e)| == 2 ==> EventMembers(e)[0].key != EventMembers(e)[1].key)
  {
    hide MessageMembers, UsageJson, Int, OrNull;
  }

  lemma EventObject(e: Event)
    ensures TypeOf(EventJson(e)) == Some(EventName(e))
    ensures forall m <- EventMembers(e) :: Field(EventJson(e), m.key) == Some(m.value)
  {
    NoTypeAmongMembers(e);
    MembersDiffer(e);
    hide EventMembers, EventName, Field, TypeOf;
    var more := EventMembers(e);
    forall m <- more
      ensures m.key != "type"
    {
      var i :| 0 <= i < |more| && more[i] == m;
      assert Keys(more)[i] == m.key;
    }
    TypedObject(EventName(e), more);
  }

  lemma EndTurnHasNoUsage()
    ensures Field(EventJson(EndTurnDelta), "usage") == None
  {
    var members := EventJson(EndTurnDelta).members;
    assert members == [members[0], members[1]];
    hide Field;
    OtherField(members[0], members[1], "usage");
  }

  lemma MessageStartCase(j: Json, m: Json)
    requires TypeOf(j) == Some("message_start") && Field(j, "message") == Some(m)
    ensures Decode(j) == DecodeMessageStart(m)
  {
    hide Field, TypeOf, IntIn, DecodeMessageStart, DecodeBlockStart, DecodeBlockDelta, DecodeMessageDelta, DecodeError;
  }

  lemma BlockStartCase(j: Json, block: Json)
    requires TypeOf(j) == Some("content_block_start") && Field(j, "content_block") == Some(block)
    ensures Decode(j) == DecodeBlockStart(IntIn(Field(j, "index")), block)
  {
    hide Field, TypeOf, IntIn, DecodeMessageStart, DecodeBlockStart, DecodeBlockDelta, DecodeMessageDelta, DecodeError;
  }

  lemma BlockDeltaCase(j: Json, delta: Json)
    requires TypeOf(j) == Some("content_block_delta") && Field(j, "delta") == Some(delta)
    ensures Decode(j) == DecodeBlockDelta(Field(j, "index"), delta)
  {
    hide Field, TypeOf, IntIn, DecodeMessageStart, DecodeBlockStart, DecodeBlockDelta, DecodeMessageDelta, DecodeError;
  }

  lemma BlockStopCase(j: Json, index: int)
    requires TypeOf(j) == Some("content_block_stop") && IntIn(Field(j, "index")) == Some(index)
    ensures Decode(j) == Some(BlockStop(index))
  {
    hide Field, TypeOf, IntIn, DecodeMessageStart, DecodeBlockStart, DecodeBlockDelta, DecodeMessageDelta, DecodeError;
  }

  lemma MessageDeltaCase(j: Json, delta: Json)
    requires TypeOf(j) == Some("message_delta") && Field(j, "delta") == Some(delta)
    ensures Decode(j) == DecodeMessageDelta(delta, Field(j, "usage"))
  {
    hide Field, TypeOf, IntIn, DecodeMessageStart, DecodeBlockStart, DecodeBlockDelta, DecodeMessageDelta, DecodeError;
  }

  lemma MessageStopCase(j: Json)
    requires TypeOf(j) == Some("message_stop")
    ensures Decode(j) == Some(MessageStop)
  {
    hide Field, TypeOf, IntIn, DecodeMessageStart, DecodeBlockStart, DecodeBlockDelta, DecodeMessageDelta, DecodeError;
  }

  lemma ErrorCase(j: Json, error: Json)
    requires TypeOf(j) == Some("error") && Field(j, "error") == Some(error)
    ensures Decode(j) == DecodeError(error)
  {
    hide Field, TypeOf, IntIn, DecodeMessageStart, DecodeBlockStart, DecodeBlockDelta, DecodeMessageDelta, DecodeError;
  }

  lemma IndexDecoded(index: int)
    ensures IntIn(Some(Int(index))) == Some(index)
  {
    hide IntValue, IntText;
    IntRoundTrip(index);
  }

  lemma BlockEventDecoded(e: Event)
    requires e.BlockStart? || e.BlockStop?
    ensures Decode(EventJson(e)) == Some(e)
  {
    EventObject(e);
    var j, ms := EventJson(e), EventMembers(e);
    assert ms[0] in ms && (|ms| > 1 ==> ms[1] in ms);
    hide Field, TypeOf, EventJson, Decode, DecodeBlockStart, IntIn, Int, OrNull;
    IndexDecoded(e.index);
    match e
    case BlockStart(index, id, name) =>
      BlockStartCase(j, ms[1].value);
      BlockStartDecoded(index, id, name);
    case BlockStop(index) => BlockStopCase(j, index);
  }

  lemma BlockDeltaDecoded(e: Event)
    requires e.ArgsDelta? || e.TextDelta?
    ensures Decode(EventJson(e)) == Some(e)
  {
    EventObject(e);
    var j, ms := EventJson(e), EventMembers(e);
    assert ms[0] in ms && ms[1] in ms;
    hide Field, TypeOf, EventJson, Decode, DecodeBlockDelta, Int;
    BlockDeltaCase(j, ms[1].value);
    match e
    case ArgsDelta(at, json) => ArgsDeltaDecoded(at, json);
    case TextDelta(text) => TextDeltaDecoded(text);
  }

  lemma MessageDeltaDecoded(e: Event)
    requires e.FinishDelta? || e.EndTurnDelta? || e.UsageDelta?
    ensures Decode(EventJson(e)) == Some(e)
  {
    EventObject(e);
    var j, ms := EventJson(e), EventMembers(e);
    assert ms[0] in ms && (|ms| > 1 ==> ms[1] in ms);
    hide Field, TypeOf, EventJson, Decode, DecodeMessageDelta, UsageJson, Int;
    MessageDeltaCase(j, ms[0].value);
    match e
    case FinishDelta(reason) => ReasonDecoded(reason);
    case EndTurnDelta =>
      EndTurnHasNoUsage();
      ReasonDecoded("end_turn");
    case UsageDelta(input, output) => UsageDeltaDecoded(input, output);
  }

  lemma OtherEventDecoded(e: Event)
    requires e.MessageStart? || e.MessageStop? || e.ErrorEvent?
    ensures Decode(EventJson(e)) == Some(e)
  {
    EventObject(e);
    var j, ms := EventJson(e), EventMembers(e);
    assert |ms| > 0 ==> ms[0] in ms;
    hide Field, TypeOf, EventJson, Decode, DecodeMessageStart, DecodeError, MessageMembers;
    match e
    case MessageStart(id, model) =>
      MessageStartCase(j, ms[0].value);
      MessageStartDecoded(id, model);
    case MessageStop => MessageStopCase(j);
    case ErrorEvent(kind, message) =>
      ErrorCase(j, ms[0].value);
      ErrorDecoded(kind, message);
  }

  /** Every field of every event is read back from its object. */
  lemma EventDecoded(e: Event)
    ensures Decode(EventJson(e)) == Some(e) && TypeOf(EventJson(e)) == Some(EventName(e))
  {
    hide Decode, EventJson, TypeOf;
    EventObject(e);
    if e.BlockStart? || e.BlockStop? {
      BlockEventDecoded(e);
    } else if e.ArgsDelta? || e.TextDelta? {
      BlockDeltaDecoded(e);
    } else if e.FinishDelta? || e.EndTurnDelta? || e.UsageDelta? {
      MessageDeltaDecoded(e);
    } else {
      OtherEventDecoded(e);
    }
  }
}
