/**
 A reader for the text `Json.Dumps` writes. It shows that the two laws the
 converters rely on can be met by a reader that keeps one value per key, as
 Python does: reading inverts writing in every style for all values Python can
 hold, and no text is the JSON form of itself.
 */
module JsonReader {
  import opened Sequences
  import opened Text
  import opened Json

  datatype Parsed<+T> = Fail | Got(value: T, rest: string)

  /** What the conversion theorems need to know about `json.loads` and the literals `reprs` it gives back. */
  ghost predicate IsReader(loads: string -> Option<Json>, reprs: NumText -> bool) {
    && reprs("0")
    && (forall j: Json, st: Style | Held(j, reprs) :: loads(Dumps(j, st)) == Some(j))
    && (forall s: string :: loads(s) != Some(Str(s)))
  }

  function HexValue(c: char): int {
    if '0' <= c <= '9' then c as int - '0' as int
    else if 'a' <= c <= 'f' then c as int - 'a' as int + 10
    else if 'A' <= c <= 'F' then c as int - 'A' as int + 10
    else -1
  }

  /** The code unit of a leading `\uXXXX`, or -1. */
  function CodeUnit(s: string): (n: int)
    ensures -1 <= n < 0x10000
    ensures n != -1 ==> |s| >= 6
  {
    if |s| < 6 || s[0] != '\\' || s[1] != 'u' then -1
    else
      var a, b, c, d := HexValue(s[2]), HexValue(s[3]), HexValue(s[4]), HexValue(s[5]);
      if a < 0 || b < 0 || c < 0 || d < 0 then -1 else 4096 * a + 256 * b + 16 * c + d
  }

  function Unshort(c: char): Option<char> {
    match c
    case '\"' => Some('\"')
    case '\\' => Some('\\')
    case '/' => Some('/')
    case 'b' => Some(8 as char)
    case 'f' => Some(12 as char)
    case 'n' => Some('\n')
    case 'r' => Some('\r')
    case 't' => Some('\t')
    case _ => None
  }

  /** One possibly escaped character of a string body; a lone surrogate is refused. */
  function ReadChar(s: string): (r: Parsed<char>)
    ensures r.Got? ==> |r.rest| < |s|
  {
    if s == "" || (s[0] as int) < 32 || s[0] == '\"' then Fail
    else if s[0] != '\\' then Got(s[0], s[1..])
    else if |s| < 2 then Fail
    else if s[1] != 'u' then
      var c := Unshort(s[1]);
      if c.None? then Fail else Got(c.value, s[2..])
    else
      var hi := CodeUnit(s);
      if hi == -1 then Fail
      else if !(0xD800 <= hi < 0xE000) then Got(hi as char, s[6..])
      else
        var lo := CodeUnit(s[6..]);
        if hi < 0xDC00 && 0xDC00 <= lo < 0xE000
        then Got((0x10000 + 0x400 * (hi - 0xD800) + (lo - 0xDC00)) as char, s[12..])
        else Fail
  }

  /** The rest of a string, after its opening quote. */
  function ReadString(s: string): (r: Parsed<string>)
    ensures r.Got? ==> |r.rest| + |r.value| < |s|
    decreases |s|
  {
    if s != "" && s[0] == '\"' then Got("", s[1..])
    else
      var c := ReadChar(s);
      if c.Fail? then Fail
      else
        var t := ReadString(c.rest);
        if t.Fail? then Fail else Got([c.value] + t.value, t.rest)
  }

  function SkipSpace(s: string): (r: string)
    ensures |r| <= |s|
  {
    if s != "" && (s[0] == ' ' || s[0] == '\t' || s[0] == '\n' || s[0] == '\r') then SkipSpace(s[1..]) else s
  }

  function NumberLength(s: string): (n: nat)
    ensures n <= |s| && forall i | 0 <= i < n :: IsNumberChar(s[i])
  {
    if s != "" && IsNumberChar(s[0]) then 1 + NumberLength(s[1..]) else 0
  }

  function ReadValue(s: string): (r: Parsed<Json>)
    ensures r.Got? ==> |r.rest| < |s|
    ensures r.Got? && r.value.Str? ==> |r.value.s| < |s|
    decreases |s|, 1
  {
    var t := SkipSpace(s);
    if t == "" then Fail
    else if t[0] == '\"' then
      var p := ReadString(t[1..]);
      if p.Fail? then Fail else Got(Str(p.value), p.rest)
    else if t[0] == '[' then
      var u := SkipSpace(t[1..]);
      if u != "" && u[0] == ']' then Got(Arr([]), u[1..])
      else
        var p := ReadItems(t[1..]);
        if p.Fail? then Fail else Got(Arr(p.value), p.rest)
    else if t[0] == '{' then
      var u := SkipSpace(t[1..]);
      if u != "" && u[0] == '}' then Got(Obj([]), u[1..])
      else
        var p := ReadMembers(t[1..]);
        if p.Fail? then Fail else Got(Obj(p.value), p.rest)
    else if "null" <= t then Got(Null, t[4..])
    else if "true" <= t then Got(Bool(true), t[4..])
    else if "false" <= t then Got(Bool(false), t[5..])
    else
      var n := NumberLength(t);
      if n == 0 then Fail else Got(Num(t[..n]), t[n..])
  }

  function ReadItems(s: string): (r: Parsed<seq<Json>>)
    ensures r.Got? ==> |r.rest| < |s|
    decreases |s|, 2
  {
    var p := ReadValue(s);
    if p.Fail? then Fail
    else
      var t := SkipSpace(p.rest);
      if t == "" then Fail
      else if t[0] == ']' then Got([p.value], t[1..])
      else if t[0] == ',' then
        var q := ReadItems(t[1..]);
        if q.Fail? then Fail else Got([p.value] + q.value, q.rest)
      else Fail
  }

  function ReadMember(s: string): (r: Parsed<Member>)
    ensures r.Got? ==> |r.rest| < |s|
    decreases |s|, 2
  {
    var t := SkipSpace(s);
    if t == "" || t[0] != '\"' then Fail
    else
      var k := ReadString(t[1..]);
      if k.Fail? then Fail
      else
        var u := SkipSpace(k.rest);
        if u == "" || u[0] != ':' then Fail
        else
          var v := ReadValue(u[1..]);
          if v.Fail? then Fail else Got(Member(k.value, v.value), v.rest)
  }

  function ReadMembers(s: string): (r: Parsed<seq<Member>>)
    ensures r.Got? ==> |r.rest| < |s|
    decreases |s|, 3
  {
    var p := ReadMember(s);
    if p.Fail? then Fail
    else
      var t := SkipSpace(p.rest);
      if t == "" then Fail
      else if t[0] == '}' then Got([p.value], t[1..])
      else if t[0] == ',' then
        var q := ReadMembers(t[1..]);
        if q.Fail? then Fail else Got([p.value] + q.value, q.rest)
      else Fail
  }

  function Loads(s: string): Option<Json> {
    var p := ReadValue(s);
    if p.Got? && SkipSpace(p.rest) == "" then Some(p.value) else None
  }

  lemma CodeUnitOfDigits(s: string, a: int, b: int, c: int, d: int)
    requires |s| >= 6 && s[0] == '\\' && s[1] == 'u'
    requires 0 <= a < 16 && HexValue(s[2]) == a
    requires 0 <= b < 16 && HexValue(s[3]) == b
    requires 0 <= c < 16 && HexValue(s[4]) == c
    requires 0 <= d < 16 && HexValue(s[5]) == d
    ensures CodeUnit(s) == 16 * (16 * (16 * a + b) + c) + d
  {
  }

  lemma HexRoundTrip(n: int)
    requires 0 <= n < 16
    ensures HexValue(HexDigit(n)) == n
  {
  }

  lemma CodeUnitOfEscape(n: int, rest: string)
    requires 0 <= n < 0x10000
    ensures CodeUnit(UnicodeEscape(n) + rest) == n
    ensures (UnicodeEscape(n) + rest)[6..] == rest
  {
    var m := n / 16;
    var l := m / 16;
    var h := Hex4(n);
    HexRoundTrip(l / 16); HexRoundTrip(l % 16); HexRoundTrip(m % 16); HexRoundTrip(n % 16);
    CodeUnitOfDigits(UnicodeEscape(n) + rest, l / 16, l % 16, m % 16, n % 16);
  }

  lemma ReadShort(s: string, c: char)
    requires |s| >= 2 && s[0] == '\\' && ShortEscape(c) == Some(s[1])
    ensures ReadChar(s) == Got(c, s[2..])
  {
  }

  lemma ReadUnit(s: string)
    requires |s| >= 6 && s[0] == '\\' && s[1] == 'u'
    requires 0 <= CodeUnit(s) && !(0xD800 <= CodeUnit(s) < 0xE000)
    ensures ReadChar(s) == Got(CodeUnit(s) as char, s[6..])
  {
  }

  lemma ReadPlain(c: char, rest: string)
    requires 32 <= c as int && c != '\"' && c != '\\'
    ensures ReadChar([c] + rest) == Got(c, rest)
  {
    assert ([c] + rest)[1..] == rest;
  }

  lemma ReadPair(s: string, hi: int, lo: int)
    requires |s| >= 12 && s[0] == '\\' && s[1] == 'u'
    requires CodeUnit(s) == hi && 0xD800 <= hi < 0xDC00
    requires CodeUnit(s[6..]) == lo && 0xDC00 <= lo < 0xE000
    ensures ReadChar(s) == Got((0x10000 + 0x400 * (hi - 0xD800) + (lo - 0xDC00)) as char, s[12..])
  {
  }

  lemma ReadSurrogatePair(n: int, rest: string)
    requires 0x10000 <= n < 0x110000
    ensures var v := n - 0x10000;
            ReadChar(UnicodeEscape(0xD800 + v / 0x400) + (UnicodeEscape(0xDC00 + v % 0x400) + rest))
            == Got(n as char, rest)
  {
    var v := n - 0x10000;
    var hi, lo := 0xD800 + v / 0x400, 0xDC00 + v % 0x400;
    var tail := UnicodeEscape(lo) + rest;
    var s := UnicodeEscape(hi) + tail;
    CodeUnitOfEscape(lo, rest);
    CodeUnitOfEscape(hi, tail);
    assert s[0] == '\\' && s[1] == 'u';
    assert s[12..] == s[6..][6..] == rest;
    ReadPair(s, hi, lo);
  }

  lemma ReadEscapedChar(c: char, ascii: bool, rest: string)
    ensures ReadChar(EscapeChar(c, ascii) + rest) == Got(c, rest)
  {
    hide ReadChar, CodeUnit, Hex4;
    var s := EscapeChar(c, ascii) + rest;
    var n := c as int;
    if ShortEscape(c).Some? {
      ReadShort(s, c);
      assert s[2..] == rest;
    } else if 32 <= n < 127 || (127 <= n && !ascii) {
      ReadPlain(c, rest);
    } else if n < 0x10000 {
      CodeUnitOfEscape(n, rest);
      ReadUnit(s);
    } else {
      ReadSurrogatePair(n, rest);
      var v := n - 0x10000;
      assert s == UnicodeEscape(0xD800 + v / 0x400) + (UnicodeEscape(0xDC00 + v % 0x400) + rest);
    }
  }

  lemma ReadStringStep(t: string, c: char, more: string)
    requires ReadChar(t) == Got(c, more)
    requires ReadString(more).Got?
    ensures ReadString(t) == Got([c] + ReadString(more).value, ReadString(more).rest)
  {
  }

  lemma {:induction false} ReadQuoted(s: string, ascii: bool, rest: string)
    ensures ReadString(Escape(s, ascii) + ("\"" + rest)) == Got(s, rest)
  {
    hide EscapeChar, ReadChar;
    var t := Escape(s, ascii) + ("\"" + rest);
    if s == "" {
      assert t[1..] == rest;
    } else {
      var more := Escape(s[1..], ascii) + ("\"" + rest);
      ReadQuoted(s[1..], ascii, rest);
      ReadEscapedChar(s[0], ascii, more);
      assert t == EscapeChar(s[0], ascii) + more;
      ReadStringStep(t, s[0], more);
      assert [s[0]] + s[1..] == s;
    }
  }

  /** `rest` cannot be taken for a continuation of a number. */
  predicate EndsNumber(rest: string) {
    rest == "" || !IsNumberChar(rest[0])
  }

  lemma {:induction false} NumberLengthOf(lit: string, rest: string)
    requires forall i | 0 <= i < |lit| :: IsNumberChar(lit[i])
    requires EndsNumber(rest)
    ensures NumberLength(lit + rest) == |lit|
  {
    if lit == "" {
      assert lit + rest == rest;
    } else {
      NumberLengthOf(lit[1..], rest);
      assert (lit + rest)[1..] == lit[1..] + rest;
    }
  }

  predicate StartsSolid(s: string) {
    s != "" && s[0] !in {' ', '\t', '\n', '\r'}
  }

  /** How a serialised value begins. */
  lemma DumpsStart(j: Json, st: Style)
    ensures StartsSolid(Dumps(j, st)) && Dumps(j, st)[0] !in {']', '}'}
  {
  }

  lemma SkipOneSpace(s: string)
    requires StartsSolid(s)
    ensures SkipSpace(" " + s) == s
  {
    assert (" " + s)[1..] == s;
  }

  lemma ReadValueAfterSpace(s: string)
    requires StartsSolid(s)
    ensures ReadValue(" " + s) == ReadValue(s)
  {
    SkipOneSpace(s);
  }

  lemma ReadItemsAfterSpace(s: string)
    requires StartsSolid(s)
    ensures ReadItems(" " + s) == ReadItems(s)
  {
    ReadValueAfterSpace(s);
  }

  lemma ReadMembersAfterSpace(s: string)
    requires StartsSolid(s)
    ensures ReadMembers(" " + s) == ReadMembers(s)
  {
    SkipOneSpace(s);
    assert ReadMember(" " + s) == ReadMember(s);
  }

  lemma ReadLiteral(j: Json, st: Style, rest: string)
    requires j.Null? || j.Bool? || j.Num?
    requires EndsNumber(rest)
    ensures ReadValue(Dumps(j, st) + rest) == Got(j, rest)
  {
    var s := Dumps(j, st) + rest;
    assert SkipSpace(s) == s;
    match j
    case Null => assert s[4..] == rest;
    case Bool(b) => assert s[if b then 4 else 5..] == rest;
    case Num(literal) =>
      NumberLengthOf(literal, rest);
      assert s[..|literal|] == literal && s[|literal|..] == rest;
  }

  lemma ReadStr(v: string, ascii: bool, rest: string)
    ensures ReadValue(Quote(v, ascii) + rest) == Got(Str(v), rest)
  {
    hide ReadString, Escape;
    var s := Quote(v, ascii) + rest;
    ReadQuoted(v, ascii, rest);
    assert s[1..] == Escape(v, ascii) + ("\"" + rest);
  }

  /** A bracketed list of items, read from its parts. */
  lemma ReadArr(s: string, inner: string, items: seq<Json>, rest: string)
    requires s == "[" + (inner + ("]" + rest))
    requires if items == [] then inner == ""
             else StartsSolid(inner) && inner[0] != ']' && ReadItems(inner + ("]" + rest)) == Got(items, rest)
    ensures ReadValue(s) == Got(Arr(items), rest)
  {
    hide ReadItems;
    var t := inner + ("]" + rest);
    assert SkipSpace(s) == s;
    assert s[1..] == t;
    assert SkipSpace(t) == t;
    if items == [] {
      assert t == "]" + rest;
      assert t[1..] == rest;
    } else {
      assert t[0] == inner[0];
    }
  }

  lemma ReadObj(s: string, inner: string, members: seq<Member>, rest: string)
    requires s == "{" + (inner + ("}" + rest))
    requires if members == [] then inner == ""
             else StartsSolid(inner) && inner[0] != '}' && ReadMembers(inner + ("}" + rest)) == Got(members, rest)
    ensures ReadValue(s) == Got(Obj(members), rest)
  {
    hide ReadMembers;
    var t := inner + ("}" + rest);
    assert SkipSpace(s) == s;
    assert s[1..] == t;
    assert SkipSpace(t) == t;
    if members == [] {
      assert t == "}" + rest;
      assert t[1..] == rest;
    } else {
      assert t[0] == inner[0];
    }
  }

  lemma DumpsNothing(st: Style)
    ensures DumpsItems([], st) == "" && DumpsMembers([], st) == ""
  {
  }

  lemma {:induction false} ReadDumped(j: Json, st: Style, rest: string)
    requires EndsNumber(rest)
    ensures ReadValue(Dumps(j, st) + rest) == Got(j, rest)
    decreases j, 1
  {
    hide ReadValue, ReadItems, ReadMembers, Quote, DumpsItems, DumpsMembers;
    DumpsNothing(st);
    match j
    case Str(v) => ReadStr(v, st.ascii, rest);
    case Arr(items) =>
      if items != [] {
        ReadDumpedItems(items, st, rest);
      }
      var s := Dumps(j, st) + rest;
      assert s == "[" + (DumpsItems(items, st) + ("]" + rest));
      ReadArr(s, DumpsItems(items, st), items, rest);
    case Obj(members) =>
      if members != [] {
        ReadDumpedMembers(members, st, rest);
      }
      var s := Dumps(j, st) + rest;
      assert s == "{" + (DumpsMembers(members, st) + ("}" + rest));
      ReadObj(s, DumpsMembers(members, st), members, rest);
    case _ => ReadLiteral(j, st, rest);
  }

  /** One item followed by the separator and more items. */
  lemma ReadItemsStep(s: string, j: Json, st: Style, more: string)
    requires ReadValue(s) == Got(j, Comma(st) + more)
    requires StartsSolid(more) && ReadItems(more).Got?
    ensures ReadItems(s) == Got([j] + ReadItems(more).value, ReadItems(more).rest)
  {
    hide ReadValue;
    var t := Comma(st) + more;
    assert SkipSpace(t) == t;
    assert t[1..] == if st.spaced then " " + more else more;
    ReadItemsAfterSpace(more);
  }

  lemma ReadItemsLast(s: string, x: Json, rest: string)
    requires ReadValue(s) == Got(x, "]" + rest)
    ensures ReadItems(s) == Got([x], rest)
  {
    hide ReadValue;
    var t := "]" + rest;
    assert SkipSpace(t) == t;
    assert t[1..] == rest;
  }

  lemma {:induction false} ReadDumpedItems(items: seq<Json>, st: Style, rest: string)
    requires items != []
    ensures ReadItems(DumpsItems(items, st) + ("]" + rest)) == Got(items, rest)
    ensures StartsSolid(DumpsItems(items, st)) && DumpsItems(items, st)[0] != ']'
    decreases items, 0
  {
    hide ReadValue, ReadItems, Dumps;
    DumpsStart(items[0], st);
    var close := "]" + rest;
    if |items| == 1 {
      ReadDumped(items[0], st, close);
      ReadItemsLast(Dumps(items[0], st) + close, items[0], rest);
      assert items == [items[0]];
    } else {
      var more := DumpsItems(items[1..], st) + close;
      ReadDumpedItems(items[1..], st, rest);
      ReadDumped(items[0], st, Comma(st) + more);
      var s := Dumps(items[0], st) + (Comma(st) + more);
      assert DumpsItems(items, st) + close == s;
      ReadItemsStep(s, items[0], st, more);
      assert [items[0]] + items[1..] == items;
    }
  }

  lemma {:induction false} ReadDumpedMember(m: Member, st: Style, rest: string)
    requires EndsNumber(rest)
    ensures ReadMember(DumpsMember(m, st) + rest) == Got(m, rest)
    decreases m, 0
  {
    hide ReadValue, Dumps, ReadString, Escape;
    var s := DumpsMember(m, st) + rest;
    var value := Dumps(m.value, st) + rest;
    var t := Colon(st) + value;
    DumpsStart(m.value, st);
    ReadDumped(m.value, st, rest);
    ReadQuoted(m.key, st.ascii, t);
    assert SkipSpace(s) == s;
    assert s[1..] == Escape(m.key, st.ascii) + ("\"" + t);
    assert SkipSpace(t) == t;
    assert t[1..] == if st.spaced then " " + value else value;
    ReadValueAfterSpace(value);
  }

  lemma ReadMembersStep(s: string, m: Member, st: Style, more: string)
    requires ReadMember(s) == Got(m, Comma(st) + more)
    requires StartsSolid(more) && ReadMembers(more).Got?
    ensures ReadMembers(s) == Got([m] + ReadMembers(more).value, ReadMembers(more).rest)
  {
    hide ReadMember;
    var t := Comma(st) + more;
    assert SkipSpace(t) == t;
    assert t[1..] == if st.spaced then " " + more else more;
    ReadMembersAfterSpace(more);
  }

  lemma ReadMembersLast(s: string, x: Member, rest: string)
    requires ReadMember(s) == Got(x, "}" + rest)
    ensures ReadMembers(s) == Got([x], rest)
  {
    hide ReadMember;
    var t := "}" + rest;
    assert SkipSpace(t) == t;
    assert t[1..] == rest;
  }

  lemma MemberStart(m: Member, st: Style)
    ensures DumpsMember(m, st) != "" && DumpsMember(m, st)[0] == '\"'
  {
    hide Escape, Dumps;
  }

  lemma MembersStart(members: seq<Member>, st: Style)
    requires members != []
    ensures |members| == 1 ==> DumpsMembers(members, st) == DumpsMember(members[0], st)
    ensures |members| > 1 ==>
              DumpsMembers(members, st) == DumpsMember(members[0], st) + Comma(st) + DumpsMembers(members[1..], st)
    ensures StartsSolid(DumpsMembers(members, st)) && DumpsMembers(members, st)[0] != '}'
  {
    MemberStart(members[0], st);
    hide DumpsMember;
  }

  lemma SolidAppend(s: string, rest: string)
    requires StartsSolid(s)
    ensures StartsSolid(s + rest)
  {
  }

  lemma EndsAtBrace(rest: string)
    ensures EndsNumber("}" + rest)
  {
  }

  lemma EndsAtComma(st: Style, rest: string)
    ensures EndsNumber(Comma(st) + rest)
  {
  }

  lemma {:induction false} ReadDumpedMembers(members: seq<Member>, st: Style, rest: string)
    requires members != []
    ensures ReadMembers(DumpsMembers(members, st) + ("}" + rest)) == Got(members, rest)
    ensures StartsSolid(DumpsMembers(members, st)) && DumpsMembers(members, st)[0] != '}'
    decreases members, 0
  {
    hide ReadMember, ReadMembers, DumpsMember;
    var first, others := members[0], members[1..];
    MemberStart(first, st);
    MembersStart(members, st);
    if |members| == 1 {
      EndsAtBrace(rest);
      ReadDumpedMember(first, st, "}" + rest);
      ReadMembersLast(DumpsMember(first, st) + ("}" + rest), first, rest);
      assert members == [first];
    } else {
      var tail := DumpsMembers(others, st);
      var more := tail + ("}" + rest);
      ReadDumpedMembers(others, st, rest);
      hide StartsSolid, Comma, EndsNumber, DumpsMembers;
      SolidAppend(tail, "}" + rest);
      EndsAtComma(st, more);
      ReadDumpedMember(first, st, Comma(st) + more);
      assert DumpsMember(first, st) + Comma(st) + tail + ("}" + rest) == DumpsMember(first, st) + (Comma(st) + more);
      ReadMembersStep(DumpsMember(first, st) + (Comma(st) + more), first, st, more);
      assert [first] + others == members;
    }
  }

  // ---- One value per key ----

  /** A dictionary entry: a key that is there keeps its place and gets the new value. */
  function Put(members: seq<Member>, m: Member): seq<Member> {
    if members == [] then [m]
    else if members[0].key == m.key then [m] + members[1..]
    else [members[0]] + Put(members[1..], m)
  }

  /** The value with every object read into a dictionary. */
  function Collapse(j: Json): Json
    decreases j, 1
  {
    match j
    case Arr(items) => Arr(CollapseItems(items))
    case Obj(members) => Obj(CollapseMembers([], members))
    case _ => j
  }

  function CollapseItems(items: seq<Json>): seq<Json>
    decreases items, 0
  {
    if items == [] then [] else [Collapse(items[0])] + CollapseItems(items[1..])
  }

  function CollapseMembers(before: seq<Member>, members: seq<Member>): seq<Member>
    decreases members, 0
  {
    if members == [] then before
    else CollapseMembers(Put(before, Member(members[0].key, Collapse(members[0].value))), members[1..])
  }

  lemma {:induction false} PutFresh(members: seq<Member>, m: Member)
    requires m.key !in Keys(members)
    ensures Put(members, m) == members + [m]
  {
    if members == [] {
    } else {
      assert Keys(members)[0] == members[0].key;
      assert Keys(members)[1..] == Keys(members[1..]);
      PutFresh(members[1..], m);
    }
  }

  lemma {:induction false} HeldUnchanged(j: Json, reprs: NumText -> bool)
    requires Held(j, reprs)
    ensures Collapse(j) == j
    decreases j, 1
  {
    match j
    case Arr(items) => HeldItemsUnchanged(items, reprs);
    case Obj(members) =>
      assert [] + members == members;
      HeldMembersUnchanged([], members, reprs);
    case _ =>
  }

  lemma {:induction false} HeldItemsUnchanged(items: seq<Json>, reprs: NumText -> bool)
    requires forall x <- items :: Held(x, reprs)
    ensures CollapseItems(items) == items
    decreases items, 0
  {
    if items == [] {
    } else {
      assert items[0] in items;
      HeldUnchanged(items[0], reprs);
      HeldItemsUnchanged(items[1..], reprs);
    }
  }

  lemma {:induction false} HeldMembersUnchanged(before: seq<Member>, members: seq<Member>, reprs: NumText -> bool)
    requires Distinct(Keys(before + members)) && forall m <- members :: Held(m.value, reprs)
    ensures CollapseMembers(before, members) == before + members
    decreases members, 0
  {
    if members == [] {
    } else {
      var m := members[0];
      assert m in members;
      HeldUnchanged(m.value, reprs);
      assert Keys(before + members)[|before|] == m.key;
      assert forall i | 0 <= i < |before| :: Keys(before)[i] == Keys(before + members)[i];
      PutFresh(before, m);
      assert before + [m] + members[1..] == before + members;
      HeldMembersUnchanged(before + [m], members[1..], reprs);
    }
  }

  predicate AnyLiteral(literal: NumText) {
    true
  }

  predicate AllHeld(members: seq<Member>) {
    forall m <- members :: Held(m.value, AnyLiteral)
  }

  lemma KeysCons(m: Member, members: seq<Member>)
    ensures Keys([m] + members) == [m.key] + Keys(members)
  {
  }

  lemma DistinctCons(k: string, keys: seq<string>)
    requires k !in keys && Distinct(keys)
    ensures Distinct([k] + keys)
  {
  }

  /** An entry adds its key unless it is there. */
  lemma {:induction false} PutKeys(members: seq<Member>, m: Member)
    ensures Keys(Put(members, m)) == if m.key in Keys(members) then Keys(members) else Keys(members) + [m.key]
  {
    if members == [] {
      assert Keys([m]) == [m.key] && Keys(members) == [];
    } else {
      var first, rest := members[0], members[1..];
      assert members == [first] + rest;
      KeysCons(first, rest);
      if first.key == m.key {
        KeysCons(m, rest);
      } else {
        PutKeys(rest, m);
        KeysCons(first, Put(rest, m));
      }
    }
  }

  lemma {:induction false} PutHeld(members: seq<Member>, m: Member)
    requires AllHeld(members) && Held(m.value, AnyLiteral)
    ensures AllHeld(Put(members, m))
  {
    hide Held;
    if members == [] {
    } else {
      assert members[0] in members;
      assert AllHeld(members[1..]);
      PutHeld(members[1..], m);
    }
  }

  /** No dictionary that comes out of the reader has a key twice. */
  lemma {:induction false} CollapseIsHeld(j: Json)
    ensures Held(Collapse(j), AnyLiteral)
    decreases j, 1
  {
    match j
    case Arr(items) => CollapseItemsIsHeld(items);
    case Obj(members) => CollapseMembersIsHeld([], members);
    case _ =>
  }

  lemma {:induction false} CollapseItemsIsHeld(items: seq<Json>)
    ensures forall x <- CollapseItems(items) :: Held(x, AnyLiteral)
    decreases items, 0
  {
    if items == [] {
    } else {
      CollapseIsHeld(items[0]);
      CollapseItemsIsHeld(items[1..]);
    }
  }

  lemma {:induction false} CollapseMembersIsHeld(before: seq<Member>, members: seq<Member>)
    requires Distinct(Keys(before)) && AllHeld(before)
    ensures var all := CollapseMembers(before, members); Distinct(Keys(all)) && AllHeld(all)
    decreases members, 0
  {
    if members == [] {
    } else {
      var m := Member(members[0].key, Collapse(members[0].value));
      CollapseIsHeld(members[0].value);
      PutKeys(before, m);
      PutHeld(before, m);
      CollapseMembersIsHeld(Put(before, m), members[1..]);
    }
  }

  /** A reader that keeps one value per key. */
  function DictLoads(s: string): Option<Json> {
    var parsed := Loads(s);
    if parsed.None? then None else Some(Collapse(parsed.value))
  }

  lemma LoadsIsNotItself(s: string)
    ensures Loads(s) != Some(Str(s))
  {
  }

  /**
   Whatever literals there are, reading into dictionaries inverts writing, no
   text denotes itself as a string, and no value that is read has a key twice.
   */
  lemma DictLoadsIsAReader(reprs: NumText -> bool)
    requires reprs("0")
    ensures IsReader(DictLoads, reprs)
    ensures forall s: string | DictLoads(s).Some? :: Held(DictLoads(s).value, AnyLiteral)
  {
    hide Dumps, Held;
    forall j: Json, st: Style | Held(j, reprs)
      ensures DictLoads(Dumps(j, st)) == Some(j)
    {
      ReadDumped(j, st, "");
      assert Dumps(j, st) + "" == Dumps(j, st);
      HeldUnchanged(j, reprs);
    }
    forall s: string
      ensures DictLoads(s) != Some(Str(s))
      ensures DictLoads(s).Some? ==> Held(DictLoads(s).value, AnyLiteral)
    {
      LoadsIsNotItself(s);
      if Loads(s).Some? {
        CollapseIsHeld(Loads(s).value);
      }
    }
  }
}
