/**
 JSON values and their text form as Python's `json.dumps` writes it (section 7
 of RFC 8259 for the string escapes), in the two styles the converters use.
 */
module Json {
  import opened Sequences
  import opened Text

  predicate IsNumberChar(c: char) {
    '0' <= c <= '9' || c == '+' || c == '-' || c == '.' || c == 'e' || c == 'E'
  }

  /** A number is kept as the literal it is written with. */
  type NumText = s: string | s != "" && forall i | 0 <= i < |s| :: IsNumberChar(s[i]) witness "0"

  datatype Json =
    | Null
    | Bool(b: bool)
    | Num(literal: NumText)
    | Str(s: string)
    | Arr(items: seq<Json>)
    | Obj(members: seq<Member>)

  datatype Member = Member(key: string, value: Json)

  /** `spaced`: separators `", "` and `": "` instead of `","` and `":"`; `ascii`: `ensure_ascii`. */
  datatype Style = Style(spaced: bool, ascii: bool)

  const PLAIN := Style(true, true)
  const COMPACT := Style(false, false)

  /** Free of control characters, and so of line breaks. */
  predicate Printable(s: string) {
    forall i | 0 <= i < |s| :: 32 <= s[i] as int
  }

  function HexDigit(n: int): (c: char)
    requires 0 <= n < 16
    ensures '0' <= c <= '9' || 'a' <= c <= 'f'
  {
    "0123456789abcdef"[n]
  }

  function Hex4(n: int): (s: string)
    requires 0 <= n < 0x10000
    ensures |s| == 4 && forall i | 0 <= i < 4 :: '0' <= s[i] <= 'f'
  {
    var m := n / 16;
    var l := m / 16;
    [HexDigit(l / 16), HexDigit(l % 16), HexDigit(m % 16), HexDigit(n % 16)]
  }

  function UnicodeEscape(n: int): string
    requires 0 <= n < 0x10000
  {
    "\\u" + Hex4(n)
  }

  /** The letter after the backslash of a short escape. */
  function ShortEscape(c: char): Option<char> {
    match c
    case '\"' => Some('\"')
    case '\\' => Some('\\')
    case '\n' => Some('n')
    case '\r' => Some('r')
    case '\t' => Some('t')
    case _ =>
      if c as int == 8 then Some('b') else if c as int == 12 then Some('f') else None
  }

  function EscapeChar(c: char, ascii: bool): (s: string)
    ensures s != "" && Printable(s)
  {
    var n := c as int;
    var short := ShortEscape(c);
    if short.Some? then ['\\', short.value]
    else if 32 <= n < 127 || (127 <= n && !ascii) then [c]
    else if n < 0x10000 then UnicodeEscape(n)
    else
      var v := n - 0x10000;
      UnicodeEscape(0xD800 + v / 0x400) + UnicodeEscape(0xDC00 + v % 0x400)
  }

  function Escape(s: string, ascii: bool): string {
    if s == "" then "" else EscapeChar(s[0], ascii) + Escape(s[1..], ascii)
  }

  function Quote(s: string, ascii: bool): string {
    "\"" + Escape(s, ascii) + "\""
  }

  function Comma(st: Style): string {
    if st.spaced then ", " else ","
  }

  function Colon(st: Style): string {
    if st.spaced then ": " else ":"
  }

  /** `json.dumps` */
  function Dumps(j: Json, st: Style): string
    decreases j, 1
  {
    match j
    case Null => "null"
    case Bool(b) => if b then "true" else "false"
    case Num(literal) => literal
    case Str(s) => Quote(s, st.ascii)
    case Arr(items) => "[" + DumpsItems(items, st) + "]"
    case Obj(members) => "{" + DumpsMembers(members, st) + "}"
  }

  function DumpsItems(items: seq<Json>, st: Style): string
    decreases items, 0
  {
    if items == [] then ""
    else if |items| == 1 then Dumps(items[0], st)
    else Dumps(items[0], st) + Comma(st) + DumpsItems(items[1..], st)
  }

  function DumpsMember(m: Member, st: Style): string
    decreases m, 0
  {
    Quote(m.key, st.ascii) + Colon(st) + Dumps(m.value, st)
  }

  function DumpsMembers(members: seq<Member>, st: Style): string
    decreases members, 0
  {
    if members == [] then ""
    else if |members| == 1 then DumpsMember(members[0], st)
    else DumpsMember(members[0], st) + Comma(st) + DumpsMembers(members[1..], st)
  }

  lemma TwoMembersText(m: Member, more: Member, st: Style)
    ensures DumpsMembers([m, more], st) == DumpsMember(m, st) + Comma(st) + DumpsMember(more, st)
  {
    hide DumpsMember;
    assert [m, more][1..] == [more];
  }

  /** The default style of `json.dumps`, and the one without spaces that keeps all characters. */
  lemma StylesMeaning(m: Member, more: Member)
    ensures Dumps(Obj([m, more]), PLAIN) ==
            "{" + (Quote(m.key, true) + ": " + Dumps(m.value, PLAIN) + ", "
                   + (Quote(more.key, true) + ": " + Dumps(more.value, PLAIN))) + "}"
    ensures Dumps(Obj([m, more]), COMPACT) ==
            "{" + (Quote(m.key, false) + ":" + Dumps(m.value, COMPACT) + ","
                   + (Quote(more.key, false) + ":" + Dumps(more.value, COMPACT))) + "}"
  {
    hide Quote, DumpsMembers;
    TwoMembersText(m, more, PLAIN);
    TwoMembersText(m, more, COMPACT);
  }

  function Keys(members: seq<Member>): (keys: seq<string>)
    ensures |keys| == |members|
  {
    seq(|members|, i requires 0 <= i < |members| => members[i].key)
  }

  /**
   The values Python can hold: no dictionary has a key twice, and every number
   is written as Python writes it. `reprs` tells which literals those are.
   */
  predicate Held(j: Json, reprs: NumText -> bool)
    decreases j
  {
    match j
    case Num(literal) => reprs(literal)
    case Arr(items) => forall x <- items :: Held(x, reprs)
    case Obj(members) => Distinct(Keys(members)) && forall m <- members :: Held(m.value, reprs)
    case _ => true
  }

  lemma {:induction false} EscapeIsPrintable(s: string, ascii: bool)
    ensures Printable(Escape(s, ascii))
  {
    hide EscapeChar;
    if s == "" {
    } else {
      EscapeIsPrintable(s[1..], ascii);
    }
  }

  lemma QuoteIsPrintable(s: string, ascii: bool)
    ensures Printable(Quote(s, ascii))
  {
    hide Escape;
    EscapeIsPrintable(s, ascii);
  }

  lemma JoinIsPrintable(a: string, separator: string, b: string)
    requires Printable(a) && Printable(separator) && Printable(b)
    ensures Printable(a + separator + b)
  {
  }

  lemma SeparatorsArePrintable(st: Style)
    ensures Printable(Comma(st)) && Printable(Colon(st))
    ensures Printable("{") && Printable("}") && Printable("[") && Printable("]")
    ensures Printable("null") && Printable("true") && Printable("false") && Printable("")
  {
  }

  /** No serialised value holds a raw control character, whatever its strings hold. */
  lemma {:induction false} DumpsIsPrintable(j: Json, st: Style)
    ensures Printable(Dumps(j, st))
    decreases j, 1
  {
    SeparatorsArePrintable(st);
    match j
    case Num(literal) =>
    case Str(s) => QuoteIsPrintable(s, st.ascii);
    case Arr(items) =>
      hide Printable;
      DumpsItemsIsPrintable(items, st);
      JoinIsPrintable("[", DumpsItems(items, st), "]");
    case Obj(members) =>
      hide Printable;
      DumpsMembersIsPrintable(members, st);
      JoinIsPrintable("{", DumpsMembers(members, st), "}");
    case _ =>
  }

  lemma {:induction false} DumpsItemsIsPrintable(items: seq<Json>, st: Style)
    ensures Printable(DumpsItems(items, st))
    decreases items, 0
  {
    hide Printable, Dumps;
    SeparatorsArePrintable(st);
    if items == [] {
    } else {
      DumpsIsPrintable(items[0], st);
      DumpsItemsIsPrintable(items[1..], st);
      JoinIsPrintable(Dumps(items[0], st), Comma(st), DumpsItems(items[1..], st));
    }
  }

  lemma {:induction false} DumpsMembersIsPrintable(members: seq<Member>, st: Style)
    ensures Printable(DumpsMembers(members, st))
    decreases members, 0
  {
    hide Printable, Quote, Dumps;
    SeparatorsArePrintable(st);
    if members == [] {
    } else {
      var m := members[0];
      QuoteIsPrintable(m.key, st.ascii);
      DumpsIsPrintable(m.value, st);
      JoinIsPrintable(Quote(m.key, st.ascii), Colon(st), Dumps(m.value, st));
      DumpsMembersIsPrintable(members[1..], st);
      JoinIsPrintable(DumpsMember(m, st), Comma(st), DumpsMembers(members[1..], st));
    }
  }
}
