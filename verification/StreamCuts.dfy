/**
 Why a cut must not fall inside a CR LF pair: the lone CR keeps a blank line
 from being one, and two payloads become one.
 */
module StreamCuts {
  import opened Sequences
  import opened Text
  import opened SseFramer

  predicate IsValue(v: string) {
    v != "" && !IsSpace(v[0]) && '\r' !in v && '\n' !in v
  }

  lemma NormalizeLine(l: string, rest: string)
    requires l != "" && '\r' !in l
    ensures Normalize(l + rest) == l + Normalize(rest)
  {
    assert l[|l| - 1] in l;
    NormalizeKeepingCut(l, rest);
    NormalizeWithoutCr(l);
  }

  lemma NormalizeEnd(rest: string)
    ensures Normalize("\r\n" + rest) == "\n" + Normalize(rest)
  {
    var s := "\r\n" + rest;
    assert "\r\n" <= s && s[2..] == rest;
    NormalizeCrLf(s);
  }

  lemma ValueLine(v: string)
    requires IsValue(v)
    ensures DataValue(DATA + v) == [v]
    ensures '\n' !in DATA + v && '\r' !in DATA + v && DATA + v != ""
  {
    var l := DATA + v;
    assert IsDataLine(l) && l[|DATA|..] == v;
    assert LStrip(v) == v;
  }

  lemma NotBlankLine(s: string)
    requires s != "" && s[0] == 'd'
    ensures !IsBlank(s)
  {
    assert !IsSpace('d');
  }

  lemma LineHasNoSeparator(l: string)
    requires '\n' !in l
    ensures !HasSeparator(l + "\n")
  {
    var s := l + "\n";
    forall i | 0 <= i < |s|
      ensures !SeparatorAt(s, i)
    {
      if i < |l| {
        assert s[i] == l[i];
      }
    }
  }

  lemma MergedHasNoSeparator(a: string, b: string)
    requires '\n' !in a && '\n' !in b && b != ""
    ensures !HasSeparator(a + "\n\r\n" + b + "\n")
  {
    var s := a + "\n\r\n" + b + "\n";
    forall i | 0 <= i < |s|
      ensures !SeparatorAt(s, i)
    {
      if i < |a| {
        assert s[i] == a[i];
      } else if i == |a| {
        assert s[i + 1] == '\r';
      } else if i == |a| + 1 {
        assert s[i] == '\r';
      } else if i == |a| + 2 {
        assert s[i + 1] == b[0];
      } else if i < |s| - 1 {
        assert s[i] == b[i - |a| - 3];
      }
    }
  }

  lemma OneLinePayload(v: string)
    requires IsValue(v)
    ensures Payload(DATA + v) == [v]
  {
    hide LStrip, Lines, DataValue, IsBlank;
    var l := DATA + v;
    ValueLine(v);
    LinesOfLine(l);
    FlatMapOne(DataValue, l);
    NotBlankLine(l);
    assert Unlines([v]) == v;
  }

  lemma TwoValues(x: string, y: string)
    ensures Unlines([x, y]) == x + "\n" + y
  {
    assert [x, y][1..] == [y];
  }

  lemma CrIsNoData(l: string)
    requires l == "\r"
    ensures DataValue(l) == []
  {
  }

  lemma MergedValues(a: string, b: string, x: string, y: string)
    requires DataValue(a) == [x] && DataValue(b) == [y]
    ensures DataValues([a, "\r", b]) == [x, y]
  {
    hide DataValue;
    assert DataValue("\r") == [] by { CrIsNoData("\r"); }
    assert [a, "\r", b] == [a] + (["\r"] + [b]);
    FlatMapCons(DataValue, a, ["\r"] + [b]);
    FlatMapCons(DataValue, "\r", [b]);
    FlatMapOne(DataValue, b);
  }

  lemma MergedPayload(x: string, y: string)
    requires IsValue(x) && IsValue(y)
    ensures Payload(DATA + x + "\n\r\n" + (DATA + y)) == [x + "\n" + y]
  {
    hide LStrip, Lines, DataValue, IsBlank, IsValue;
    var a, b := DATA + x, DATA + y;
    var s := a + "\n\r\n" + b;
    ValueLine(x);
    ValueLine(y);
    assert s == a + "\n" + ("\r" + "\n" + b);
    LinesOfCons(a, "\r" + "\n" + b);
    LinesOfCons("\r", b);
    LinesOfLine(b);
    assert Lines(s) == [a, "\r", b];
    MergedValues(a, b, x, y);
    NotBlankLine(s);
    TwoValues(x, y);
  }

  lemma WholeText(a: string, b: string)
    requires a != "" && b != "" && '\r' !in a && '\r' !in b
    ensures NormalizeAll([a + "\r\n\r\n" + b + "\r\n\r\n"]) == Glue([a, b]) + ""
  {
    hide Normalize, FlatMap;
    NormalizeEmpty();
    FlatMapOne(Normalize, a + "\r\n\r\n" + b + "\r\n\r\n");
    NormalizeEnd("");
    NormalizeEnd("\r\n" + "");
    NormalizeLine(b, "\r\n" + ("\r\n" + ""));
    var rest := b + ("\r\n" + ("\r\n" + ""));
    NormalizeEnd(rest);
    NormalizeEnd("\r\n" + rest);
    NormalizeLine(a, "\r\n" + ("\r\n" + rest));
    assert a + "\r\n\r\n" + b + "\r\n\r\n" == a + ("\r\n" + ("\r\n" + rest));
    assert [a, b] == [a] + [b];
    FlatMapCons(Closed, a, [b]);
    FlatMapOne(Closed, b);
  }

  lemma CutText(a: string, b: string)
    requires a != "" && b != "" && '\r' !in a && '\r' !in b
    ensures NormalizeAll([a + "\r\n\r", "\n" + b + "\r\n\r\n"]) == Glue([a + "\n\r\n" + b]) + ""
  {
    hide Normalize, FlatMap;
    var first, second := a + "\r\n\r", "\n" + b + "\r\n\r\n";
    NormalizeEmpty();
    assert [first, second] == [first] + [second];
    FlatMapCons(Normalize, first, [second]);
    FlatMapOne(Normalize, second);
    NormalizeOther("\r");
    assert "\r"[1..] == "";
    NormalizeEnd("\r");
    NormalizeLine(a, "\r\n" + "\r");
    assert first == a + ("\r\n" + "\r");
    NormalizeEnd("");
    NormalizeEnd("\r\n" + "");
    NormalizeLine("\n" + b, "\r\n" + ("\r\n" + ""));
    assert second == ("\n" + b) + ("\r\n" + ("\r\n" + ""));
    FlatMapOne(Closed, a + "\n\r\n" + b);
  }

  lemma SameText(a: string, b: string)
    ensures Concat([a + "\r\n\r\n" + b + "\r\n\r\n"]) == Concat([a + "\r\n\r", "\n" + b + "\r\n\r\n"])
  {
    hide FlatMap;
    var first, second := a + "\r\n\r", "\n" + b + "\r\n\r\n";
    assert [first, second] == [first] + [second];
    FlatMapCons(Same, first, [second]);
    FlatMapOne(Same, second);
    FlatMapOne(Same, a + "\r\n\r\n" + b + "\r\n\r\n");
    assert first + second == a + "\r\n\r\n" + b + "\r\n\r\n";
  }

  /**
   For any two values: sent in one piece they are two payloads; cut between the
   CR and the LF of the blank line they are one, with both values in it.
   */
  lemma CutInsideCrLf(x: string, y: string)
    requires IsValue(x) && IsValue(y)
    ensures var a, b := DATA + x, DATA + y;
            var whole, cut := [a + "\r\n\r\n" + b + "\r\n\r\n"], [a + "\r\n\r", "\n" + b + "\r\n\r\n"];
            && Concat(whole) == Concat(cut)
            && Payloads(Frame(NormalizeAll(whole)).blocks) == [x, y]
            && Payloads(Frame(NormalizeAll(cut)).blocks) == [x + "\n" + y]
  {
    hide Normalize, Frame, Payload, IsValue, NormalizeAll;
    var a, b := DATA + x, DATA + y;
    ValueLine(x);
    ValueLine(y);
    SameText(a, b);
    WholeText(a, b);
    LineHasNoSeparator(a);
    LineHasNoSeparator(b);
    FramingIsUnique(Glue([a, b]) + "", Framing([a, b], ""));
    OneLinePayload(x);
    OneLinePayload(y);
    assert [a, b] == [a] + [b];
    FlatMapCons(Payload, a, [b]);
    FlatMapOne(Payload, b);
    CutText(a, b);
    var merged := a + "\n\r\n" + b;
    MergedHasNoSeparator(a, b);
    FramingIsUnique(Glue([merged]) + "", Framing([merged], ""));
    MergedPayload(x, y);
    FlatMapOne(Payload, merged);
  }
}
