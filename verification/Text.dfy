/**
 The Python string operations the converters lean on: stripping, splitting at
 newlines, joining, and the normalisation of CR LF line ends.
 */
module Text {
  import opened Sequences

  datatype Option<+T> = None | Some(value: T)

  /** A string that is present and not empty. */
  predicate Truthy(s: Option<string>) {
    s.Some? && s.value != ""
  }

  function Or(s: Option<string>, default: string): string {
    if Truthy(s) then s.value else default
  }

  /** The characters `str.strip` removes. */
  predicate IsSpace(c: char) {
    var n := c as int;
    || 9 <= n <= 13
    || 28 <= n <= 32
    || n == 0x85
    || n == 0xa0
    || n == 0x1680
    || 0x2000 <= n <= 0x200a
    || n == 0x2028
    || n == 0x2029
    || n == 0x202f
    || n == 0x205f
    || n == 0x3000
  }

  predicate IsBlank(s: string) {
    forall i | 0 <= i < |s| :: IsSpace(s[i])
  }

  function LStrip(s: string): (r: string)
    ensures |r| <= |s|
  {
    if s != "" && IsSpace(s[0]) then LStrip(s[1..]) else s
  }

  function RStrip(s: string): (r: string)
    ensures |r| <= |s|
  {
    if s != "" && IsSpace(s[|s| - 1]) then RStrip(s[..|s| - 1]) else s
  }

  lemma LStripOneSpace(v: string)
    requires v != "" ==> !IsSpace(v[0])
    ensures LStrip(" " + v) == v
  {
    assert IsSpace(' ');
    assert (" " + v)[1..] == v;
  }

  function Strip(s: string): string {
    RStrip(LStrip(s))
  }

  lemma {:induction false} LStripEmpty(s: string)
    ensures LStrip(s) == "" <==> IsBlank(s)
    ensures LStrip(s) != "" ==> !IsSpace(LStrip(s)[0])
  {
    hide IsSpace;
    if s != "" && IsSpace(s[0]) {
      LStripEmpty(s[1..]);
      assert s == [s[0]] + s[1..];
      if IsBlank(s) {
        assert forall i | 0 <= i < |s| - 1 :: s[1..][i] == s[i + 1];
      }
    }
  }

  lemma {:induction false} RStripNonEmpty(s: string)
    requires s != "" && !IsSpace(s[0])
    ensures RStrip(s) != ""
  {
    hide IsSpace;
    if IsSpace(s[|s| - 1]) {
      RStripNonEmpty(s[..|s| - 1]);
    }
  }

  lemma StripEmpty(s: string)
    ensures Strip(s) == "" <==> IsBlank(s)
  {
    hide IsSpace, IsBlank;
    LStripEmpty(s);
    if LStrip(s) != "" {
      RStripNonEmpty(LStrip(s));
    }
  }

  lemma {:induction false} LStripPadding(a: string, s: string)
    requires IsBlank(a) && s != "" && !IsSpace(s[0])
    ensures LStrip(a + s) == s
  {
    hide IsSpace;
    if a == "" {
      assert a + s == s;
    } else {
      assert IsSpace(a[0]) && (a + s)[0] == a[0];
      assert (a + s)[1..] == a[1..] + s;
      LStripPadding(a[1..], s);
    }
  }

  lemma {:induction false} RStripPadding(s: string, b: string)
    requires IsBlank(b) && s != "" && !IsSpace(s[|s| - 1])
    ensures RStrip(s + b) == s
  {
    hide IsSpace;
    if b == "" {
      assert s + b == s;
    } else {
      assert IsSpace(b[|b| - 1]) && (s + b)[|s + b| - 1] == b[|b| - 1];
      assert (s + b)[..|s + b| - 1] == s + b[..|b| - 1];
      RStripPadding(s, b[..|b| - 1]);
    }
  }

  /** Stripping removes exactly the white space around a text. */
  lemma StripPadding(a: string, s: string, b: string)
    requires IsBlank(a) && IsBlank(b)
    requires s != "" && !IsSpace(s[0]) && !IsSpace(s[|s| - 1])
    ensures Strip(a + s + b) == s
  {
    hide IsSpace, IsBlank;
    assert a + s + b == a + (s + b);
    LStripPadding(a, s + b);
    RStripPadding(s, b);
  }

  /** `s.split("\n")`: always at least one line. */
  function Lines(s: string): (ls: seq<string>)
    ensures ls != []
    ensures forall l <- ls :: '\n' !in l
  {
    if s == "" then [""]
    else
      var rest := Lines(s[1..]);
      if s[0] == '\n' then [""] + rest else [[s[0]] + rest[0]] + rest[1..]
  }

  /** `"\n".join(ls)` */
  function Unlines(ls: seq<string>): string {
    if ls == [] then ""
    else if |ls| == 1 then ls[0]
    else ls[0] + "\n" + Unlines(ls[1..])
  }

  lemma {:induction false} UnlinesOfLines(s: string)
    ensures Unlines(Lines(s)) == s
  {
    if s == "" {
    } else {
      UnlinesOfLines(s[1..]);
      var rest := Lines(s[1..]);
      if s[0] == '\n' {
        assert ([""] + rest)[1..] == rest;
      } else {
        assert ([[s[0]] + rest[0]] + rest[1..])[1..] == rest[1..];
      }
    }
  }

  lemma {:induction false} LinesOfLine(l: string)
    requires '\n' !in l
    ensures Lines(l) == [l]
  {
    if l == "" {
    } else {
      LinesOfLine(l[1..]);
      assert [l[0]] + l[1..] == l;
    }
  }

  lemma {:induction false} LinesOfCons(l: string, s: string)
    requires '\n' !in l
    ensures Lines(l + "\n" + s) == [l] + Lines(s)
  {
    var t := l + "\n" + s;
    if l == "" {
      assert t[1..] == s;
    } else {
      LinesOfCons(l[1..], s);
      assert t[1..] == l[1..] + "\n" + s;
      assert Lines(t)[0] == [l[0]] + l[1..] == l;
      assert Lines(t)[1..] == Lines(s);
    }
  }

  lemma {:induction false} LinesOfUnlines(ls: seq<string>)
    requires ls != []
    requires forall l <- ls :: '\n' !in l
    ensures Lines(Unlines(ls)) == ls
  {
    if |ls| == 1 {
      LinesOfLine(ls[0]);
    } else {
      LinesOfUnlines(ls[1..]);
      LinesOfCons(ls[0], Unlines(ls[1..]));
    }
  }

  function Same(s: string): string {
    s
  }

  /** `"".join(parts)` */
  function Concat(parts: seq<string>): string {
    FlatMap(Same, parts)
  }

  /** `s.replace("\r\n", "\n")` */
  function Normalize(s: string): (r: string)
    ensures |r| <= |s|
  {
    if s == "" then ""
    else if "\r\n" <= s then "\n" + Normalize(s[2..])
    else [s[0]] + Normalize(s[1..])
  }

  /** A cut between `a` and `b` that separates a CR from its LF. */
  predicate SplitsCrLf(a: string, b: string) {
    a != "" && b != "" && a[|a| - 1] == '\r' && b[0] == '\n'
  }

  lemma NormalizeEmpty()
    ensures Normalize("") == ""
  {
  }

  lemma NormalizeOther(s: string)
    requires s != "" && !("\r\n" <= s)
    ensures Normalize(s) == [s[0]] + Normalize(s[1..])
  {
  }

  lemma NormalizeCrLf(s: string)
    requires "\r\n" <= s
    ensures Normalize(s) == "\n" + Normalize(s[2..])
  {
  }

  lemma StartWithoutCrLf(a: string, b: string)
    requires a != "" && !("\r\n" <= a) && !SplitsCrLf(a, b)
    ensures !("\r\n" <= a + b)
  {
    var s := a + b;
    if |a| > 1 {
      assert s[0] == a[0] && s[1] == a[1];
    } else if b != "" {
      assert s[0] == a[0] && s[1] == b[0];
    }
  }

  lemma {:induction false} NormalizeKeepingCut(a: string, b: string)
    requires !SplitsCrLf(a, b)
    ensures Normalize(a + b) == Normalize(a) + Normalize(b)
  {
    hide Normalize;
    var s := a + b;
    if a == "" {
      NormalizeEmpty();
      assert s == b;
    } else if "\r\n" <= a {
      NormalizeKeepingCut(a[2..], b);
      assert "\r\n" <= s && s[2..] == a[2..] + b;
      NormalizeCrLf(s);
      NormalizeCrLf(a);
    } else {
      NormalizeKeepingCut(a[1..], b);
      assert s[0] == a[0] && s[1..] == a[1..] + b;
      StartWithoutCrLf(a, b);
      NormalizeOther(s);
      NormalizeOther(a);
    }
  }

  /** A CR cut off from its LF survives: the chunkwise result is one longer. */
  lemma NormalizeSplittingCut(a: string, b: string)
    requires SplitsCrLf(a, b)
    ensures |Normalize(a + b)| + 1 == |Normalize(a)| + |Normalize(b)|
  {
    hide Normalize;
    var a', cr := a[..|a| - 1], "\r";
    assert a == a' + cr && a + b == a' + (cr + b);
    NormalizeKeepingCut(a', cr);
    NormalizeKeepingCut(a', cr + b);
    assert "\r\n" <= cr + b && (cr + b)[2..] == b[1..];
    NormalizeCrLf(cr + b);
    NormalizeOther(b);
    NormalizeOther(cr);
    assert cr[1..] == "";
    NormalizeEmpty();
  }

  /** The text that reaches the framer: every chunk normalised on its own. */
  function NormalizeAll(chunks: seq<string>): string {
    FlatMap(Normalize, chunks)
  }

  /** No cut of the chunk list falls inside a CR LF pair. */
  predicate CutsKeepCrLf(chunks: seq<string>) {
    chunks == [] || (!SplitsCrLf(chunks[0], Concat(chunks[1..])) && CutsKeepCrLf(chunks[1..]))
  }

  /**
   Normalising chunk by chunk is normalising the whole text exactly when no cut
   separates a CR from its LF; each such cut leaves one CR too many behind.
   */
  lemma {:induction false} NormalizeChunkwise(chunks: seq<string>)
    ensures NormalizeAll(chunks) == Normalize(Concat(chunks)) <==> CutsKeepCrLf(chunks)
    ensures |NormalizeAll(chunks)| >= |Normalize(Concat(chunks))|
  {
    if chunks == [] {
    } else {
      var text := Concat(chunks[1..]);
      var head, tail, whole := Normalize(chunks[0]), NormalizeAll(chunks[1..]), Normalize(text);
      NormalizeChunkwise(chunks[1..]);
      if SplitsCrLf(chunks[0], text) {
        NormalizeSplittingCut(chunks[0], text);
      } else {
        NormalizeKeepingCut(chunks[0], text);
        if head + tail == head + whole {
          assert tail == (head + tail)[|head|..] == (head + whole)[|head|..] == whole;
        }
      }
    }
  }

  lemma {:induction false} NormalizeWithoutCr(s: string)
    requires '\r' !in s
    ensures Normalize(s) == s
  {
    hide Normalize;
    NormalizeEmpty();
    if s == "" {
    } else {
      NormalizeWithoutCr(s[1..]);
      assert s[0] in s;
      NormalizeOther(s);
      assert s == [s[0]] + s[1..];
    }
  }
}
