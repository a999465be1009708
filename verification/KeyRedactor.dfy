/**
 The substitution of `APIKeyRedactor`: at every position the first key of a
 length-descending list that matches is replaced, as the compiled alternation
 of the escaped keys does.
 */
module KeyRedactor {
  import opened Text

  const PLACEHOLDER := "(API_KEY_HAS_BEEN_REDACTED)"

  type Keys = ks: seq<string> | forall k <- ks :: k != ""

  /** The alternative the pattern picks at the beginning of `text`. */
  function FirstMatch(keys: Keys, text: string): (r: Option<string>)
    ensures r.Some? ==> r.value in keys && r.value <= text
    ensures r.None? ==> forall k <- keys :: !(k <= text)
  {
    if keys == [] then None
    else if keys[0] <= text then Some(keys[0])
    else
      var rest: Keys := keys[1..];
      assert forall k :: k in keys <==> k == keys[0] || k in rest;
      FirstMatch(rest, text)
  }

  /** `_redact_internal` */
  function Redact(keys: Keys, text: string): string
    decreases |text|
  {
    if text == "" then ""
    else
      var k := FirstMatch(keys, text);
      if k.Some? then PLACEHOLDER + Redact(keys, text[|k.value|..])
      else [text[0]] + Redact(keys, text[1..])
  }

  /** The keys that are replaced, each of which is warned about once. */
  function Replaced(keys: Keys, text: string): set<string>
    decreases |text|
  {
    if text == "" then {}
    else
      var k := FirstMatch(keys, text);
      if k.Some? then {k.value} + Replaced(keys, text[|k.value|..]) else Replaced(keys, text[1..])
  }

  lemma {:induction false} RedactWithoutKeys(keys: Keys, text: string)
    requires keys == []
    ensures Redact(keys, text) == text && Replaced(keys, text) == {}
  {
    if text == "" {
    } else {
      RedactWithoutKeys(keys, text[1..]);
    }
  }

  method RedactInternal(keys: Keys, text: string) returns (redacted: string, found: set<string>)
    ensures redacted == Redact(keys, text)
    ensures found == Replaced(keys, text)
  {
    redacted, found := "", {};
    if keys == [] {
      RedactWithoutKeys(keys, text);
      return text, {};
    }
    var pos := 0;
    while pos < |text|
      invariant pos <= |text|
      invariant redacted + Redact(keys, text[pos..]) == Redact(keys, text)
      invariant found + Replaced(keys, text[pos..]) == Replaced(keys, text)
    {
      var k := FirstMatch(keys, text[pos..]);
      if k.Some? {
        found := found + {k.value};
        redacted := redacted + PLACEHOLDER;
        assert text[pos..][|k.value|..] == text[pos + |k.value|..];
        pos := pos + |k.value|;
      } else {
        redacted := redacted + [text[pos]];
        assert text[pos..][1..] == text[pos + 1..];
        pos := pos + 1;
      }
    }
  }

  // ---- No key is left ----

  predicate OccursAt(k: string, s: string, p: int) {
    0 <= p <= |s| && k <= s[p..]
  }

  predicate Occurs(k: string, s: string) {
    exists p | 0 <= p <= |s| :: OccursAt(k, s, p)
  }

  predicate IsSuffix(w: string, s: string) {
    |w| <= |s| && s[|s| - |w|..] == w
  }

  lemma OccursThere(k: string, s: string, p: int)
    requires OccursAt(k, s, p)
    ensures Occurs(k, s)
  {
  }

  /**
   Key and placeholder cannot overlap: neither lies inside the other, and no end
   of one is a beginning of the other.
   */
  predicate NoOverlap(k: string) {
    && !Occurs(k, PLACEHOLDER)
    && !Occurs(PLACEHOLDER, k)
    && (forall i | 0 < i < |k| :: !(k[i..] <= PLACEHOLDER))
    && (forall i | 0 < i < |k| :: !IsSuffix(k[..i], PLACEHOLDER))
  }

  /** An end of the key does not begin where a replacement begins. */
  lemma EndNotAtPlaceholder(k: string, i: nat, rest: string)
    requires NoOverlap(k) && i < |k|
    ensures !(k[i..] <= PLACEHOLDER + rest)
  {
    var w, n := k[i..], |PLACEHOLDER|;
    if |w| <= n {
      assert (PLACEHOLDER + rest)[..|w|] == PLACEHOLDER[..|w|];
      if i == 0 {
        assert w == k && PLACEHOLDER[0..] == PLACEHOLDER;
        assert !OccursAt(k, PLACEHOLDER, 0);
      }
    } else {
      assert !OccursAt(PLACEHOLDER, k, i);
      assert (PLACEHOLDER + rest)[..n] == PLACEHOLDER != w[..n];
    }
  }

  /** An end of the key that begins the output was copied from the text. */
  lemma {:induction false} CopiedFromText(keys: Keys, text: string, k: string, i: nat)
    requires NoOverlap(k) && i <= |k| && k[i..] <= Redact(keys, text)
    ensures k[i..] <= text
    decreases |text|
  {
    hide NoOverlap;
    if i == |k| {
    } else {
      var m := FirstMatch(keys, text);
      if m.Some? {
        EndNotAtPlaceholder(k, i, Redact(keys, text[|m.value|..]));
        assert false;
      }
      var out := Redact(keys, text[1..]);
      assert Redact(keys, text)[1..] == out && k[i..][1..] == k[i + 1..];
      CopiedFromText(keys, text[1..], k, i + 1);
      assert k[i..] == [k[i]] + k[i + 1..] && text == [text[0]] + text[1..];
    }
  }

  /** No occurrence starts inside a placeholder. */
  lemma NotInPlaceholder(k: string, rest: string, p: nat)
    requires k != "" && NoOverlap(k) && p < |PLACEHOLDER|
    ensures !OccursAt(k, PLACEHOLDER + rest, p)
  {
    var n := |PLACEHOLDER|;
    var t := (PLACEHOLDER + rest)[p..];
    if p == 0 {
      EndNotAtPlaceholder(k, 0, rest);
      assert k[0..] == k && t == PLACEHOLDER + rest;
    } else if n - p < |k| {
      assert !IsSuffix(k[..n - p], PLACEHOLDER);
      assert t[..n - p] == PLACEHOLDER[p..] != k[..n - p];
    } else {
      assert t[..|k|] == PLACEHOLDER[p..][..|k|];
      assert !OccursAt(k, PLACEHOLDER, p);
    }
  }

  lemma {:induction false} NoKeyAt(keys: Keys, text: string, k: string, p: int)
    requires k in keys && NoOverlap(k)
    ensures !OccursAt(k, Redact(keys, text), p)
    decreases |text|
  {
    hide NoOverlap;
    var out := Redact(keys, text);
    if 0 <= p <= |out| {
      if text == "" {
        assert out[p..] == "";
      } else {
        var m := FirstMatch(keys, text);
        if m.Some? {
          var rest := Redact(keys, text[|m.value|..]);
          if p < |PLACEHOLDER| {
            NotInPlaceholder(k, rest, p);
          } else {
            assert out[p..] == rest[p - |PLACEHOLDER|..];
            NoKeyAt(keys, text[|m.value|..], k, p - |PLACEHOLDER|);
          }
        } else if p == 0 {
          assert out[0..] == out && k[0..] == k;
          if k <= out {
            CopiedFromText(keys, text, k, 0);
            assert false;
          }
        } else {
          assert out[p..] == Redact(keys, text[1..])[p - 1..];
          NoKeyAt(keys, text[1..], k, p - 1);
        }
      }
    }
  }

  /**
   Redaction is complete: no key that cannot overlap the placeholder occurs in
   the output, not even across the edge of a replacement.
   */
  lemma RedactionIsComplete(keys: Keys, text: string, k: string)
    requires k in keys && NoOverlap(k)
    ensures !Occurs(k, Redact(keys, text))
  {
    forall p | 0 <= p <= |Redact(keys, text)|
      ensures !OccursAt(k, Redact(keys, text), p)
    {
      NoKeyAt(keys, text, k, p);
    }
  }

  lemma NotInTail(k: string, text: string)
    requires text != "" && !Occurs(k, text)
    ensures !Occurs(k, text[1..])
  {
    forall p | 0 <= p <= |text[1..]|
      ensures !OccursAt(k, text[1..], p)
    {
      assert text[1..][p..] == text[p + 1..];
      assert !OccursAt(k, text, p + 1);
    }
  }

  lemma RedactCopies(keys: Keys, text: string)
    requires text != "" && FirstMatch(keys, text).None?
    ensures Redact(keys, text) == [text[0]] + Redact(keys, text[1..])
  {
    hide FirstMatch;
  }

  lemma NoKeyNoMatch(keys: Keys, text: string)
    requires forall k <- keys :: !Occurs(k, text)
    ensures FirstMatch(keys, text).None?
  {
    hide Occurs;
    var m := FirstMatch(keys, text);
    if m.Some? {
      assert text[0..] == text;
      OccursThere(m.value, text, 0);
    }
  }

  lemma {:induction false} KeyFreeTextUnchanged(keys: Keys, text: string)
    requires forall k <- keys :: !Occurs(k, text)
    ensures Redact(keys, text) == text
    decreases |text|
  {
    if text == "" {
    } else {
      hide FirstMatch, Redact, Occurs;
      NoKeyNoMatch(keys, text);
      forall k <- keys
        ensures !Occurs(k, text[1..])
      {
        NotInTail(k, text);
      }
      KeyFreeTextUnchanged(keys, text[1..]);
      RedactCopies(keys, text);
    }
  }

  lemma OccursInWhole(k: string, text: string, n: nat)
    requires n <= |text| && Occurs(k, text[n..])
    ensures Occurs(k, text)
  {
    var p :| 0 <= p <= |text[n..]| && OccursAt(k, text[n..], p);
    assert text[n..][p..] == text[n + p..];
    assert OccursAt(k, text, n + p);
  }

  lemma NotAtStart(k: string, text: string)
    requires text != "" && !(k <= text) && !Occurs(k, text[1..])
    ensures !Occurs(k, text)
  {
    forall p | 0 <= p <= |text|
      ensures !OccursAt(k, text, p)
    {
      if p == 0 {
        assert text[0..] == text;
      } else {
        assert text[p..] == text[1..][p - 1..];
        assert !OccursAt(k, text[1..], p - 1);
      }
    }
  }

  /** A key is reported exactly when the text holds one; what is reported is a key in the text. */
  lemma {:induction false} ReportedIffPresent(keys: Keys, text: string)
    ensures Replaced(keys, text) == {} <==> forall k <- keys :: !Occurs(k, text)
    ensures forall k <- Replaced(keys, text) :: k in keys && Occurs(k, text)
    decreases |text|
  {
    if text == "" {
      forall k <- keys
        ensures !Occurs(k, text)
      {
        assert forall p | 0 <= p <= |text| :: text[p..] == "";
      }
    } else {
      var m := FirstMatch(keys, text);
      assert text[0..] == text;
      if m.Some? {
        assert OccursAt(m.value, text, 0);
        ReportedIffPresent(keys, text[|m.value|..]);
        forall k | k in keys && Occurs(k, text[|m.value|..])
          ensures Occurs(k, text)
        {
          OccursInWhole(k, text, |m.value|);
        }
      } else {
        ReportedIffPresent(keys, text[1..]);
        forall k <- keys
          ensures Occurs(k, text) <==> Occurs(k, text[1..])
        {
          if Occurs(k, text[1..]) {
            OccursInWhole(k, text, 1);
          } else {
            NotAtStart(k, text);
          }
        }
      }
    }
  }

  /** A text is left alone exactly when it holds no key, and a second pass changes nothing. */
  lemma RedactionIsIdempotent(keys: Keys, text: string)
    requires forall k <- keys :: NoOverlap(k)
    ensures Redact(keys, Redact(keys, text)) == Redact(keys, text)
    ensures Redact(keys, text) == text <==> forall k <- keys :: !Occurs(k, text)
  {
    forall k <- keys
      ensures !Occurs(k, Redact(keys, text))
    {
      RedactionIsComplete(keys, text, k);
    }
    KeyFreeTextUnchanged(keys, Redact(keys, text));
    if forall k <- keys :: !Occurs(k, text) {
      KeyFreeTextUnchanged(keys, text);
    }
  }

  lemma StaysInside(k: string, rest: string, p: nat)
    requires OccursAt(k, PLACEHOLDER, p)
    ensures Occurs(k, PLACEHOLDER + rest)
  {
    var s := PLACEHOLDER + rest;
    assert s[p..] == PLACEHOLDER[p..] + rest;
    assert OccursAt(k, s, p);
  }

  /** A key inside the placeholder is never removed: redacting the key alone puts it back. */
  lemma KeyInsidePlaceholder(keys: Keys, k: string)
    ensures k in keys && Occurs(k, PLACEHOLDER) ==> Occurs(k, Redact(keys, k))
  {
    if k in keys && Occurs(k, PLACEHOLDER) {
      var p :| 0 <= p <= |PLACEHOLDER| && OccursAt(k, PLACEHOLDER, p);
      var m := FirstMatch(keys, k);
      StaysInside(k, Redact(keys, k[|m.value|..]), p);
    }
  }

  predicate IsGone(keys: Keys, text: string, k: string) {
    !Occurs(k, Redact(keys, text))
  }

  lemma NoMatchInShort(k: string, c: char, x: string, rest: string)
    requires x != "" && c !in k && c !in x && |x| < |k|
    requires rest == "" || rest[0] == c
    ensures var keys: Keys := [k, [c]]; FirstMatch(keys, x + rest).None?
  {
    var keys: Keys := [k, [c]];
    var text := x + rest;
    assert keys[1..] == [[c]];
    assert text[0] == x[0] && x[0] in x;
    assert |x| < |text| ==> text[|x|] == c && k[|x|] in k;
  }

  lemma RedactNothing(keys: Keys)
    ensures Redact(keys, "") == ""
  {
  }

  lemma RedactReplaces(keys: Keys, text: string, k: string)
    requires text != "" && FirstMatch(keys, text) == Some(k)
    ensures Redact(keys, text) == PLACEHOLDER + Redact(keys, text[|k|..])
  {
    hide FirstMatch;
  }

  /** A stretch too short for `k` and without `c` is copied, and so is what follows it. */
  lemma {:induction false} ShortIsCopied(k: string, c: char, x: string, rest: string)
    requires k != "" && c !in k && c !in x && |x| < |k|
    requires rest == "" || rest[0] == c
    ensures var keys: Keys := [k, [c]]; Redact(keys, x + rest) == x + Redact(keys, rest)
    decreases |x|
  {
    hide FirstMatch, Redact;
    var keys: Keys := [k, [c]];
    var text := x + rest;
    if x == "" {
      assert text == rest && x + Redact(keys, rest) == Redact(keys, rest);
    } else {
      assert text[1..] == x[1..] + rest && text[0] == x[0];
      ShortIsCopied(k, c, x[1..], rest);
      NoMatchInShort(k, c, x, rest);
      RedactCopies(keys, text);
      assert [x[0]] + (x[1..] + Redact(keys, rest)) == x + Redact(keys, rest);
    }
  }

  lemma OtherKeyMatches(k: string, c: char, y: string)
    requires k != "" && c !in k
    ensures var keys: Keys := [k, [c]]; FirstMatch(keys, [c] + y) == Some([c])
  {
    var keys: Keys := [k, [c]];
    assert k[0] in k && keys[1..] == [[c]];
    assert ([c] + y)[0] == c;
  }

  /** Around one replacement any two short stretches can be had. */
  lemma PutBetween(k: string, c: char, x: string, y: string)
    requires k != "" && c !in k && c !in x && c !in y && |x| < |k| && |y| < |k|
    ensures var keys: Keys := [k, [c]]; Redact(keys, x + ([c] + y)) == x + (PLACEHOLDER + y)
  {
    hide FirstMatch, Redact;
    var keys: Keys := [k, [c]];
    var rest := [c] + y;
    ShortIsCopied(k, c, x, rest);
    ShortIsCopied(k, c, y, "");
    RedactNothing(keys);
    assert y + "" == y;
    OtherKeyMatches(k, c, y);
    RedactReplaces(keys, rest, [c]);
    assert rest[1..] == y;
  }

  lemma OccursWithin(k: string, x: string, middle: string, y: string, at: nat)
    requires at <= |middle|
    requires
      || (x == "" && y == "" && OccursAt(k, middle, at))
      || (at == 0 && k == x + (middle + y))
    ensures OccursAt(k, x + (middle + y), at)
  {
    var out := x + (middle + y);
    if k == out && at == 0 {
      assert out[0..] == out;
    } else {
      assert out == middle;
    }
  }

  lemma OccursAtEdge(k: string, x: string, middle: string, y: string, at: nat)
    requires at <= |middle|
    requires
      || (at == 0 && y == "" && |x| <= |k| && k[..|x|] == x && k[|x|..] <= middle)
      || (x == "" && |y| <= |k| && k[|k| - |y|..] == y && k[..|k| - |y|] == middle[at..])
    ensures OccursAt(k, x + (middle + y), at)
  {
    var out := x + (middle + y);
    if at == 0 && y == "" && |x| <= |k| && k[..|x|] == x && k[|x|..] <= middle {
      assert out[0..] == out && k == x + k[|x|..] && out == x + middle;
    } else {
      assert out[at..] == middle[at..] + y && k == k[..|k| - |y|] + y;
    }
  }

  /** The four ways to overlap, as an occurrence in `x + PLACEHOLDER + y`. */
  lemma Appears(k: string, x: string, middle: string, y: string, at: nat)
    requires at <= |middle|
    requires
      || (x == "" && y == "" && OccursAt(k, middle, at))
      || (at == 0 && k == x + (middle + y))
      || (at == 0 && y == "" && |x| <= |k| && k[..|x|] == x && k[|x|..] <= middle)
      || (x == "" && |y| <= |k| && k[|k| - |y|..] == y && k[..|k| - |y|] == middle[at..])
    ensures Occurs(k, x + (middle + y))
  {
    if (x == "" && y == "" && OccursAt(k, middle, at)) || (at == 0 && k == x + (middle + y)) {
      OccursWithin(k, x, middle, y, at);
    } else {
      OccursAtEdge(k, x, middle, y, at);
    }
    OccursThere(k, x + (middle + y), at);
  }

  /** A key that overlaps the placeholder is put back by some text. */
  lemma OverlapComesBack(k: string, c: char) returns (text: string)
    requires k != "" && c !in k && !NoOverlap(k)
    ensures var keys: Keys := [k, [c]]; !IsGone(keys, text, k)
  {
    var n := |PLACEHOLDER|;
    ghost var x, y, at := "", "", 0;
    if Occurs(k, PLACEHOLDER) {
      at :| 0 <= at <= n && OccursAt(k, PLACEHOLDER, at);
    } else if Occurs(PLACEHOLDER, k) {
      var p :| 0 <= p <= |k| && OccursAt(PLACEHOLDER, k, p);
      x, y := k[..p], k[p + n..];
      assert k == x + (k[p..p + n] + y) && k[p..p + n] == k[p..][..n] == PLACEHOLDER;
    } else if i :| 0 < i < |k| && k[i..] <= PLACEHOLDER {
      x := k[..i];
    } else {
      var i :| 0 < i < |k| && IsSuffix(k[..i], PLACEHOLDER);
      y, at := k[i..], n - i;
    }
    text := x + ([c] + y);
    PutBetween(k, c, x, y);
    Appears(k, x, PLACEHOLDER, y, at);
  }

  /**
   The exact condition: a key is removed from every text, whatever keys are
   redacted with it, if and only if it cannot overlap the placeholder. (`c` is
   any character the key does not contain.)
   */
  lemma CompleteIffNoOverlap(k: string, c: char)
    requires k != "" && c !in k
    ensures (forall keys: Keys, text: string | k in keys :: IsGone(keys, text, k)) <==> NoOverlap(k)
  {
    hide NoOverlap, Redact, Occurs;
    if NoOverlap(k) {
      forall keys: Keys, text: string | k in keys
        ensures IsGone(keys, text, k)
      {
        RedactionIsComplete(keys, text, k);
      }
    } else {
      var keys: Keys := [k, [c]];
      var text := OverlapComesBack(k, c);
      assert k in keys && !IsGone(keys, text, k);
    }
  }

  predicate WithoutParentheses(k: string) {
    '(' !in k && ')' !in k
  }

  /** A key without parentheses can overlap the placeholder only by lying inside it. */
  lemma PlainKeyNoOverlap(k: string)
    requires k != "" && WithoutParentheses(k)
    ensures NoOverlap(k) <==> !Occurs(k, PLACEHOLDER)
  {
    var n := |PLACEHOLDER|;
    assert PLACEHOLDER[0] == '(' && PLACEHOLDER[n - 1] == ')';
    forall p | 0 <= p <= |k|
      ensures !OccursAt(PLACEHOLDER, k, p)
    {
      assert p < |k| ==> k[p..][0] == k[p] && k[p] in k;
    }
    forall i | 0 < i < |k|
      ensures !(k[i..] <= PLACEHOLDER) && !IsSuffix(k[..i], PLACEHOLDER)
    {
      assert k[i..][0] == k[i] && k[i] in k;
      assert k[..i][i - 1] == k[i - 1] && k[i - 1] in k;
      assert i <= n ==> PLACEHOLDER[n - i..][i - 1] == ')';
    }
  }

  /** For one list of keys: what suffices, what is needed, and both at once where no key has a parenthesis. */
  lemma CompletenessOfList(keys: Keys)
    ensures (forall k <- keys :: NoOverlap(k)) ==> forall text: string, k: string | k in keys :: IsGone(keys, text, k)
    ensures (forall text: string, k: string | k in keys :: IsGone(keys, text, k)) ==>
              forall k <- keys :: !Occurs(k, PLACEHOLDER)
    ensures (forall k <- keys :: WithoutParentheses(k)) ==>
              ((forall text: string, k: string | k in keys :: IsGone(keys, text, k))
               <==> (forall k <- keys :: !Occurs(k, PLACEHOLDER)))
  {
    hide Occurs, Redact, NoOverlap, WithoutParentheses;
    forall text: string, k: string | k in keys && NoOverlap(k)
      ensures IsGone(keys, text, k)
    {
      RedactionIsComplete(keys, text, k);
    }
    forall k <- keys | Occurs(k, PLACEHOLDER)
      ensures !IsGone(keys, k, k)
    {
      KeyInsidePlaceholder(keys, k);
    }
    forall k <- keys | WithoutParentheses(k)
      ensures NoOverlap(k) <==> !Occurs(k, PLACEHOLDER)
    {
      PlainKeyNoOverlap(k);
    }
  }

  /** A key that fails: it ends as the placeholder begins, and appears where a replacement begins. */
  lemma KeyAcrossReplacement()
    ensures !IsGone([['x', '('], ['k']], ['x', 'k'], ['x', '('])
  {
    var k: string := ['x', '('];
    assert k[..1] == ['x'] && k[1..] == ['('] <= PLACEHOLDER;
    PutBetween(k, 'k', ['x'], "");
    Appears(k, ['x'], PLACEHOLDER, "", 0);
    assert ['x'] + (['k'] + "") == ['x', 'k'];
  }

  // ---- Only the set of keys matters ----

  predicate Descending(keys: seq<string>) {
    forall i, j | 0 <= i < j < |keys| :: |keys[i]| >= |keys[j]|
  }

  /** A list of the given keys, longest first: what the constructor builds. */
  ghost predicate OrderingOf(keys: seq<string>, ks: set<string>) {
    (forall k :: k in keys <==> k in ks) && Descending(keys)
  }

  ghost predicate LongestMatch(ks: set<string>, text: string, k: string) {
    k in ks && k <= text && forall j <- ks :: j <= text ==> |j| <= |k|
  }

  /** Leftmost-longest substitution, said of the set of keys. */
  ghost predicate IsRedaction(ks: set<string>, text: string, out: string)
    requires "" !in ks
    decreases |text|
  {
    if text == "" then out == ""
    else if exists k :: k in ks && k <= text then
      exists k :: LongestMatch(ks, text, k) && PLACEHOLDER <= out
                  && IsRedaction(ks, text[|k|..], out[|PLACEHOLDER|..])
    else [text[0]] <= out && IsRedaction(ks, text[1..], out[1..])
  }

  lemma {:induction false} FirstMatchLength(keys: Keys, text: string)
    requires Descending(keys) && FirstMatch(keys, text).Some?
    ensures forall k <- keys :: k <= text ==> |k| <= |FirstMatch(keys, text).value|
  {
    if !(keys[0] <= text) {
      FirstMatchLength(keys[1..], text);
    }
  }

  lemma {:induction false} FirstMatchIsLongest(keys: Keys, ks: set<string>, text: string)
    requires OrderingOf(keys, ks)
    ensures FirstMatch(keys, text).Some? <==> exists k :: k in ks && k <= text
    ensures FirstMatch(keys, text).Some? ==> LongestMatch(ks, text, FirstMatch(keys, text).value)
  {
    var m := FirstMatch(keys, text);
    if m.Some? {
      FirstMatchLength(keys, text);
    }
  }

  lemma LongestIsUnique(ks: set<string>, text: string, j: string, k: string)
    requires LongestMatch(ks, text, j) && LongestMatch(ks, text, k)
    ensures j == k
  {
    assert j == text[..|j|] && k == text[..|k|];
  }

  /** List-order matching is leftmost-longest matching, for every length-descending order. */
  lemma {:induction false} RedactIsLeftmostLongest(keys: Keys, ks: set<string>, text: string, out: string)
    requires OrderingOf(keys, ks) && "" !in ks
    ensures IsRedaction(ks, text, out) <==> out == Redact(keys, text)
    decreases |text|
  {
    if text == "" {
    } else {
      FirstMatchIsLongest(keys, ks, text);
      var m := FirstMatch(keys, text);
      if m.Some? {
        RedactMatch(keys, ks, text, out, m.value);
      } else if [text[0]] <= out {
        RedactIsLeftmostLongest(keys, ks, text[1..], out[1..]);
        assert out == [out[0]] + out[1..];
      }
    }
  }

  lemma {:induction false} RedactMatch(keys: Keys, ks: set<string>, text: string, out: string, m: string)
    requires OrderingOf(keys, ks) && "" !in ks && text != ""
    requires FirstMatch(keys, text) == Some(m) && LongestMatch(ks, text, m)
    ensures IsRedaction(ks, text, out) <==> out == Redact(keys, text)
    decreases |text|, 0
  {
    var rest := text[|m|..];
    if PLACEHOLDER <= out {
      RedactIsLeftmostLongest(keys, ks, rest, out[|PLACEHOLDER|..]);
      assert out == PLACEHOLDER + out[|PLACEHOLDER|..];
    }
    if IsRedaction(ks, text, out) {
      var k :| LongestMatch(ks, text, k) && PLACEHOLDER <= out
               && IsRedaction(ks, text[|k|..], out[|PLACEHOLDER|..]);
      LongestIsUnique(ks, text, k, m);
    }
  }

  /** The result depends on the set of keys alone. */
  lemma OrderDoesNotMatter(a: Keys, b: Keys, ks: set<string>, text: string)
    requires OrderingOf(a, ks) && OrderingOf(b, ks)
    ensures Redact(a, text) == Redact(b, text)
  {
    assert "" in ks ==> "" in a;
    RedactIsLeftmostLongest(a, ks, text, Redact(a, text));
    RedactIsLeftmostLongest(b, ks, text, Redact(a, text));
  }

  lemma LongestExists(ks: set<string>)
    requires ks != {}
    ensures exists k :: k in ks && forall j <- ks :: |j| <= |k|
  {
    var k :| k in ks;
    var rest := ks - {k};
    if rest != {} {
      LongestExists(rest);
      var m :| m in rest && forall j <- rest :: |j| <= |m|;
      if |m| < |k| {
        assert forall j <- ks :: |j| <= |k|;
      } else {
        assert forall j <- ks :: |j| <= |m|;
      }
    } else {
      assert forall j <- ks :: j == k || j in rest;
    }
  }

  /** The constructor: empty keys and duplicates dropped, longest first, ties in any order. */
  method OrderKeys(apiKeys: seq<string>) returns (keys: Keys)
    ensures OrderingOf(keys, set k | k in apiKeys && k != "")
  {
    var remaining := set k | k in apiKeys && k != "";
    ghost var all := remaining;
    keys := [];
    while remaining != {}
      invariant remaining <= all
      invariant forall k :: k in keys <==> k in all && k !in remaining
      invariant Descending(keys)
      invariant forall i, k | 0 <= i < |keys| && k in remaining :: |k| <= |keys[i]|
      decreases |remaining|
    {
      LongestExists(remaining);
      var k :| k in remaining && forall j <- remaining :: |j| <= |k|;
      keys := keys + [k];
      remaining := remaining - {k};
    }
  }
}
