/**
 The cache in front of the redactor: an ordered dictionary from text digests to
 results, reordered on every hit and cut to size on every insertion.
 */
module RedactorCache {
  import opened Sequences
  import opened KeyRedactor

  const CACHE_MAX_SIZE := 512
  const CACHED_TEXT_LIMIT := 1000

  // ---- What the cache should hold ----

  function Without(xs: seq<string>, x: string): (r: seq<string>)
    ensures forall y :: y in r <==> y in xs && y != x
    ensures |r| <= |xs|
  {
    if xs == [] then []
    else if xs[0] == x then Without(xs[1..], x)
    else [xs[0]] + Without(xs[1..], x)
  }

  /** The distinct texts of a history, the most recently used one last. */
  function Recency(history: seq<string>): seq<string> {
    if history == [] then []
    else
      var last := history[|history| - 1];
      Without(Recency(history[..|history| - 1]), last) + [last]
  }

  /** The last `n` elements, or all of them. */
  function Newest(n: nat, xs: seq<string>): seq<string> {
    if |xs| <= n then xs else xs[|xs| - n..]
  }

  /** The position of the last use of `x`, -1 if there is none. */
  function LastUse(history: seq<string>, x: string): (i: int)
    ensures -1 <= i < |history|
    ensures i == -1 <==> x !in history
    ensures i != -1 ==> history[i] == x && x !in history[i + 1..]
  {
    if history == [] then -1
    else if history[|history| - 1] == x then |history| - 1
    else
      var i := LastUse(history[..|history| - 1], x);
      assert history == history[..|history| - 1] + [history[|history| - 1]];
      assert i != -1 ==> history[i + 1..] == history[..|history| - 1][i + 1..] + [history[|history| - 1]];
      i
  }

  lemma WithoutFirst(xs: seq<string>, x: string)
    requires xs != []
    ensures Without(xs, x) == if xs[0] == x then Without(xs[1..], x) else [xs[0]] + Without(xs[1..], x)
  {
  }

  lemma WithoutNone(x: string)
    ensures Without([], x) == []
  {
  }

  lemma {:induction false} WithoutAbsent(xs: seq<string>, x: string)
    requires x !in xs
    ensures Without(xs, x) == xs
  {
    hide Without;
    if xs == [] {
      WithoutNone(x);
    } else {
      assert xs[0] in xs;
      WithoutFirst(xs, x);
      WithoutAbsent(xs[1..], x);
    }
  }

  lemma DistinctTail(xs: seq<string>)
    requires xs != []
    ensures Distinct(xs) <==> xs[0] !in xs[1..] && Distinct(xs[1..])
  {
    assert forall i | 0 <= i < |xs| - 1 :: xs[1..][i] == xs[i + 1];
    if Distinct(xs) {
      assert forall i | 0 <= i < |xs| - 1 :: xs[0] != xs[1..][i];
    } else {
      var i, j :| 0 <= i < j < |xs| && xs[i] == xs[j];
      assert xs[j] == xs[1..][j - 1];
    }
  }

  lemma {:induction false} WithoutDistinct(xs: seq<string>, x: string)
    requires Distinct(xs)
    ensures Distinct(Without(xs, x))
    ensures x in xs ==> |Without(xs, x)| == |xs| - 1
    ensures x !in xs ==> Without(xs, x) == xs
  {
    hide Without;
    if xs == [] {
      WithoutNone(x);
    } else {
      hide Distinct;
      var rest := Without(xs[1..], x);
      DistinctTail(xs);
      WithoutDistinct(xs[1..], x);
      WithoutFirst(xs, x);
      if xs[0] != x {
        assert ([xs[0]] + rest)[1..] == rest;
        DistinctTail([xs[0]] + rest);
      }
    }
  }

  lemma {:induction false} WithoutAppend(xs: seq<string>, ys: seq<string>, x: string)
    ensures Without(xs + ys, x) == Without(xs, x) + Without(ys, x)
  {
    if xs == [] {
      assert xs + ys == ys;
    } else {
      assert (xs + ys)[1..] == xs[1..] + ys;
      WithoutAppend(xs[1..], ys, x);
    }
  }

  predicate ByLastUse(history: seq<string>, xs: seq<string>) {
    forall i, j | 0 <= i < j < |xs| :: LastUse(history, xs[i]) < LastUse(history, xs[j])
  }

  lemma {:induction false} WithoutByLastUse(history: seq<string>, xs: seq<string>, x: string)
    requires ByLastUse(history, xs)
    ensures ByLastUse(history, Without(xs, x))
  {
    hide LastUse;
    if xs == [] {
    } else {
      assert ByLastUse(history, xs[1..]);
      WithoutByLastUse(history, xs[1..], x);
      var r := Without(xs[1..], x);
      forall j | 0 <= j < |r|
        ensures LastUse(history, xs[0]) < LastUse(history, r[j])
      {
        assert r[j] in r;
        var i :| 0 <= i < |xs[1..]| && xs[1..][i] == r[j];
        assert xs[i + 1] == r[j];
      }
    }
  }

  /** The texts used, each once, ordered by their last use. */
  lemma {:induction false} RecencyMeaning(history: seq<string>)
    ensures forall x :: x in Recency(history) <==> x in history
    ensures ByLastUse(history, Recency(history))
    ensures Distinct(Recency(history))
  {
    if history == [] {
    } else {
      var before, last := history[..|history| - 1], history[|history| - 1];
      RecencyMeaning(before);
      assert history == before + [last];
      var older := Recency(before);
      WithoutDistinct(older, last);
      WithoutByLastUse(before, older, last);
      var kept := Without(older, last);
      forall i | 0 <= i < |kept|
        ensures LastUse(history, kept[i]) == LastUse(before, kept[i])
      {
        assert kept[i] in kept;
      }
    }
  }

  /** What precedes a full window does not matter. */
  lemma NewestSuffix(n: nat, older: seq<string>, window: seq<string>)
    requires older == [] || n <= |window|
    ensures Newest(n, older + window) == Newest(n, window)
  {
    if older == [] {
      assert older + window == window;
    }
  }

  lemma DistinctParts(xs: seq<string>, ys: seq<string>)
    requires Distinct(xs + ys)
    ensures Distinct(xs) && Distinct(ys)
    ensures forall x <- xs :: x !in ys
  {
    var zs := xs + ys;
    assert forall i | 0 <= i < |xs| :: xs[i] == zs[i];
    assert forall j | 0 <= j < |ys| :: ys[j] == zs[|xs| + j];
  }

  /** The window and what is older; if anything is, the window is full. */
  predicate IsWindow(n: nat, older: seq<string>, window: seq<string>) {
    |window| <= n && (older == [] || |window| == n)
  }

  lemma NewestIsWindow(n: nat, xs: seq<string>) returns (older: seq<string>)
    ensures xs == older + Newest(n, xs) && IsWindow(n, older, Newest(n, xs))
  {
    older := xs[..|xs| - |Newest(n, xs)|];
  }

  lemma HitInWindow(n: nat, older: seq<string>, window: seq<string>, x: string)
    requires Distinct(older + window) && IsWindow(n, older, window) && x in window
    ensures Newest(n, Without(older + window, x) + [x]) == Without(window, x) + [x]
  {
    hide Distinct, Without;
    DistinctParts(older, window);
    WithoutAppend(older, window, x);
    WithoutDistinct(older, x);
    WithoutDistinct(window, x);
    var after := Without(window, x) + [x];
    assert older + Without(window, x) + [x] == older + after;
    NewestSuffix(n, older, after);
  }

  /** A hit moves its text to the end of the window. */
  lemma WindowAfterHit(n: nat, xs: seq<string>, x: string)
    requires Distinct(xs) && x in Newest(n, xs)
    ensures Newest(n, Without(xs, x) + [x]) == Without(Newest(n, xs), x) + [x]
  {
    hide Distinct, Without, Newest;
    var older := NewestIsWindow(n, xs);
    HitInWindow(n, older, Newest(n, xs), x);
  }

  lemma MissInWindow(n: nat, older: seq<string>, window: seq<string>, x: string)
    requires n > 0 && Distinct(older + window) && IsWindow(n, older, window) && x !in window
    ensures Newest(n, Without(older + window, x) + [x]) == Newest(n, window + [x])
  {
    assert older == [] ==> Without(older, x) == [];
    hide Distinct, Without;
    DistinctParts(older, window);
    WithoutAppend(older, window, x);
    WithoutDistinct(window, x);
    var after := window + [x];
    assert Without(older, x) + window + [x] == Without(older, x) + after;
    NewestSuffix(n, Without(older, x), after);
  }

  /** A miss appends its text and drops the oldest one when the window is full. */
  lemma WindowAfterMiss(n: nat, xs: seq<string>, x: string)
    requires n > 0 && Distinct(xs) && x !in Newest(n, xs)
    ensures Newest(n, Without(xs, x) + [x]) == Newest(n, Newest(n, xs) + [x])
  {
    hide Distinct, Without, Newest;
    var older := NewestIsWindow(n, xs);
    MissInWindow(n, older, Newest(n, xs), x);
  }

  // ---- The class ----

  datatype Entry = Entry(digest: string, result: string)

  ghost predicate Injective(hash: string -> string) {
    forall s, t :: hash(s) == hash(t) ==> s == t
  }

  function Entries(keys: Keys, hash: string -> string, texts: seq<string>): (es: seq<Entry>)
    ensures |es| == |texts|
    ensures forall i | 0 <= i < |texts| :: es[i] == Entry(hash(texts[i]), Redact(keys, texts[i]))
  {
    seq(|texts|, i requires 0 <= i < |texts| => Entry(hash(texts[i]), Redact(keys, texts[i])))
  }

  /** What the cache holds after a history of cached calls. */
  function Expected(keys: Keys, hash: string -> string, history: seq<string>): seq<Entry> {
    Entries(keys, hash, Newest(CACHE_MAX_SIZE, Recency(history)))
  }

  /** The position of a distinct element splits a sequence around it. */
  lemma {:induction false} WithoutAt(xs: seq<string>, i: nat)
    requires Distinct(xs) && i < |xs|
    ensures Without(xs, xs[i]) == xs[..i] + xs[i + 1..]
  {
    var a, b := xs[..i], xs[i + 1..];
    assert xs == a + [xs[i]] + b;
    WithoutAppend(a + [xs[i]], b, xs[i]);
    WithoutAppend(a, [xs[i]], xs[i]);
    assert Distinct(a) && Distinct(b);
    assert xs[i] !in a && xs[i] !in b;
    WithoutDistinct(a, xs[i]);
    WithoutDistinct(b, xs[i]);
    assert Without([xs[i]], xs[i]) == [];
  }

  lemma NewestDistinct(n: nat, xs: seq<string>)
    requires Distinct(xs)
    ensures Distinct(Newest(n, xs))
  {
  }

  lemma RecencySnoc(history: seq<string>, text: string)
    ensures Recency(history + [text]) == Without(Recency(history), text) + [text]
  {
    assert (history + [text])[..|history|] == history;
  }

  /** The window of recent texts after one more use. */
  function NextWindow(window: seq<string>, text: string): seq<string> {
    if text in window then Without(window, text) + [text] else Newest(CACHE_MAX_SIZE, window + [text])
  }

  lemma WindowStep(history: seq<string>, text: string)
    ensures Newest(CACHE_MAX_SIZE, Recency(history + [text])) ==
            NextWindow(Newest(CACHE_MAX_SIZE, Recency(history)), text)
    ensures Distinct(Newest(CACHE_MAX_SIZE, Recency(history)))
  {
    hide Distinct, Without, Newest, Recency;
    var recent := Recency(history);
    RecencyMeaning(history);
    RecencySnoc(history, text);
    NewestDistinct(CACHE_MAX_SIZE, recent);
    if text in Newest(CACHE_MAX_SIZE, recent) {
      WindowAfterHit(CACHE_MAX_SIZE, recent, text);
    } else {
      WindowAfterMiss(CACHE_MAX_SIZE, recent, text);
    }
  }

  lemma ExpectedAfterHit(keys: Keys, hash: string -> string, history: seq<string>, text: string, i: nat)
    requires var window := Newest(CACHE_MAX_SIZE, Recency(history)); i < |window| && window[i] == text
    ensures var cache := Expected(keys, hash, history);
            Expected(keys, hash, history + [text]) == cache[..i] + cache[i + 1..] + [cache[i]]
  {
    hide Distinct, Redact, Recency, Newest, Without;
    var window := Newest(CACHE_MAX_SIZE, Recency(history));
    WindowStep(history, text);
    assert text in window;
    WithoutAt(window, i);
    assert NextWindow(window, text) == window[..i] + window[i + 1..] + [window[i]];
  }

  lemma ExpectedAfterMiss(keys: Keys, hash: string -> string, history: seq<string>, text: string)
    requires text !in Newest(CACHE_MAX_SIZE, Recency(history))
    ensures var cache := Expected(keys, hash, history) + [Entry(hash(text), Redact(keys, text))];
            Expected(keys, hash, history + [text]) == if |cache| > CACHE_MAX_SIZE then cache[1..] else cache
  {
    hide Distinct, Redact, Recency, Without;
    var window := Newest(CACHE_MAX_SIZE, Recency(history));
    WindowStep(history, text);
    var after := window + [text];
    assert NextWindow(window, text) == if |after| > CACHE_MAX_SIZE then after[1..] else after;
  }

  class APIKeyRedactor {
    const apiKeys: Keys
    const hash: string -> string
    var redactCache: seq<Entry>
    ghost var history: seq<string>

    /** The cache is exactly the window of recent texts, each with its own redaction. */
    ghost predicate Valid()
      reads this
    {
      Injective(hash) && redactCache == Expected(apiKeys, hash, history)
    }

    constructor (keys: Keys, hash: string -> string)
      requires Injective(hash)
      ensures Valid() && apiKeys == keys && this.hash == hash && history == []
    {
      apiKeys, this.hash := keys, hash;
      redactCache, history := [], [];
    }

    method Find(digest: string) returns (i: int)
      ensures -1 <= i < |redactCache|
      ensures i == -1 ==> forall e <- redactCache :: e.digest != digest
      ensures i != -1 ==> redactCache[i].digest == digest
    {
      i := 0;
      while i < |redactCache|
        invariant 0 <= i <= |redactCache|
        invariant forall j | 0 <= j < i :: redactCache[j].digest != digest
      {
        if redactCache[i].digest == digest {
          return;
        }
        i := i + 1;
      }
      i := -1;
    }

    /** `_redact_cached` */
    method RedactCached(text: string) returns (result: string)
      requires Valid()
      modifies this
      ensures Valid() && history == old(history) + [text]
      ensures result == Redact(apiKeys, text)
    {
      hide Redact, Recency, Newest;
      ghost var window := Newest(CACHE_MAX_SIZE, Recency(history));
      var digest := hash(text);
      var i := Find(digest);
      if i != -1 {
        assert window[i] == text;
        ExpectedAfterHit(apiKeys, hash, history, text, i);
        result := redactCache[i].result;
        redactCache := redactCache[..i] + redactCache[i + 1..] + [redactCache[i]];
        history := history + [text];
        return;
      }
      assert forall j | 0 <= j < |window| :: redactCache[j] in redactCache && redactCache[j].digest == hash(window[j]);
      assert text !in window;
      ExpectedAfterMiss(apiKeys, hash, history, text);
      var found;
      result, found := RedactInternal(apiKeys, text);
      redactCache := redactCache + [Entry(digest, result)];
      if |redactCache| > CACHE_MAX_SIZE {
        redactCache := redactCache[1..];
      }
      history := history + [text];
    }

    /** `redact`: whatever was asked before, the answer is that of the uncached function. */
    method RedactText(text: string) returns (result: string)
      requires Valid()
      modifies this
      ensures Valid()
      ensures history == if 0 < |text| < CACHED_TEXT_LIMIT then old(history) + [text] else old(history)
      ensures result == Redact(apiKeys, text)
    {
      if text == "" {
        return text;
      }
      if |text| < CACHED_TEXT_LIMIT {
        result := RedactCached(text);
      } else {
        var found;
        result, found := RedactInternal(apiKeys, text);
      }
    }
  }
}
