/**
 The rate-limit registry: a map of retry times in which expired entries are
 deleted lazily, against the plain log of the `set` calls.
 Seconds are real numbers and the clock is an input of every call.
 */
module RateLimit {
  import opened Sequences
  import opened Text

  /** What a caller names: a backend, perhaps a model, and a key. */
  datatype Names = Names(backend: string, model: Option<string>, keyName: string)

  predicate SameModel(a: Option<string>, b: Option<string>) {
    a == b || (a in {None, Some("")} && b in {None, Some("")})
  }

  /** Two callers mean the same: no model and the empty model are not told apart. */
  predicate Same(a: Names, b: Names) {
    a.backend == b.backend && a.keyName == b.keyName && SameModel(a.model, b.model)
  }

  /** The key of the dictionary. */
  datatype Key = Key(backend: string, model: string, keyName: string)

  function MakeKey(n: Names): Key {
    Key(n.backend, if n.model.Some? then n.model.value else "", n.keyName)
  }

  /** Keys tell names apart exactly as callers mean them. */
  lemma KeysMeanNames(a: Names, b: Names)
    ensures MakeKey(a) == MakeKey(b) <==> Same(a, b)
  {
  }

  /** Names for a key. */
  function NamesOf(k: Key): (n: Names)
    ensures MakeKey(n) == k
  {
    Names(k.backend, Some(k.model), k.keyName)
  }

  /** One call of `set`. */
  datatype Entry = Entry(names: Names, until: real)

  // ---- The log: what was set, in order ----

  /** The time of the last `set` under the same names. */
  function LastSet(log: seq<Entry>, n: Names): Option<real> {
    if log == [] then None
    else if Same(log[|log| - 1].names, n) then Some(log[|log| - 1].until)
    else LastSet(log[..|log| - 1], n)
  }

  /** The time `t` was set under these names and never again after. */
  ghost predicate SetLast(log: seq<Entry>, n: Names, t: real) {
    exists i | 0 <= i < |log| :: Same(log[i].names, n) && log[i].until == t
                                 && forall j | i < j < |log| :: !Same(log[j].names, n)
  }

  function Live(t: Option<real>, now: real): Option<real> {
    if t.Some? && now < t.value then t else None
  }

  function LogGet(log: seq<Entry>, n: Names, now: real): Option<real> {
    Live(LastSet(log, n), now)
  }

  lemma SetLastOfLast(log: seq<Entry>, n: Names, t: real)
    requires log != [] && Same(log[|log| - 1].names, n)
    ensures SetLast(log, n, t) <==> log[|log| - 1].until == t
  {
    hide Same;
    var last := |log| - 1;
    assert Same(log[last].names, n);
  }

  lemma SetLastOfInit(log: seq<Entry>, n: Names, t: real)
    requires log != [] && !Same(log[|log| - 1].names, n)
    ensures SetLast(log, n, t) <==> SetLast(log[..|log| - 1], n, t)
  {
    hide Same;
    var before := log[..|log| - 1];
    assert forall j | 0 <= j < |before| :: log[j] == before[j];
    if SetLast(before, n, t) {
      var i :| 0 <= i < |before| && Same(before[i].names, n) && before[i].until == t
               && forall j | i < j < |before| :: !Same(before[j].names, n);
      assert Same(log[i].names, n);
    }
    if SetLast(log, n, t) {
      var i :| 0 <= i < |log| && Same(log[i].names, n) && log[i].until == t
               && forall j | i < j < |log| :: !Same(log[j].names, n);
      assert Same(before[i].names, n);
    }
  }

  lemma {:induction false} LastSetMeaning(log: seq<Entry>, n: Names, t: real)
    ensures LastSet(log, n) == Some(t) <==> SetLast(log, n, t)
  {
    hide Same;
    if log == [] {
    } else {
      hide SetLast;
      LastSetMeaning(log[..|log| - 1], n, t);
      if Same(log[|log| - 1].names, n) {
        SetLastOfLast(log, n, t);
      } else {
        SetLastOfInit(log, n, t);
      }
    }
  }

  /** An answer is the time of the last `set` under the same names, if it is still to come. */
  lemma AnswerMeaning(log: seq<Entry>, n: Names, now: real, t: real)
    ensures LogGet(log, n, now) == Some(t) <==> SetLast(log, n, t) && now < t
  {
    LastSetMeaning(log, n, t);
  }

  function LoggedNames(log: seq<Entry>): set<Names> {
    set e | e in log :: e.names
  }

  function Elements<T(==)>(xs: seq<T>): set<T> {
    set x | x in xs
  }

  /** What `earliest` looks at: the combinations given, or all when none are. */
  function Chosen<T(==)>(combos: seq<T>, all: set<T>): set<T> {
    if combos == [] then all else Elements(combos)
  }

  ghost function LogTimes(log: seq<Entry>, ns: set<Names>, now: real): set<real> {
    set n | n in ns && LogGet(log, n, now).Some? :: LogGet(log, n, now).value
  }

  ghost predicate IsMin(ts: set<real>, r: Option<real>) {
    if r.None? then forall t: real :: t !in ts else r.value in ts && forall t <- ts :: r.value <= t
  }

  lemma {:induction false} MinExists(ts: set<real>)
    ensures exists r :: IsMin(ts, r)
    decreases |ts|
  {
    if t :| t in ts {
      var rest := ts - {t};
      MinExists(rest);
      var m :| IsMin(rest, m);
      assert forall u <- ts :: u == t || u in rest;
      assert IsMin(ts, Some(if m.Some? && m.value < t then m.value else t));
    } else {
      assert IsMin(ts, None);
    }
  }

  /** `min(valid_times)`, or `None` for an empty list. */
  ghost function Min(ts: set<real>): (r: Option<real>)
    ensures IsMin(ts, r)
  {
    MinExists(ts);
    var r :| IsMin(ts, r);
    r
  }

  // ---- The map ----

  type Registry = map<Key, real>

  function Lookup(m: Registry, k: Key): Option<real> {
    if k in m then Some(m[k]) else None
  }

  /** The map without those of the given keys whose time has come. */
  function Purged(m: Registry, ks: set<Key>, now: real): Registry {
    m - (set k | k in ks && k in m && m[k] <= now)
  }

  ghost function MapTimes(m: Registry, ks: set<Key>, now: real): set<real> {
    set k | k in ks && Live(Lookup(m, k), now).Some? :: m[k]
  }

  // ---- Agreement of map and log ----

  /** Whatever the map holds is the last time set. */
  ghost predicate Sound(m: Registry, log: seq<Entry>) {
    forall n: Names :: MakeKey(n) in m ==> LastSet(log, n) == Some(m[MakeKey(n)])
  }

  /** Every time that is still to come is in the map. */
  ghost predicate Complete(m: Registry, log: seq<Entry>, clock: real) {
    forall n: Names :: LogGet(log, n, clock).Some? ==> MakeKey(n) in m
  }

  lemma LastSetSnoc(log: seq<Entry>, e: Entry, n: Names)
    ensures LastSet(log + [e], n) == if Same(e.names, n) then Some(e.until) else LastSet(log, n)
  {
    assert (log + [e])[..|log|] == log;
  }

  lemma SetKeeps(m: Registry, log: seq<Entry>, clock: real, e: Entry, now: real)
    requires clock <= now
    ensures Sound(m, log) ==> Sound(m[MakeKey(e.names) := e.until], log + [e])
    ensures Complete(m, log, clock) ==> Complete(m[MakeKey(e.names) := e.until], log + [e], now)
  {
    hide Same, MakeKey, LastSet;
    forall n: Names
      ensures LastSet(log + [e], n) == if Same(e.names, n) then Some(e.until) else LastSet(log, n)
      ensures MakeKey(e.names) == MakeKey(n) <==> Same(e.names, n)
    {
      LastSetSnoc(log, e, n);
      KeysMeanNames(e.names, n);
    }
  }

  lemma PurgeKeeps(m: Registry, log: seq<Entry>, clock: real, ks: set<Key>, now: real)
    requires clock <= now && Sound(m, log)
    ensures Sound(Purged(m, ks, now), log)
    ensures Complete(m, log, clock) ==> Complete(Purged(m, ks, now), log, now)
  {
    hide MakeKey, LastSet;
  }

  lemma GetAgrees(m: Registry, log: seq<Entry>, clock: real, n: Names, now: real)
    requires clock <= now && Sound(m, log) && Complete(m, log, clock)
    ensures Live(Lookup(m, MakeKey(n)), now) == LogGet(log, n, now)
  {
    hide MakeKey, LastSet;
    assert LogGet(log, n, clock).Some? ==> MakeKey(n) in m;
  }

  lemma {:induction false} LastSetLogged(log: seq<Entry>, n: Names)
    ensures LastSet(log, n).Some? <==> exists l <- LoggedNames(log) :: Same(l, n)
  {
    hide Same;
    if log == [] {
    } else {
      var before, last := log[..|log| - 1], log[|log| - 1];
      LastSetLogged(before, n);
      assert log == before + [last];
      assert LoggedNames(log) == LoggedNames(before) + {last.names};
    }
  }

  /** The keys of some names. */
  function KeysOf(ns: set<Names>): set<Key> {
    set n | n in ns :: MakeKey(n)
  }

  /** Names stand for their keys: the times under given names are those under their keys. */
  lemma NamedTimesAgree(m: Registry, log: seq<Entry>, clock: real, ns: set<Names>, now: real)
    requires clock <= now && Sound(m, log) && Complete(m, log, clock)
    ensures MapTimes(m, KeysOf(ns), now) == LogTimes(log, ns, now)
  {
    forall n: Names
      ensures Live(Lookup(m, MakeKey(n)), now) == LogGet(log, n, now)
    {
      GetAgrees(m, log, clock, n, now);
    }
    hide LogGet, MakeKey;
    forall t | t in MapTimes(m, KeysOf(ns), now)
      ensures t in LogTimes(log, ns, now)
    {
      var k :| k in KeysOf(ns) && Live(Lookup(m, k), now).Some? && m[k] == t;
      var n :| n in ns && MakeKey(n) == k;
      assert LogGet(log, n, now) == Some(t);
    }
    forall t | t in LogTimes(log, ns, now)
      ensures t in MapTimes(m, KeysOf(ns), now)
    {
      var n :| n in ns && LogGet(log, n, now).Some? && LogGet(log, n, now).value == t;
      assert MakeKey(n) in KeysOf(ns) && Live(Lookup(m, MakeKey(n)), now) == Some(t);
    }
  }

  /** All keys of the map, and all names ever set, have the same times to come. */
  lemma AllTimesAgree(m: Registry, log: seq<Entry>, clock: real, now: real)
    requires clock <= now && Sound(m, log) && Complete(m, log, clock)
    ensures MapTimes(m, m.Keys, now) == MapTimes(m, KeysOf(LoggedNames(log)), now)
  {
    forall k | k in m
      ensures k in KeysOf(LoggedNames(log))
    {
      var n := NamesOf(k);
      assert LastSet(log, n).Some?;
      LastSetLogged(log, n);
      var l :| l in LoggedNames(log) && Same(l, n);
      KeysMeanNames(l, n);
      assert MakeKey(l) in KeysOf(LoggedNames(log));
    }
  }

  function KeyList(combos: seq<Names>): (ks: seq<Key>)
    ensures |ks| == |combos| && forall i | 0 <= i < |ks| :: ks[i] == MakeKey(combos[i])
  {
    seq(|combos|, i requires 0 <= i < |combos| => MakeKey(combos[i]))
  }

  lemma KeyListElements(combos: seq<Names>)
    ensures Elements(KeyList(combos)) == KeysOf(Elements(combos))
  {
    hide MakeKey;
    forall n | n in combos
      ensures MakeKey(n) in KeyList(combos)
    {
      var i :| 0 <= i < |combos| && combos[i] == n;
      assert KeyList(combos)[i] == MakeKey(n);
    }
  }

  lemma TimesAgree(m: Registry, log: seq<Entry>, clock: real, combos: seq<Names>, now: real)
    requires clock <= now && Sound(m, log) && Complete(m, log, clock)
    ensures MapTimes(m, Chosen(KeyList(combos), m.Keys), now) == LogTimes(log, Chosen(combos, LoggedNames(log)), now)
  {
    hide Sound, Complete, MapTimes, LogTimes, LoggedNames;
    NamedTimesAgree(m, log, clock, Chosen(combos, LoggedNames(log)), now);
    if combos == [] {
      AllTimesAgree(m, log, clock, now);
    } else {
      KeyListElements(combos);
    }
  }

  // ---- Whole runs ----

  datatype Op =
    | SetOp(names: Names, delay: real, now: real)
    | GetOp(names: Names, now: real)
    | EarliestOp(combos: seq<Names>, now: real)

  /** Times never go back. */
  predicate Timed(clock: real, ops: seq<Op>)
    decreases |ops|
  {
    ops == [] || (clock <= ops[0].now && Timed(ops[0].now, ops[1..]))
  }

  ghost function Answer(m: Registry, op: Op): Option<real> {
    match op
    case SetOp(_, _, _) => None
    case GetOp(n, now) => Live(Lookup(m, MakeKey(n)), now)
    case EarliestOp(combos, now) => Min(MapTimes(m, Chosen(KeyList(combos), m.Keys), now))
  }

  function Next(m: Registry, op: Op): Registry {
    match op
    case SetOp(n, delay, now) => m[MakeKey(n) := now + delay]
    case GetOp(n, now) => Purged(m, {MakeKey(n)}, now)
    case EarliestOp(combos, now) => Purged(m, Chosen(KeyList(combos), m.Keys), now)
  }

  ghost function Answers(m: Registry, ops: seq<Op>): seq<Option<real>>
    decreases |ops|
  {
    if ops == [] then [] else [Answer(m, ops[0])] + Answers(Next(m, ops[0]), ops[1..])
  }

  ghost function LogAnswer(log: seq<Entry>, op: Op): Option<real> {
    match op
    case SetOp(_, _, _) => None
    case GetOp(n, now) => LogGet(log, n, now)
    case EarliestOp(combos, now) => Min(LogTimes(log, Chosen(combos, LoggedNames(log)), now))
  }

  function SetCall(op: Op): seq<Entry> {
    if op.SetOp? then [Entry(op.names, op.now + op.delay)] else []
  }

  function NextLog(log: seq<Entry>, op: Op): seq<Entry> {
    if op.SetOp? then log + SetCall(op) else log
  }

  ghost function LogAnswers(log: seq<Entry>, ops: seq<Op>): seq<Option<real>>
    decreases |ops|
  {
    if ops == [] then [] else [LogAnswer(log, ops[0])] + LogAnswers(NextLog(log, ops[0]), ops[1..])
  }

  lemma StepAgrees(m: Registry, log: seq<Entry>, clock: real, op: Op)
    requires clock <= op.now && Sound(m, log) && Complete(m, log, clock)
    ensures Answer(m, op) == LogAnswer(log, op)
    ensures Sound(Next(m, op), NextLog(log, op)) && Complete(Next(m, op), NextLog(log, op), op.now)
  {
    hide Sound, Complete, LogGet, Purged, MapTimes, LogTimes, LoggedNames, MakeKey, KeyList;
    match op
    case SetOp(n, delay, now) => SetKeeps(m, log, clock, Entry(n, now + delay), now);
    case GetOp(n, now) =>
      GetAgrees(m, log, clock, n, now);
      PurgeKeeps(m, log, clock, {MakeKey(n)}, now);
    case EarliestOp(combos, now) =>
      TimesAgree(m, log, clock, combos, now);
      PurgeKeeps(m, log, clock, Chosen(KeyList(combos), m.Keys), now);
  }

  /**
   Lazy deletion is unobservable: over any interleaving of calls under a clock
   that never goes back, the map answers exactly as the log of `set` calls.
   */
  lemma {:induction false} LazyDeletionUnobservable(m: Registry, log: seq<Entry>, clock: real, ops: seq<Op>)
    requires Sound(m, log) && Complete(m, log, clock) && Timed(clock, ops)
    ensures Answers(m, ops) == LogAnswers(log, ops)
    decreases |ops|
  {
    hide Sound, Complete, Answer, LogAnswer, Next, NextLog;
    if ops == [] {
    } else {
      StepAgrees(m, log, clock, ops[0]);
      LazyDeletionUnobservable(Next(m, ops[0]), NextLog(log, ops[0]), ops[0].now, ops[1..]);
    }
  }

  /** In particular from the empty registry. */
  lemma FreshRegistryIsTheLog(clock: real, ops: seq<Op>)
    requires Timed(clock, ops)
    ensures Answers(map[], ops) == LogAnswers([], ops)
  {
    hide Answers, LogAnswers;
    LazyDeletionUnobservable(map[], [], clock, ops);
  }

  /** What `get` and `earliest` delete changes no later answer. */
  lemma PurgingUnobservable(m: Registry, log: seq<Entry>, clock: real, op: Op, later: seq<Op>)
    requires Sound(m, log) && Complete(m, log, clock)
    requires !op.SetOp? && clock <= op.now && Timed(op.now, later)
    ensures Answers(Next(m, op), later) == Answers(m, later)
  {
    hide Sound, Answers, LogAnswers;
    StepAgrees(m, log, clock, op);
    LazyDeletionUnobservable(Next(m, op), log, op.now, later);
    assert Complete(m, log, op.now);
    LazyDeletionUnobservable(m, log, op.now, later);
  }

  /** `earliest` is the least of the answers `get` would give for the chosen keys, `None` if all are. */
  lemma EarliestIsLeastGet(m: Registry, combos: seq<Names>, now: real)
    ensures var r := Answer(m, EarliestOp(combos, now));
            var ks := Chosen(KeyList(combos), m.Keys);
            && (r.None? <==> forall k <- ks :: Answer(m, GetOp(NamesOf(k), now)).None?)
            && (r.Some? ==> exists k <- ks :: Answer(m, GetOp(NamesOf(k), now)) == r)
            && (r.Some? ==> forall k <- ks :: Answer(m, GetOp(NamesOf(k), now)).Some? ==>
                  r.value <= Answer(m, GetOp(NamesOf(k), now)).value)
  {
    hide MakeKey;
    var ks := Chosen(KeyList(combos), m.Keys);
    var ts := MapTimes(m, ks, now);
    var r := Min(ts);
    forall k <- ks | Answer(m, GetOp(NamesOf(k), now)).Some?
      ensures r.Some? && r.value <= Answer(m, GetOp(NamesOf(k), now)).value
    {
      var t: real := m[k];
      assert t in ts;
    }
    if r.Some? {
      var k :| k in ks && Live(Lookup(m, k), now).Some? && m[k] == r.value;
      assert Answer(m, GetOp(NamesOf(k), now)) == r;
    }
  }

  // ---- The answers of a run, in terms of its calls ----

  /** The `set` calls of a run. */
  function SetCalls(ops: seq<Op>): seq<Entry> {
    FlatMap(SetCall, ops)
  }

  lemma {:induction false} LogAnswersSnoc(log: seq<Entry>, ops: seq<Op>, op: Op)
    ensures LogAnswers(log, ops + [op]) == LogAnswers(log, ops) + [LogAnswer(log + SetCalls(ops), op)]
    decreases |ops|
  {
    hide LogAnswer;
    if ops == [] {
      assert ops + [op] == [op] && [op][1..] == [] && log + [] == log;
    } else {
      assert (ops + [op])[1..] == ops[1..] + [op];
      LogAnswersSnoc(NextLog(log, ops[0]), ops[1..], op);
      assert NextLog(log, ops[0]) + SetCalls(ops[1..]) == log + SetCalls(ops);
    }
  }

  predicate SetsSame(op: Op, n: Names) {
    op.SetOp? && Same(op.names, n)
  }

  function SetUntil(op: Op): real {
    if op.SetOp? then op.now + op.delay else op.now
  }

  /** Some `set` of the run had these names and led to this time, and none after it had these names. */
  ghost predicate SetLastBy(ops: seq<Op>, n: Names, t: real) {
    exists i | 0 <= i < |ops| ::
      SetsSame(ops[i], n) && SetUntil(ops[i]) == t && forall j | i < j < |ops| :: !SetsSame(ops[j], n)
  }

  /** A last call that sets nothing under these names does not count. */
  lemma SetLastBefore(ops: seq<Op>, n: Names, t: real)
    requires ops != [] && !SetsSame(ops[|ops| - 1], n)
    ensures SetLastBy(ops, n, t) <==> SetLastBy(ops[..|ops| - 1], n, t)
  {
    hide SetsSame, SetUntil;
    var init := ops[..|ops| - 1];
    assert forall j | 0 <= j < |init| :: ops[j] == init[j];
    if SetLastBy(init, n, t) {
      var i :| 0 <= i < |init| && SetsSame(init[i], n) && SetUntil(init[i]) == t
               && forall j | i < j < |init| :: !SetsSame(init[j], n);
      assert SetsSame(ops[i], n);
    }
    if SetLastBy(ops, n, t) {
      var i :| 0 <= i < |ops| && SetsSame(ops[i], n) && SetUntil(ops[i]) == t
               && forall j | i < j < |ops| :: !SetsSame(ops[j], n);
      assert SetsSame(init[i], n);
    }
  }

  lemma SetCallsSnoc(ops: seq<Op>, op: Op)
    ensures SetCalls(ops + [op]) == NextLog(SetCalls(ops), op)
  {
    FlatMapSnoc(SetCall, ops, op);
  }

  /** A last call that sets something under these names is the one that counts. */
  lemma SetLastHere(ops: seq<Op>, n: Names, t: real)
    requires ops != [] && SetsSame(ops[|ops| - 1], n)
    ensures SetLastBy(ops, n, t) <==> t == SetUntil(ops[|ops| - 1])
  {
    hide SetsSame, SetUntil;
    var last := |ops| - 1;
    assert SetsSame(ops[last], n);
  }

  lemma NothingSet(n: Names, t: real)
    ensures LastSet(SetCalls([]), n).None? && !SetLastBy([], n, t)
  {
  }

  lemma {:induction false} LastSetOfRun(ops: seq<Op>, n: Names, t: real)
    ensures LastSet(SetCalls(ops), n) == Some(t) <==> SetLastBy(ops, n, t)
  {
    hide Same, SetLastBy, SetCalls, LastSet;
    if ops == [] {
      NothingSet(n, t);
    } else {
      var init, last := ops[..|ops| - 1], ops[|ops| - 1];
      LastSetOfRun(init, n, t);
      assert ops == init + [last];
      SetCallsSnoc(init, last);
      if last.SetOp? {
        LastSetSnoc(SetCalls(init), Entry(last.names, last.now + last.delay), n);
      }
      if last.SetOp? && Same(last.names, n) {
        SetLastHere(ops, n, t);
      } else {
        SetLastBefore(ops, n, t);
      }
    }
  }

  lemma {:induction false} TimedInit(clock: real, ops: seq<Op>, op: Op)
    requires Timed(clock, ops + [op])
    ensures Timed(clock, ops)
    decreases |ops|
  {
    if ops == [] {
    } else {
      assert (ops + [op])[1..] == ops[1..] + [op];
      TimedInit(ops[0].now, ops[1..], op);
    }
  }

  /** The answer to a call after any run from the empty registry is the log's. */
  lemma LastAnswer(clock: real, ops: seq<Op>, op: Op)
    requires Timed(clock, ops + [op])
    ensures Answers(map[], ops + [op]) == Answers(map[], ops) + [LogAnswer(SetCalls(ops), op)]
  {
    hide Answers, LogAnswers, LogAnswer;
    TimedInit(clock, ops, op);
    FreshRegistryIsTheLog(clock, ops + [op]);
    FreshRegistryIsTheLog(clock, ops);
    LogAnswersSnoc([], ops, op);
    assert [] + SetCalls(ops) == SetCalls(ops);
  }

  /**
   After any run, `get` returns `t` if and only if `t` is the time of the last
   `set` with the same backend, model and key name, and is still to come.
   */
  lemma GetAfterRun(clock: real, ops: seq<Op>, n: Names, now: real, t: real)
    requires Timed(clock, ops + [GetOp(n, now)])
    ensures Answers(map[], ops + [GetOp(n, now)]) ==
            Answers(map[], ops) + [LogGet(SetCalls(ops), n, now)]
    ensures LogGet(SetCalls(ops), n, now) == Some(t) <==> SetLastBy(ops, n, t) && now < t
  {
    hide Answers, SetLastBy, SetCalls, LastSet;
    LastAnswer(clock, ops, GetOp(n, now));
    LastSetOfRun(ops, n, t);
  }

  /** The names `earliest` looks at after a run: those given, or all that were ever set. */
  predicate LooksAt(ops: seq<Op>, combos: seq<Names>, n: Names) {
    if combos == [] then exists i | 0 <= i < |ops| :: ops[i].SetOp? && ops[i].names == n else n in combos
  }

  lemma {:induction false} LoggedByRun(ops: seq<Op>, n: Names)
    ensures n in LoggedNames(SetCalls(ops)) <==> LooksAt(ops, [], n)
  {
    if ops == [] {
    } else {
      var init, last := ops[..|ops| - 1], ops[|ops| - 1];
      LoggedByRun(init, n);
      assert ops == init + [last];
      SetCallsSnoc(init, last);
      assert forall i | 0 <= i < |init| :: init[i] == ops[i];
      if last.SetOp? {
        var e := Entry(last.names, last.now + last.delay);
        assert LoggedNames(SetCalls(init) + [e]) == LoggedNames(SetCalls(init)) + {last.names};
      }
      if LooksAt(ops, [], n) && !LooksAt(init, [], n) {
        assert last.SetOp? && last.names == n;
      }
    }
  }

  /**
   After any run, `earliest` is the least of what `get` would answer at that
   moment for the names it looks at, and none exactly if all those are none.
   */
  lemma EarliestAfterRun(clock: real, ops: seq<Op>, combos: seq<Names>, now: real) returns (r: Option<real>)
    requires Timed(clock, ops + [EarliestOp(combos, now)])
    ensures Answers(map[], ops + [EarliestOp(combos, now)]) == Answers(map[], ops) + [r]
    ensures r.None? <==> forall n: Names | LooksAt(ops, combos, n) :: LogGet(SetCalls(ops), n, now).None?
    ensures r.Some? ==> exists n: Names | LooksAt(ops, combos, n) :: LogGet(SetCalls(ops), n, now) == r
    ensures r.Some? ==> forall n: Names | LooksAt(ops, combos, n) && LogGet(SetCalls(ops), n, now).Some? ::
                          r.value <= LogGet(SetCalls(ops), n, now).value
  {
    hide Answers, LogGet, SetCalls;
    var log := SetCalls(ops);
    var ns := Chosen(combos, LoggedNames(log));
    forall n: Names
      ensures n in ns <==> LooksAt(ops, combos, n)
    {
      LoggedByRun(ops, n);
    }
    hide LooksAt, Chosen;
    LastAnswer(clock, ops, EarliestOp(combos, now));
    var ts := LogTimes(log, ns, now);
    r := Min(ts);
    forall n: Names | LooksAt(ops, combos, n) && LogGet(log, n, now).Some?
      ensures r.Some? && r.value <= LogGet(log, n, now).value
    {
      var t: real := LogGet(log, n, now).value;
      assert t in ts;
    }
    if r.Some? {
      var n :| n in ns && LogGet(log, n, now).Some? && LogGet(log, n, now).value == r.value;
      assert LooksAt(ops, combos, n) && LogGet(log, n, now) == r;
    }
  }

  // ---- The class ----

  lemma CollectStep(m: Registry, seen: seq<Key>, key: Key, now: real)
    ensures var before, after := Elements(seen), Elements(seen + [key]);
            && Purged(m, after, now) ==
               (if key in m && m[key] <= now then Purged(m, before, now) - {key} else Purged(m, before, now))
            && MapTimes(m, after, now) ==
               (if key in m && now < m[key] then MapTimes(m, before, now) + {m[key]} else MapTimes(m, before, now))
            && (key in Purged(m, before, now) ==> key in m)
            && (key in m && now < m[key] ==> key in Purged(m, before, now) && Purged(m, before, now)[key] == m[key])
            && (key in m && m[key] <= now && key !in Purged(m, before, now) ==>
                  Purged(m, after, now) == Purged(m, before, now))
  {
    var before, after := Elements(seen), Elements(seen + [key]);
    assert after == before + {key};
  }

  /** Some listing of a set: the iteration order of the dictionary. */
  method AnyOrder(ks: set<Key>) returns (r: seq<Key>)
    ensures Elements(r) == ks
  {
    var rest := ks;
    r := [];
    while rest != {}
      invariant rest <= ks && Elements(r) == ks - rest
      decreases |rest|
    {
      var k :| k in rest;
      assert Elements(r + [k]) == Elements(r) + {k};
      r, rest := r + [k], rest - {k};
    }
  }

  function Least(ts: seq<real>): Option<real> {
    if ts == [] then None
    else
      var rest := Least(ts[1..]);
      if rest.Some? && rest.value < ts[0] then rest else Some(ts[0])
  }

  lemma {:induction false} LeastIsLowerBound(ts: seq<real>)
    ensures ts == [] <==> Least(ts).None?
    ensures Least(ts).Some? ==> Least(ts).value in ts && forall t <- ts :: Least(ts).value <= t
  {
    if ts == [] {
    } else {
      LeastIsLowerBound(ts[1..]);
      assert forall t :: t in ts <==> t == ts[0] || t in ts[1..];
    }
  }

  lemma LeastIsMin(ts: seq<real>, times: set<real>, r: Option<real>)
    requires (forall t :: t in ts <==> t in times) && r == Least(ts)
    ensures r == Min(times)
  {
    LeastIsLowerBound(ts);
    var m := Min(times);
    if ts == [] {
      assert forall t: real :: t !in times;
      assert m.None?;
    } else {
      var v: real := r.value;
      assert v in ts;
      assert v in times;
    }
  }

  /** What the map tells of given names: the last time set, and no less if nothing is missing. */
  lemma GetIsSetLast(m: Registry, log: seq<Entry>, clock: real, n: Names, now: real, complete: bool)
    requires clock <= now && Sound(m, log) && (complete ==> Complete(m, log, clock))
    ensures var ts := Live(Lookup(m, MakeKey(n)), now);
            && (ts.Some? ==> SetLast(log, n, ts.value) && now < ts.value)
            && (complete && ts.None? ==> forall t: real | SetLast(log, n, t) :: t <= now)
  {
    hide SetLast, MakeKey, LastSet;
    var ts := Live(Lookup(m, MakeKey(n)), now);
    if ts.Some? {
      AnswerMeaning(log, n, now, ts.value);
    } else if complete {
      GetAgrees(m, log, clock, n, now);
      forall t: real | SetLast(log, n, t)
        ensures t <= now
      {
        AnswerMeaning(log, n, now, t);
      }
    }
  }

  class RateLimitRegistry {
    var until: Registry
    ghost var log: seq<Entry>
    ghost var clock: real
    ghost var evicted: bool

    /** Sound always; complete as long as the cache has evicted nothing. */
    ghost predicate Valid()
      reads this
    {
      Sound(until, log) && (evicted || Complete(until, log, clock))
    }

    constructor (now: real)
      ensures Valid() && log == [] && clock == now && !evicted
    {
      until, log, clock, evicted := map[], [], now, false;
    }

    method Set(backend: string, model: Option<string>, keyName: string, delaySeconds: real, now: real)
      requires Valid() && clock <= now
      modifies this
      ensures Valid() && clock == now && evicted == old(evicted)
      ensures log == old(log) + [Entry(Names(backend, model, keyName), now + delaySeconds)]
    {
      var e := Entry(Names(backend, model, keyName), now + delaySeconds);
      SetKeeps(until, log, clock, e, now);
      until := until[MakeKey(e.names) := e.until];
      log, clock := log + [e], now;
    }

    /** Only the last time set and only if still to come; exactly so when nothing was evicted. */
    method Get(backend: string, model: Option<string>, keyName: string, now: real) returns (ts: Option<real>)
      requires Valid() && clock <= now
      modifies this
      ensures Valid() && log == old(log) && clock == now && evicted == old(evicted)
      ensures ts.Some? ==> SetLast(log, Names(backend, model, keyName), ts.value) && now < ts.value
      ensures !evicted && ts.None? ==> forall t: real | SetLast(log, Names(backend, model, keyName), t) :: t <= now
    {
      hide SetLast, MakeKey, LastSet;
      var key := MakeKey(Names(backend, model, keyName));
      PurgeKeeps(until, log, clock, {key}, now);
      GetIsSetLast(until, log, clock, Names(backend, model, keyName), now, !evicted);
      clock := now;
      if key !in until {
        assert Purged(until, {key}, now) == until;
        return None;
      }
      var found := until[key];
      if now >= found {
        assert Purged(until, {key}, now) == until - {key};
        until := until - {key};
        return None;
      }
      assert Purged(until, {key}, now) == until;
      ts := Some(found);
    }

    /** What the size and age limits of the underlying cache may do at any moment. */
    method Evict(keys: set<Key>)
      requires Valid()
      modifies this
      ensures Valid() && log == old(log) && clock == old(clock) && evicted
    {
      until := until - keys;
      evicted := true;
    }

    /** Purges the expired keys of a list and collects the times of the others. */
    method Collect(keys: seq<Key>, now: real) returns (validTimes: seq<real>)
      modifies `until
      ensures until == Purged(old(until), Elements(keys), now)
      ensures forall t :: t in validTimes <==> t in MapTimes(old(until), Elements(keys), now)
    {
      validTimes := [];
      for i := 0 to |keys|
        invariant until == Purged(old(until), Elements(keys[..i]), now)
        invariant forall t :: t in validTimes <==> t in MapTimes(old(until), Elements(keys[..i]), now)
      {
        var key := keys[i];
        CollectStep(old(until), keys[..i], key, now);
        assert keys[..i + 1] == keys[..i] + [key];
        if key !in until {
          continue;
        }
        var retry := until[key];
        if now >= retry {
          until := until - {key};
          continue;
        }
        validTimes := validTimes + [retry];
      }
      assert keys[..|keys|] == keys;
    }

    method Earliest(combos: seq<Names>, now: real) returns (r: Option<real>)
      requires Valid() && clock <= now
      modifies this
      ensures Valid() && log == old(log) && clock == now && evicted == old(evicted)
      ensures r == Min(MapTimes(old(until), Chosen(KeyList(combos), old(until.Keys)), now))
      ensures !evicted ==> r == Min(LogTimes(log, Chosen(combos, LoggedNames(log)), now))
    {
      var keys := KeyList(combos);
      if combos == [] {
        keys := AnyOrder(until.Keys);
      }
      ghost var ks := Chosen(KeyList(combos), until.Keys);
      assert Elements(keys) == ks;
      PurgeKeeps(until, log, clock, ks, now);
      if !evicted {
        TimesAgree(until, log, clock, combos, now);
      }
      ghost var times := MapTimes(until, ks, now);
      var validTimes := Collect(keys, now);
      clock := now;
      r := Least(validTimes);
      LeastIsMin(validTimes, times, r);
    }
  }
}
