/**
 What the usage report shows, in terms of the entries of the captures: a session
 is told from its own entries, and rows and totals are sums over sessions.
 */
module UsageLaws {
  import opened Sequences
  import opened Text
  import opened UsageReport

  // ---- The entries of a session ----

  /** Not before the start time, with this session id; an empty id is none. */
  predicate IsOf(e: Entry, start: real, sid: string) {
    !(e.ts < start) && e.sid == Some(sid) && |sid| > 0
  }

  function OwnEntry(start: real, sid: string): Entry -> seq<Entry> {
    (e: Entry) => if IsOf(e, start, sid) then [e] else []
  }

  /** The history of a session. */
  function History(es: seq<Entry>, start: real, sid: string): seq<Entry> {
    FlatMap(OwnEntry(start, sid), es)
  }

  lemma HistorySnoc(es: seq<Entry>, e: Entry, start: real, sid: string)
    ensures History(es + [e], start, sid) ==
            if IsOf(e, start, sid) then History(es, start, sid) + [e] else History(es, start, sid)
  {
    hide IsOf;
    FlatMapSnoc(OwnEntry(start, sid), es, e);
  }

  lemma BelongsMeans(e: Entry, start: real, sid: string)
    ensures Belongs(e, start, sid) <==> IsOf(e, start, sid)
    ensures Belongs(e, start, sid) <==> Relevant(e, start) && e.sid.value == sid
    ensures Relevant(e, start) ==> e.sid.Some?
  {
  }

  lemma NothingHappened(start: real, sid: string)
    ensures SessionOf([], start, sid).None? && History([], start, sid) == []
  {
  }

  /** A session is the session of its own history. */
  lemma {:induction false} OwnHistory(es: seq<Entry>, start: real, sid: string)
    ensures SessionOf(es, start, sid) == SessionOf(History(es, start, sid), start, sid)
    ensures SessionOf(es, start, sid).Some? <==> History(es, start, sid) != []
    ensures forall e <- History(es, start, sid) :: Belongs(e, start, sid)
  {
    hide Belongs, Relevant, After, IsOf, SessionOf, History;
    if es == [] {
      NothingHappened(start, sid);
    } else {
      var before, e := es[..|es| - 1], es[|es| - 1];
      assert es == before + [e];
      OwnHistory(before, start, sid);
      SessionOfSnoc(before, e, start, sid);
      HistorySnoc(before, e, start, sid);
      BelongsMeans(e, start, sid);
      if IsOf(e, start, sid) {
        SessionOfSnoc(History(before, start, sid), e, start, sid);
      }
    }
  }

  // ---- What a history tells ----

  function RequestIn(e: Entry): seq<Entry> {
    if e.direction == 2 then [e] else []
  }

  /** The events of the backend's replies. */
  function Replies(e: Entry): seq<SseEvent> {
    if e.direction == 3 then e.events else []
  }

  function Named<T>(of: SseEvent -> Option<T>): SseEvent -> seq<T> {
    (ev: SseEvent) => match of(ev) case Some(x) => [x] case None => []
  }

  /** Everything of one kind that the backend reported, in order. */
  function Reports<T>(of: SseEvent -> Option<T>, h: seq<Entry>): seq<T> {
    FlatMap(Named(of), FlatMap(Replies, h))
  }

  function LastOf<T>(xs: seq<T>): Option<T> {
    if |xs| == 0 then None else Some(xs[|xs| - 1])
  }

  lemma {:induction false} LastInReports<T>(of: SseEvent -> Option<T>, evs: seq<SseEvent>, before: Option<T>)
    ensures var xs := FlatMap(Named(of), evs);
            LastIn(of, evs, before) == if xs == [] then before else LastOf(xs)
    decreases |evs|
  {
    if evs == [] {
    } else {
      LastInReports(of, evs[1..], if of(evs[0]).Some? then of(evs[0]) else before);
    }
  }

  lemma ReportsSnoc<T>(of: SseEvent -> Option<T>, h: seq<Entry>, e: Entry)
    ensures Reports(of, h + [e]) == Reports(of, h) + if e.direction == 3 then FlatMap(Named(of), e.events) else []
  {
    hide FlatMap;
    FlatMapSnoc(Replies, h, e);
    FlatMapAppend(Named(of), FlatMap(Replies, h), Replies(e));
    FlatMapNone(Named(of));
  }

  lemma LastReportedSnoc<T>(of: SseEvent -> Option<T>, h: seq<Entry>, e: Entry, start: real, sid: string)
    requires Belongs(e, start, sid)
    ensures LastReported(of, h + [e], start, sid) ==
            var prev := LastReported(of, h, start, sid);
            if e.direction == 3 then LastIn(of, e.events, prev) else prev
  {
    hide Belongs, LastIn;
    assert (h + [e])[..|h|] == h;
  }

  lemma {:induction false} ReportedLast<T>(of: SseEvent -> Option<T>, h: seq<Entry>, start: real, sid: string)
    requires forall e <- h :: Belongs(e, start, sid)
    ensures LastReported(of, h, start, sid) == LastOf(Reports(of, h))
  {
    if h == [] {
    } else {
      hide Belongs, LastIn, FlatMap, Reports, LastReported;
      var before, e := h[..|h| - 1], h[|h| - 1];
      assert h == before + [e] && e in h;
      ReportedLast(of, before, start, sid);
      ReportsSnoc(of, before, e);
      LastReportedSnoc(of, before, e, start, sid);
      LastInReports(of, e.events, LastReported(of, before, start, sid));
    }
  }

  /** The requests of a session are those in its history. */
  lemma {:induction false} RequestsMeaning(h: seq<Entry>, start: real, sid: string)
    requires h != [] && forall e <- h :: Belongs(e, start, sid)
    ensures SessionOf(h, start, sid).Some? && SessionOf(h, start, sid).value.requests == |FlatMap(RequestIn, h)|
  {
    hide After, Belongs, Relevant, SessionOf;
    var before, e := h[..|h| - 1], h[|h| - 1];
    assert h == before + [e] && e in h;
    BelongsMeans(e, start, sid);
    SessionOfSnoc(before, e, start, sid);
    AfterRequests(SessionOf(before, start, sid), e);
    FlatMapSnoc(RequestIn, before, e);
    if before == [] {
      NothingHappened(start, sid);
    } else {
      RequestsMeaning(before, start, sid);
    }
  }

  lemma BackendMeaning(h: seq<Entry>, start: real, sid: string)
    requires h != [] && forall e <- h :: Belongs(e, start, sid)
    ensures FirstBackend(h, start, sid) == h[0].backend
  {
    assert h[0] in h;
  }

  // ---- Estimates ----

  /** A count is estimated from requests, or from replies without events, at four bytes a token. */
  function EstimateFrom(c: Count): Entry -> seq<int> {
    (e: Entry) =>
      if (c.Prompt? && e.direction == 2) || (c.Completion? && e.direction == 3 && e.events == [])
      then [e.dataLength / 4]
      else []
  }

  function FirstNonZero(xs: seq<int>): int {
    if xs == [] then 0 else if xs[0] != 0 then xs[0] else FirstNonZero(xs[1..])
  }

  predicate ReportsCount(c: Count, e: Entry) {
    Reports(Reporting(c), [e]) != []
  }

  /** `since` is what came after the last report of the count. */
  predicate IsSince(c: Count, h: seq<Entry>, before: seq<Entry>, since: seq<Entry>) {
    && h == before + since
    && (before == [] || ReportsCount(c, before[|before| - 1]))
    && forall e <- since :: !ReportsCount(c, e)
  }

  lemma EntryReports(c: Count, e: Entry)
    ensures EntryReport(c, e).Some? <==> ReportsCount(c, e)
  {
    hide Reporting;
    LastInReports(Reporting(c), e.events, None);
    FlatMapOne(Replies, e);
  }

  lemma {:induction false} FirstNonZeroSnoc(xs: seq<int>, x: int)
    ensures FirstNonZero(xs + [x]) == if FirstNonZero(xs) != 0 then FirstNonZero(xs) else x
  {
    if xs == [] {
      assert xs + [x] == [x] && [x][1..] == [];
    } else {
      assert (xs + [x])[1..] == xs[1..] + [x];
      FirstNonZeroSnoc(xs[1..], x);
    }
  }

  lemma NoEstimateYet(c: Count, start: real, sid: string)
    ensures Estimate(c, [], start, sid) == 0
  {
  }

  lemma EstimateSnoc(c: Count, h: seq<Entry>, e: Entry, start: real, sid: string)
    requires Belongs(e, start, sid)
    ensures Estimate(c, h + [e], start, sid) ==
            var prev := Estimate(c, h, start, sid);
            if ReportsCount(c, e) then 0
            else if EstimateFrom(c)(e) != [] && prev == 0 then e.dataLength / 4
            else prev
  {
    hide Belongs, ReportsCount;
    EntryReports(c, e);
    assert (h + [e])[..|h|] == h;
  }

  lemma EstimateShape(c: Count, e: Entry)
    ensures EstimateFrom(c)(e) == [] || EstimateFrom(c)(e) == [e.dataLength / 4]
  {
  }

  lemma {:induction false} EstimateMeaning(c: Count, h: seq<Entry>, before: seq<Entry>, since: seq<Entry>,
                                           start: real, sid: string)
    requires IsSince(c, h, before, since) && forall e <- h :: Belongs(e, start, sid)
    ensures Estimate(c, h, start, sid) == FirstNonZero(FlatMap(EstimateFrom(c), since))
    decreases |since|
  {
    hide Belongs, ReportsCount, Estimate, EstimateFrom;
    if since == [] {
      if before == [] {
        NoEstimateYet(c, start, sid);
      } else {
        assert h == before && before[|before| - 1] in h;
        EstimateSnoc(c, h[..|h| - 1], h[|h| - 1], start, sid);
        assert h == h[..|h| - 1] + [h[|h| - 1]];
      }
    } else {
      var init, e := since[..|since| - 1], since[|since| - 1];
      var prior := before + init;
      assert since == init + [e] && h == prior + [e] && e in since && e in h;
      EstimateMeaning(c, prior, before, init, start, sid);
      EstimateSnoc(c, prior, e, start, sid);
      FlatMapSnoc(EstimateFrom(c), init, e);
      EstimateShape(c, e);
      var so := FlatMap(EstimateFrom(c), init);
      FirstNonZeroSnoc(so, e.dataLength / 4);
      assert so + [] == so;
    }
  }

  // ---- Sessions ----

  /** The count a history leads to: what was reported last if it is not 0, else the first estimate since. */
  function Settled(c: Count, h: seq<Entry>, since: seq<Entry>): int {
    match LastOf(Reports(Reporting(c), h))
    case Some(r) => if r != 0 then r else FirstNonZero(FlatMap(EstimateFrom(c), since))
    case None => FirstNonZero(FlatMap(EstimateFrom(c), since))
  }

  function OrElse(name: Option<string>): string {
    match name case Some(s) => s case None => "unknown"
  }

  lemma CountMeaning(c: Count, es: seq<Entry>, start: real, sid: string, before: seq<Entry>, since: seq<Entry>)
    requires History(es, start, sid) != [] && IsSince(c, History(es, start, sid), before, since)
    ensures SessionOf(es, start, sid).Some?
    ensures CountOf(c, SessionOf(es, start, sid).value) == Settled(c, History(es, start, sid), since)
  {
    hide SessionOf, Belongs, IsSince, History, Estimate, LastReported, Reports, EstimateFrom, CountOf;
    var h := History(es, start, sid);
    OwnHistory(es, start, sid);
    CountSettles(c, h, start, sid);
    ReportedLast(Reporting(c), h, start, sid);
    EstimateMeaning(c, h, before, since, start, sid);
  }

  /**
   All of a session, from its history: the backend of its first entry, the model
   reported last, its requests, and the two counts.
   */
  lemma SessionMeaning(es: seq<Entry>, start: real, sid: string,
                       beforeP: seq<Entry>, sinceP: seq<Entry>, beforeC: seq<Entry>, sinceC: seq<Entry>)
    requires History(es, start, sid) != []
    requires IsSince(Prompt, History(es, start, sid), beforeP, sinceP)
    requires IsSince(Completion, History(es, start, sid), beforeC, sinceC)
    ensures var h := History(es, start, sid);
            SessionOf(es, start, sid) ==
            Some(Session(OrElse(h[0].backend), OrElse(LastOf(Reports(ModelIn, h))),
                         Settled(Prompt, h, sinceP), Settled(Completion, h, sinceC), |FlatMap(RequestIn, h)|))
  {
    hide SessionOf, Belongs, IsSince, History, Settled, FirstBackend, LastReported, Reports, RequestIn;
    var h := History(es, start, sid);
    OwnHistory(es, start, sid);
    CountMeaning(Prompt, es, start, sid, beforeP, sinceP);
    CountMeaning(Completion, es, start, sid, beforeC, sinceC);
    RequestsMeaning(h, start, sid);
    SessionIdentity(h, start, sid);
    BackendMeaning(h, start, sid);
    ReportedLast(ModelIn, h, start, sid);
  }

  lemma {:induction false} SinceExists(c: Count, h: seq<Entry>) returns (before: seq<Entry>, since: seq<Entry>)
    ensures IsSince(c, h, before, since)
  {
    hide ReportsCount;
    if h == [] || ReportsCount(c, h[|h| - 1]) {
      before, since := h, [];
    } else {
      before, since := SinceExists(c, h[..|h| - 1]);
      since := since + [h[|h| - 1]];
      assert h == h[..|h| - 1] + [h[|h| - 1]];
    }
  }

  /** A session is reported, once, exactly if its history holds a request. */
  lemma CountedMeaning(es: seq<Entry>, start: real, sid: string)
    ensures var h := History(es, start, sid);
            if FlatMap(RequestIn, h) == [] then Counted(es, start)(sid) == []
            else SessionOf(es, start, sid).Some? && Counted(es, start)(sid) == [SessionOf(es, start, sid).value]
  {
    hide SessionOf, Belongs, History, RequestIn;
    var h := History(es, start, sid);
    OwnHistory(es, start, sid);
    if h == [] {
      FlatMapNone(RequestIn);
    } else {
      RequestsMeaning(h, start, sid);
    }
  }

  // ---- Sums ----

  function SumBy(f: Session -> int, ss: seq<Session>): int {
    if ss == [] then 0 else SumBy(f, ss[..|ss| - 1]) + f(ss[|ss| - 1])
  }

  /** A figure of the sessions of one backend and model. */
  function Within(backend: string, model: string, f: Session -> int): Session -> int {
    (s: Session) => if s.backend == backend && s.model == model then f(s) else 0
  }

  lemma FigureWithin(backend: string, model: string, f: Session -> int, s: Session)
    ensures Within(backend, model, f)(s) == if (s.backend, s.model) == (backend, model) then f(s) else 0
  {
  }

  function RequestFigure(s: Session): int {
    s.requests
  }

  function PromptFigure(s: Session): int {
    s.prompt
  }

  function CompletionFigure(s: Session): int {
    s.completion
  }

  /** The three columns are summed separately. */
  lemma {:induction false} SumMeaning(ss: seq<Session>)
    ensures Sum(ss) == Amount(SumBy(RequestFigure, ss), SumBy(PromptFigure, ss), SumBy(CompletionFigure, ss))
  {
    if ss == [] {
    } else {
      var init, last := ss[..|ss| - 1], ss[|ss| - 1];
      assert ss == init + [last];
      SumMeaning(init);
      SumAppend(init, [last]);
      SumOne(last);
    }
  }

  /** A row sums those of its backend and model. */
  lemma {:induction false} RowMeaning(ss: seq<Session>, backend: string, model: string)
    ensures SumFor(ss, (backend, model)) ==
            Amount(SumBy(Within(backend, model, RequestFigure), ss), SumBy(Within(backend, model, PromptFigure), ss),
                   SumBy(Within(backend, model, CompletionFigure), ss))
  {
    if ss == [] {
    } else {
      var init, last := ss[..|ss| - 1], ss[|ss| - 1];
      assert ss == init + [last];
      RowMeaning(init, backend, model);
      SumForSnoc(init, last, (backend, model));
      FigureWithin(backend, model, RequestFigure, last);
      FigureWithin(backend, model, PromptFigure, last);
      FigureWithin(backend, model, CompletionFigure, last);
    }
  }

  /** A request entry of some session. */
  function CountedRequest(start: real): Entry -> seq<Entry> {
    (e: Entry) => if e.direction == 2 && e.sid.Some? && IsOf(e, start, e.sid.value) then [e] else []
  }

  lemma RelevantIsOf(e: Entry, start: real)
    ensures Relevant(e, start) <==> e.sid.Some? && IsOf(e, start, e.sid.value)
  {
  }

  /** Every entry is counted that is a request of some session. */
  lemma {:induction false} CountRequestsMeaning(es: seq<Entry>, start: real)
    ensures CountRequests(es, start) == |FlatMap(CountedRequest(start), es)|
  {
    hide Relevant, IsOf;
    if es == [] {
    } else {
      var init, e := es[..|es| - 1], es[|es| - 1];
      assert es == init + [e];
      CountRequestsMeaning(init, start);
      FlatMapSnoc(CountedRequest(start), init, e);
      RelevantIsOf(e, start);
    }
  }
}
