/**
 The wire-capture fallback of the usage report: entries of each capture file are
 grouped by session, sessions by backend and model, and the rows are totalled.
 Dictionaries are a map and the order in which their keys were inserted.
 */
module UsageReport {
  import opened Sequences
  import opened Text

  // ---- Entries and sessions ----

  datatype Usage = Usage(promptTokens: Option<int>, completionTokens: Option<int>)

  datatype SseEvent = SseEvent(model: Option<string>, usage: Option<Usage>)

  /** A capture entry; `events` is what the SSE parser finds in its data. */
  datatype Entry = Entry(
    ts: real, sid: Option<string>, backend: Option<string>, direction: int, dataLength: nat, events: seq<SseEvent>)

  const PROXY_TO_BACKEND := 2

  const BACKEND_TO_PROXY := 3

  datatype Session = Session(backend: string, model: string, prompt: int, completion: int, requests: nat)

  /** At or after the start time, and with a session id. */
  predicate Relevant(e: Entry, start: real) {
    start <= e.ts && Truthy(e.sid)
  }

  predicate IsRequest(e: Entry, start: real) {
    Relevant(e, start) && e.direction == PROXY_TO_BACKEND
  }

  function NewSession(e: Entry): Session {
    Session(if e.backend.Some? then e.backend.value else "unknown", "unknown", 0, 0, 0)
  }

  function ApplyEvent(s: Session, ev: SseEvent): Session {
    var named := if ev.model.Some? then s.(model := ev.model.value) else s;
    if ev.usage.None? then named
    else
      var p, c := ev.usage.value.promptTokens, ev.usage.value.completionTokens;
      named.(prompt := if p.Some? then p.value else named.prompt,
             completion := if c.Some? then c.value else named.completion)
  }

  function ApplyEvents(s: Session, evs: seq<SseEvent>): Session
    decreases |evs|
  {
    if evs == [] then s else ApplyEvents(ApplyEvent(s, evs[0]), evs[1..])
  }

  function ApplyEntry(s: Session, e: Entry): Session {
    if e.direction == PROXY_TO_BACKEND then
      s.(requests := s.requests + 1, prompt := if s.prompt == 0 then e.dataLength / 4 else s.prompt)
    else if e.direction == BACKEND_TO_PROXY then
      var t := ApplyEvents(s, e.events);
      if e.events == [] && t.completion == 0 then t.(completion := e.dataLength / 4) else t
    else s
  }

  function After(prev: Option<Session>, e: Entry): Session {
    ApplyEntry(if prev.Some? then prev.value else NewSession(e), e)
  }

  /** The state of one session after the entries of a file, from its own entries alone. */
  function SessionOf(es: seq<Entry>, start: real, sid: string): Option<Session> {
    if es == [] then None
    else
      var prev, e := SessionOf(es[..|es| - 1], start, sid), es[|es| - 1];
      if Relevant(e, start) && e.sid.value == sid then Some(After(prev, e)) else prev
  }

  /** The session ids of a file in the order they appear. */
  function Sids(es: seq<Entry>, start: real): seq<string> {
    if es == [] then []
    else
      var prev, e := Sids(es[..|es| - 1], start), es[|es| - 1];
      if Relevant(e, start) && e.sid.value !in prev then prev + [e.sid.value] else prev
  }

  lemma SessionOfSnoc(es: seq<Entry>, e: Entry, start: real, sid: string)
    ensures SessionOf(es + [e], start, sid) ==
            if Relevant(e, start) && e.sid.value == sid then Some(After(SessionOf(es, start, sid), e))
            else SessionOf(es, start, sid)
  {
    assert (es + [e])[..|es|] == es;
  }

  lemma SidsSnoc(es: seq<Entry>, e: Entry, start: real)
    ensures Sids(es + [e], start) ==
            if Relevant(e, start) && e.sid.value !in Sids(es, start) then Sids(es, start) + [e.sid.value]
            else Sids(es, start)
  {
    assert (es + [e])[..|es|] == es;
  }

  lemma {:induction false} SidsMeaning(es: seq<Entry>, start: real)
    ensures Distinct(Sids(es, start))
    ensures forall sid :: sid in Sids(es, start) <==> SessionOf(es, start, sid).Some?
  {
    hide Relevant, After;
    if es == [] {
    } else {
      SidsMeaning(es[..|es| - 1], start);
    }
  }

  // ---- Requests are conserved ----

  function Requests(s: Option<Session>): nat {
    if s.Some? then s.value.requests else 0
  }

  function RequestsOf(es: seq<Entry>, start: real, sids: seq<string>): nat {
    if sids == [] then 0 else Requests(SessionOf(es, start, sids[0])) + RequestsOf(es, start, sids[1..])
  }

  function CountRequests(es: seq<Entry>, start: real): nat {
    if es == [] then 0
    else CountRequests(es[..|es| - 1], start) + if IsRequest(es[|es| - 1], start) then 1 else 0
  }

  lemma {:induction false} EventsKeepRequests(s: Session, evs: seq<SseEvent>)
    ensures ApplyEvents(s, evs).requests == s.requests
    decreases |evs|
  {
    if evs == [] {
    } else {
      EventsKeepRequests(ApplyEvent(s, evs[0]), evs[1..]);
    }
  }

  lemma AfterRequests(prev: Option<Session>, e: Entry)
    ensures After(prev, e).requests == Requests(prev) + if e.direction == PROXY_TO_BACKEND then 1 else 0
  {
    hide ApplyEvents;
    EventsKeepRequests(if prev.Some? then prev.value else NewSession(e), e.events);
  }

  lemma {:induction false} RequestsOfSnoc(es: seq<Entry>, e: Entry, start: real, sids: seq<string>)
    requires Distinct(sids)
    ensures RequestsOf(es + [e], start, sids) ==
            RequestsOf(es, start, sids) + if IsRequest(e, start) && e.sid.value in sids then 1 else 0
    decreases |sids|
  {
    hide SessionOf, After;
    if sids == [] {
    } else {
      assert sids[0] !in sids[1..];
      RequestsOfSnoc(es, e, start, sids[1..]);
      SessionOfSnoc(es, e, start, sids[0]);
      AfterRequests(SessionOf(es, start, sids[0]), e);
    }
  }

  lemma {:induction false} RequestsOfAppend(es: seq<Entry>, start: real, a: seq<string>, b: seq<string>)
    ensures RequestsOf(es, start, a + b) == RequestsOf(es, start, a) + RequestsOf(es, start, b)
    decreases |a|
  {
    hide SessionOf, Requests;
    if a == [] {
      assert a + b == b;
    } else {
      assert (a + b)[1..] == a[1..] + b;
      RequestsOfAppend(es, start, a[1..], b);
    }
  }

  lemma NoRequests(es: seq<Entry>, start: real)
    ensures RequestsOf(es, start, []) == 0
  {
  }

  lemma NewSidHasNone(es: seq<Entry>, start: real, sid: string)
    requires SessionOf(es, start, sid).None?
    ensures RequestsOf(es, start, [sid]) == 0
  {
    assert [sid][1..] == [];
  }

  /** Every relevant request entry is counted in exactly one session of its file. */
  lemma {:induction false} RequestsConserved(es: seq<Entry>, start: real)
    ensures RequestsOf(es, start, Sids(es, start)) == CountRequests(es, start)
  {
    hide SessionOf, RequestsOf;
    if es == [] {
      NoRequests(es, start);
    } else {
      var before, e := es[..|es| - 1], es[|es| - 1];
      assert es == before + [e];
      var sids := Sids(before, start);
      RequestsConserved(before, start);
      SidsMeaning(before, start);
      SidsSnoc(before, e, start);
      RequestsOfSnoc(before, e, start, sids);
      if Relevant(e, start) && e.sid.value !in sids {
        RequestsOfAppend(es, start, sids, [e.sid.value]);
        RequestsOfSnoc(before, e, start, [e.sid.value]);
        NewSidHasNone(before, start, e.sid.value);
      }
    }
  }

  // ---- Reported usage and estimates ----

  /** The two token counts of a session. */
  datatype Count = Prompt | Completion

  function CountOf(c: Count, s: Session): int {
    match c
    case Prompt => s.prompt
    case Completion => s.completion
  }

  /** The counts an event reports. */
  function PromptIn(ev: SseEvent): Option<int> {
    if ev.usage.Some? then ev.usage.value.promptTokens else None
  }

  function CompletionIn(ev: SseEvent): Option<int> {
    if ev.usage.Some? then ev.usage.value.completionTokens else None
  }

  function Reporting(c: Count): SseEvent -> Option<int> {
    match c
    case Prompt => PromptIn
    case Completion => CompletionIn
  }

  /** What the events report last, or what was known before. */
  function LastIn<T>(of: SseEvent -> Option<T>, evs: seq<SseEvent>, before: Option<T>): Option<T>
    decreases |evs|
  {
    if evs == [] then before else LastIn(of, evs[1..], if of(evs[0]).Some? then of(evs[0]) else before)
  }

  predicate Belongs(e: Entry, start: real, sid: string) {
    Relevant(e, start) && e.sid.value == sid
  }

  /** What the backend reported last in a session. */
  function LastReported<T>(of: SseEvent -> Option<T>, es: seq<Entry>, start: real, sid: string): Option<T> {
    if es == [] then None
    else
      var prev, e := LastReported(of, es[..|es| - 1], start, sid), es[|es| - 1];
      if Belongs(e, start, sid) && e.direction == BACKEND_TO_PROXY then LastIn(of, e.events, prev) else prev
  }

  /** What one entry reports of a count. */
  function EntryReport(c: Count, e: Entry): Option<int> {
    if e.direction == BACKEND_TO_PROXY then LastIn(Reporting(c), e.events, None) else None
  }

  /** The entries a count is estimated from: requests, and replies without events. */
  predicate Estimates(c: Count, e: Entry) {
    match c
    case Prompt => e.direction == PROXY_TO_BACKEND
    case Completion => e.direction == BACKEND_TO_PROXY && e.events == []
  }

  /** The first estimate that is not 0 since the last report of a count, else 0. */
  function Estimate(c: Count, es: seq<Entry>, start: real, sid: string): nat {
    if es == [] then 0
    else
      var prev, e := Estimate(c, es[..|es| - 1], start, sid), es[|es| - 1];
      if !Belongs(e, start, sid) then prev
      else if EntryReport(c, e).Some? then 0
      else if Estimates(c, e) && prev == 0 then e.dataLength / 4
      else prev
  }

  /** Since the last report of a count, every entry it is estimated from has less than 4 bytes. */
  predicate QuietSince(c: Count, es: seq<Entry>, start: real, sid: string) {
    if es == [] then true
    else
      var e := es[|es| - 1];
      if Belongs(e, start, sid) && EntryReport(c, e).Some? then true
      else
        && (Belongs(e, start, sid) && Estimates(c, e) ==> e.dataLength < 4)
        && QuietSince(c, es[..|es| - 1], start, sid)
  }

  lemma {:induction false} QuietMeansNoEstimate(c: Count, es: seq<Entry>, start: real, sid: string)
    ensures Estimate(c, es, start, sid) == 0 <==> QuietSince(c, es, start, sid)
  {
    hide Belongs, EntryReport, Estimates;
    if es == [] {
    } else {
      QuietMeansNoEstimate(c, es[..|es| - 1], start, sid);
    }
  }

  lemma {:induction false} LastInBefore<T>(of: SseEvent -> Option<T>, evs: seq<SseEvent>, before: Option<T>)
    ensures var last := LastIn(of, evs, None);
            LastIn(of, evs, before) == if last.Some? then last else before
    decreases |evs|
  {
    if evs == [] {
    } else {
      LastInBefore(of, evs[1..], if of(evs[0]).Some? then of(evs[0]) else before);
      LastInBefore(of, evs[1..], of(evs[0]));
    }
  }

  lemma {:induction false} EventsCount(c: Count, s: Session, evs: seq<SseEvent>)
    ensures var last := LastIn(Reporting(c), evs, None);
            CountOf(c, ApplyEvents(s, evs)) == if last.Some? then last.value else CountOf(c, s)
    decreases |evs|
  {
    if evs == [] {
    } else {
      EventsCount(c, ApplyEvent(s, evs[0]), evs[1..]);
      LastInBefore(Reporting(c), evs[1..], Reporting(c)(evs[0]));
    }
  }

  /** One entry: a report sets the count, an estimate only a count that is 0. */
  lemma EntryCount(c: Count, s: Session, e: Entry)
    ensures CountOf(c, ApplyEntry(s, e)) ==
            if EntryReport(c, e).Some? then EntryReport(c, e).value
            else if Estimates(c, e) && CountOf(c, s) == 0 then e.dataLength / 4
            else CountOf(c, s)
  {
    hide ApplyEvents, Reporting;
    EventsCount(c, s, e.events);
  }

  lemma ReportSnoc(c: Count, es: seq<Entry>, e: Entry, start: real, sid: string)
    ensures LastReported(Reporting(c), es + [e], start, sid) ==
            if Belongs(e, start, sid) && EntryReport(c, e).Some? then EntryReport(c, e)
            else LastReported(Reporting(c), es, start, sid)
  {
    hide Belongs, Reporting;
    assert (es + [e])[..|es|] == es;
    LastInBefore(Reporting(c), e.events, LastReported(Reporting(c), es, start, sid));
  }

  lemma {:induction false} NoSessionNoReport<T>(of: SseEvent -> Option<T>, es: seq<Entry>, start: real, sid: string)
    requires SessionOf(es, start, sid).None?
    ensures LastReported(of, es, start, sid) == None
  {
    hide After;
    if es == [] {
    } else {
      NoSessionNoReport(of, es[..|es| - 1], start, sid);
    }
  }

  lemma {:induction false} NoSessionNoEstimate(c: Count, es: seq<Entry>, start: real, sid: string)
    requires SessionOf(es, start, sid).None?
    ensures Estimate(c, es, start, sid) == 0
  {
    hide After, EntryReport, Estimates;
    if es == [] {
    } else {
      NoSessionNoEstimate(c, es[..|es| - 1], start, sid);
    }
  }

  /** The exact final count: the last report unless it is absent or 0, else the first estimate since. */
  lemma {:induction false} CountSettles(c: Count, es: seq<Entry>, start: real, sid: string)
    requires SessionOf(es, start, sid).Some?
    ensures var reported := LastReported(Reporting(c), es, start, sid);
            CountOf(c, SessionOf(es, start, sid).value) ==
            if reported.Some? && reported.value != 0 then reported.value else Estimate(c, es, start, sid)
  {
    hide ApplyEntry, EntryReport, Estimates, Reporting, LastReported;
    var before, e := es[..|es| - 1], es[|es| - 1];
    var prev := SessionOf(before, start, sid);
    assert es == before + [e];
    ReportSnoc(c, before, e, start, sid);
    if prev.Some? {
      CountSettles(c, before, start, sid);
    } else {
      NoSessionNoReport(Reporting(c), before, start, sid);
      NoSessionNoEstimate(c, before, start, sid);
    }
    EntryCount(c, if prev.Some? then prev.value else NewSession(e), e);
  }

  /**
   A session ends with the count the backend reported last if and only if that
   is not 0 or nothing big enough to be estimated from came after it.
   */
  lemma ReportedUsageWins(c: Count, es: seq<Entry>, start: real, sid: string)
    requires LastReported(Reporting(c), es, start, sid).Some?
    ensures SessionOf(es, start, sid).Some?
    ensures var reported := LastReported(Reporting(c), es, start, sid).value;
            CountOf(c, SessionOf(es, start, sid).value) == reported <==>
            reported != 0 || QuietSince(c, es, start, sid)
  {
    hide LastReported, SessionOf, Estimate, QuietSince;
    if SessionOf(es, start, sid).None? {
      NoSessionNoReport(Reporting(c), es, start, sid);
    }
    CountSettles(c, es, start, sid);
    QuietMeansNoEstimate(c, es, start, sid);
  }

  /** A history on which it fails: a reported 0, then a request of 4 bytes or more. */
  lemma ReportedZeroIsEstimated(c: Count, reply: Entry, later: Entry, start: real, sid: string)
    requires Belongs(reply, start, sid) && EntryReport(c, reply) == Some(0)
    requires Belongs(later, start, sid) && Estimates(c, later) && EntryReport(c, later).None? && later.dataLength >= 4
    ensures LastReported(Reporting(c), [reply, later], start, sid) == Some(0)
    ensures SessionOf([reply, later], start, sid).Some?
    ensures CountOf(c, SessionOf([reply, later], start, sid).value) != 0
  {
    hide LastReported, EntryReport, Estimates, Reporting, SessionOf;
    assert [reply, later] == [] + [reply] + [later];
    ReportSnoc(c, [], reply, start, sid);
    ReportSnoc(c, [] + [reply], later, start, sid);
    ReportedUsageWins(c, [reply, later], start, sid);
    assert [reply, later][..1] == [reply];
    assert !QuietSince(c, [reply, later], start, sid);
  }

  function ModelIn(ev: SseEvent): Option<string> {
    ev.model
  }

  /** The backend named by the first relevant entry of a session. */
  function FirstBackend(es: seq<Entry>, start: real, sid: string): Option<string> {
    if es == [] then None
    else if Relevant(es[0], start) && es[0].sid.value == sid then es[0].backend
    else FirstBackend(es[1..], start, sid)
  }

  function OrUnknown(name: Option<string>): string {
    if name.Some? then name.value else "unknown"
  }

  lemma {:induction false} EventsModel(s: Session, evs: seq<SseEvent>, before: Option<string>)
    requires s.model == OrUnknown(before)
    ensures ApplyEvents(s, evs).model == OrUnknown(LastIn(ModelIn, evs, before))
    ensures ApplyEvents(s, evs).backend == s.backend
    decreases |evs|
  {
    if evs == [] {
    } else {
      EventsModel(ApplyEvent(s, evs[0]), evs[1..], if evs[0].model.Some? then evs[0].model else before);
    }
  }

  lemma NoSession(start: real, sid: string)
    ensures SessionOf([], start, sid).None?
  {
  }

  /** A session exists if the first entry or a later one belongs to it. */
  lemma {:induction false} SessionFromTail(es: seq<Entry>, start: real, sid: string)
    requires es != []
    ensures SessionOf(es, start, sid).Some? <==>
            (Relevant(es[0], start) && es[0].sid.value == sid) || SessionOf(es[1..], start, sid).Some?
  {
    hide Relevant, After, SessionOf;
    var before, last := es[..|es| - 1], es[|es| - 1];
    assert es == before + [last];
    SessionOfSnoc(before, last, start, sid);
    if |es| == 1 {
      assert before == [] && es[1..] == [];
      NoSession(start, sid);
    } else {
      SessionFromTail(before, start, sid);
      assert es[1..] == before[1..] + [last];
      SessionOfSnoc(before[1..], last, start, sid);
    }
  }

  lemma {:induction false} FirstBackendSnoc(es: seq<Entry>, e: Entry, start: real, sid: string)
    ensures FirstBackend(es + [e], start, sid) ==
            if SessionOf(es, start, sid).None? && Relevant(e, start) && e.sid.value == sid then e.backend
            else FirstBackend(es, start, sid)
    decreases |es|
  {
    hide Relevant, After;
    if es == [] {
      assert es + [e] == [e] && [e][1..] == [];
    } else {
      assert (es + [e])[1..] == es[1..] + [e];
      FirstBackendSnoc(es[1..], e, start, sid);
      SessionFromTail(es, start, sid);
    }
  }

  /** A session goes by the backend of its first entry and the model the backend reported last. */
  lemma {:induction false} SessionIdentity(es: seq<Entry>, start: real, sid: string)
    requires SessionOf(es, start, sid).Some?
    ensures SessionOf(es, start, sid).value.backend == OrUnknown(FirstBackend(es, start, sid))
    ensures SessionOf(es, start, sid).value.model == OrUnknown(LastReported(ModelIn, es, start, sid))
  {
    hide ApplyEvents, Relevant;
    var before, e := es[..|es| - 1], es[|es| - 1];
    assert es == before + [e];
    FirstBackendSnoc(before, e, start, sid);
    var prev := SessionOf(before, start, sid);
    var model := LastReported(ModelIn, before, start, sid);
    if prev.Some? {
      SessionIdentity(before, start, sid);
    } else {
      NoSessionNoReport(ModelIn, before, start, sid);
    }
    EventsModel(if prev.Some? then prev.value else NewSession(e), e.events, model);
  }

  // ---- The sessions that are reported ----

  function Counted(es: seq<Entry>, start: real): string -> seq<Session> {
    (sid: string) =>
      var s := SessionOf(es, start, sid);
      if s.Some? && s.value.requests != 0 then [s.value] else []
  }

  /** The final sessions of a file that have at least one request. */
  function FileSessions(es: seq<Entry>, start: real): seq<Session> {
    FlatMap(Counted(es, start), Sids(es, start))
  }

  /** A file that cannot be read contributes nothing. */
  datatype Capture = Unreadable | Readable(entries: seq<Entry>)

  function CaptureSessions(start: real): Capture -> seq<Session> {
    (c: Capture) => if c.Readable? then FileSessions(c.entries, start) else []
  }

  function AllSessions(files: seq<Capture>, start: real): seq<Session> {
    FlatMap(CaptureSessions(start), files)
  }

  /** The number of relevant request entries of all readable files. */
  function TotalRequests(files: seq<Capture>, start: real): nat {
    if files == [] then 0
    else (if files[0].Readable? then CountRequests(files[0].entries, start) else 0) + TotalRequests(files[1..], start)
  }

  datatype Amount = Amount(requests: int, prompt: int, completion: int)

  const ZERO := Amount(0, 0, 0)

  function Plus(a: Amount, b: Amount): Amount {
    Amount(a.requests + b.requests, a.prompt + b.prompt, a.completion + b.completion)
  }

  function AmountOf(s: Session): Amount {
    Amount(s.requests, s.prompt, s.completion)
  }

  function Sum(ss: seq<Session>): Amount {
    if ss == [] then ZERO else Plus(AmountOf(ss[0]), Sum(ss[1..]))
  }

  lemma {:induction false} SumAppend(a: seq<Session>, b: seq<Session>)
    ensures Sum(a + b) == Plus(Sum(a), Sum(b))
  {
    if a == [] {
      assert a + b == b;
    } else {
      assert (a + b)[1..] == a[1..] + b;
      SumAppend(a[1..], b);
    }
  }

  lemma CountedOne(es: seq<Entry>, start: real, sid: string)
    ensures Sum(Counted(es, start)(sid)).requests == Requests(SessionOf(es, start, sid))
  {
    hide SessionOf;
    var own := Counted(es, start)(sid);
    assert own != [] ==> own[1..] == [];
  }

  lemma SumNone()
    ensures Sum([]) == ZERO
  {
  }

  lemma {:induction false} CountedRequests(es: seq<Entry>, start: real, sids: seq<string>)
    ensures Sum(FlatMap(Counted(es, start), sids)).requests == RequestsOf(es, start, sids)
    decreases |sids|
  {
    hide SessionOf, Sum, Counted, Requests;
    if sids == [] {
      SumNone();
    } else {
      CountedRequests(es, start, sids[1..]);
      CountedOne(es, start, sids[0]);
      SumAppend(Counted(es, start)(sids[0]), FlatMap(Counted(es, start), sids[1..]));
    }
  }

  lemma CaptureRequestsConserved(c: Capture, start: real)
    ensures Sum(CaptureSessions(start)(c)).requests ==
            if c.Readable? then CountRequests(c.entries, start) else 0
  {
    hide Sids, Counted, RequestsOf, CountRequests, Sum;
    SumNone();
    if c.Readable? {
      CountedRequests(c.entries, start, Sids(c.entries, start));
      RequestsConserved(c.entries, start);
    }
  }

  lemma {:induction false} AllRequestsConserved(files: seq<Capture>, start: real)
    ensures Sum(AllSessions(files, start)).requests == TotalRequests(files, start)
  {
    hide CaptureSessions, Sum, CountRequests;
    if files == [] {
      SumNone();
    } else {
      AllRequestsConserved(files[1..], start);
      SumAppend(CaptureSessions(start)(files[0]), AllSessions(files[1..], start));
      CaptureRequestsConserved(files[0], start);
    }
  }

  // ---- Rows ----

  type RowKey = (string, string)

  function KeyOf(s: Session): RowKey {
    (s.backend, s.model)
  }

  /** The sessions of one backend and model. */
  function SumFor(ss: seq<Session>, key: RowKey): Amount {
    if ss == [] then ZERO
    else Plus(if KeyOf(ss[0]) == key then AmountOf(ss[0]) else ZERO, SumFor(ss[1..], key))
  }

  lemma {:induction false} SumForSnoc(ss: seq<Session>, s: Session, key: RowKey)
    ensures SumFor(ss + [s], key) == Plus(SumFor(ss, key), if KeyOf(s) == key then AmountOf(s) else ZERO)
  {
    if ss == [] {
      assert ss + [s] == [s] && [s][1..] == [];
    } else {
      assert (ss + [s])[1..] == ss[1..] + [s];
      SumForSnoc(ss[1..], s, key);
    }
  }

  function SumRows(order: seq<RowKey>, stats: map<RowKey, Amount>): Amount
    requires forall k <- order :: k in stats
  {
    if order == [] then ZERO else Plus(stats[order[0]], SumRows(order[1..], stats))
  }

  lemma {:induction false} SumRowsAppend(a: seq<RowKey>, b: seq<RowKey>, stats: map<RowKey, Amount>)
    requires forall k <- a + b :: k in stats
    ensures (forall k <- a :: k in stats) && (forall k <- b :: k in stats)
    ensures SumRows(a + b, stats) == Plus(SumRows(a, stats), SumRows(b, stats))
  {
    assert forall k <- a :: k in a + b;
    assert forall k <- b :: k in a + b;
    if a == [] {
      assert a + b == b;
    } else {
      assert (a + b)[1..] == a[1..] + b;
      SumRowsAppend(a[1..], b, stats);
    }
  }

  /** Adding to one row adds to the sum of all. */
  lemma {:induction false} SumRowsUpdate(order: seq<RowKey>, stats: map<RowKey, Amount>, key: RowKey, more: Amount)
    requires Distinct(order) && key in stats && forall k <- order :: k in stats
    ensures SumRows(order, stats[key := Plus(stats[key], more)]) ==
            if key in order then Plus(SumRows(order, stats), more) else SumRows(order, stats)
  {
    if order == [] {
    } else {
      assert order[0] !in order[1..];
      SumRowsUpdate(order[1..], stats, key, more);
    }
  }

  lemma {:induction false} SumRowsAgree(order: seq<RowKey>, a: map<RowKey, Amount>, b: map<RowKey, Amount>)
    requires forall k <- order :: k in a && k in b && a[k] == b[k]
    ensures SumRows(order, a) == SumRows(order, b)
  {
    if order == [] {
    } else {
      SumRowsAgree(order[1..], a, b);
    }
  }

  /** The table after some sessions: one row per key, holding the sum of its sessions. */
  ghost predicate Tabulates(order: seq<RowKey>, stats: map<RowKey, Amount>, ss: seq<Session>) {
    && Distinct(order)
    && (forall k :: k in order <==> k in stats)
    && (forall k <- stats :: stats[k] == SumFor(ss, k))
    && (forall s <- ss :: KeyOf(s) in stats)
    && SumRows(order, stats) == Sum(ss)
  }

  lemma {:induction false} SumForAbsent(ss: seq<Session>, key: RowKey)
    requires forall s <- ss :: KeyOf(s) != key
    ensures SumFor(ss, key) == ZERO
  {
    if ss == [] {
    } else {
      assert ss[0] in ss;
      SumForAbsent(ss[1..], key);
    }
  }

  lemma SumOneRow(key: RowKey, stats: map<RowKey, Amount>)
    requires key in stats
    ensures SumRows([key], stats) == stats[key]
  {
    assert [key][1..] == [];
  }

  /** Inserting a row of zeros where the session's key has none. */
  lemma InsertRow(order: seq<RowKey>, stats: map<RowKey, Amount>, ss: seq<Session>, key: RowKey)
    requires Tabulates(order, stats, ss) && key !in stats
    ensures Tabulates(order + [key], stats[key := ZERO], ss)
  {
    hide SumFor, SumRows, Sum;
    var stats' := stats[key := ZERO];
    SumForAbsent(ss, key);
    SumRowsAppend(order, [key], stats');
    SumRowsAgree(order, stats, stats');
    SumOneRow(key, stats');
  }

  lemma SumOne(s: Session)
    ensures Sum([s]) == AmountOf(s)
  {
    assert [s][1..] == [];
  }

  lemma AddToRow(order: seq<RowKey>, stats: map<RowKey, Amount>, ss: seq<Session>, s: Session)
    requires Tabulates(order, stats, ss) && KeyOf(s) in stats
    ensures Tabulates(order, stats[KeyOf(s) := Plus(stats[KeyOf(s)], AmountOf(s))], ss + [s])
  {
    hide SumFor, SumRows, Sum;
    SumRowsUpdate(order, stats, KeyOf(s), AmountOf(s));
    SumAppend(ss, [s]);
    SumOne(s);
    forall k: RowKey
      ensures SumFor(ss + [s], k) == Plus(SumFor(ss, k), if KeyOf(s) == k then AmountOf(s) else ZERO)
    {
      SumForSnoc(ss, s, k);
    }
  }

  // ---- The loops ----

  /** The event loop over one backend response. */
  method ApplySseEvents(session: Session, events: seq<SseEvent>) returns (s: Session)
    ensures s == ApplyEvents(session, events)
  {
    s := session;
    for i := 0 to |events|
      invariant ApplyEvents(s, events[i..]) == ApplyEvents(session, events)
    {
      assert events[i..][1..] == events[i + 1..];
      var ev := events[i];
      if ev.model.Some? {
        s := s.(model := ev.model.value);
      }
      if ev.usage.Some? {
        if ev.usage.value.promptTokens.Some? {
          s := s.(prompt := ev.usage.value.promptTokens.value);
        }
        if ev.usage.value.completionTokens.Some? {
          s := s.(completion := ev.usage.value.completionTokens.value);
        }
      }
    }
  }

  method UpdateSession(session: Session, e: Entry) returns (s: Session)
    ensures s == ApplyEntry(session, e)
  {
    s := session;
    if e.direction == PROXY_TO_BACKEND {
      s := s.(requests := s.requests + 1);
      if s.prompt == 0 {
        s := s.(prompt := e.dataLength / 4);
      }
    } else if e.direction == BACKEND_TO_PROXY {
      s := ApplySseEvents(s, e.events);
      if e.events == [] && s.completion == 0 {
        s := s.(completion := s.completion + e.dataLength / 4);
      }
    }
  }

  lemma NoSids(es: seq<Entry>, start: real)
    requires es == []
    ensures Sids(es, start) == []
  {
  }

  /** The entry loop of one file. */
  method GroupBySession(entries: seq<Entry>, start: real) returns (order: seq<string>, sessions: map<string, Session>)
    ensures order == Sids(entries, start)
    ensures forall sid :: sid in order <==> sid in sessions
    ensures forall sid <- sessions :: SessionOf(entries, start, sid) == Some(sessions[sid])
  {
    hide Sids, SessionOf, ApplyEntry, NewSession;
    order, sessions := [], map[];
    assert Sids(entries[..0], start) == [] by { NoSids(entries[..0], start); }
    for i := 0 to |entries|
      invariant order == Sids(entries[..i], start)
      invariant forall sid :: sid in order <==> sid in sessions
      invariant forall sid <- sessions :: SessionOf(entries[..i], start, sid) == Some(sessions[sid])
    {
      var e := entries[i];
      assert entries[..i + 1] == entries[..i] + [e];
      SidsSnoc(entries[..i], e, start);
      SidsMeaning(entries[..i], start);
      forall sid: string
        ensures SessionOf(entries[..i + 1], start, sid) ==
                if Relevant(e, start) && e.sid.value == sid then Some(After(SessionOf(entries[..i], start, sid), e))
                else SessionOf(entries[..i], start, sid)
      {
        SessionOfSnoc(entries[..i], e, start, sid);
      }
      if e.ts < start || !Truthy(e.sid) {
        continue;
      }
      var sid := e.sid.value;
      var session := if sid in sessions then sessions[sid] else NewSession(e);
      if sid !in sessions {
        order := order + [sid];
      }
      session := UpdateSession(session, e);
      sessions := sessions[sid := session];
    }
    assert entries[..|entries|] == entries;
  }

  /** Adds the sessions of one file to the table. */
  method Aggregate(entries: seq<Entry>, start: real,
                   order0: seq<RowKey>, stats0: map<RowKey, Amount>, ghost ss: seq<Session>)
    returns (order: seq<RowKey>, stats: map<RowKey, Amount>)
    requires Tabulates(order0, stats0, ss)
    ensures Tabulates(order, stats, ss + FileSessions(entries, start))
  {
    hide Tabulates, SessionOf, Sids;
    order, stats := order0, stats0;
    var sids, sessions := GroupBySession(entries, start);
    ghost var f := Counted(entries, start);
    assert ss + FlatMap(f, sids[..0]) == ss;
    for i := 0 to |sids|
      invariant Tabulates(order, stats, ss + FlatMap(f, sids[..i]))
    {
      var s := sessions[sids[i]];
      assert sids[..i + 1] == sids[..i] + [sids[i]];
      FlatMapSnoc(f, sids[..i], sids[i]);
      ghost var before := ss + FlatMap(f, sids[..i]);
      assert f(sids[i]) == if s.requests != 0 then [s] else [];
      if s.requests == 0 {
        assert ss + FlatMap(f, sids[..i + 1]) == before;
        continue;
      }
      assert ss + FlatMap(f, sids[..i + 1]) == before + [s];
      var key := KeyOf(s);
      if key !in stats {
        InsertRow(order, stats, before, key);
        order, stats := order + [key], stats[key := ZERO];
      }
      AddToRow(order, stats, before, s);
      stats := stats[key := Plus(stats[key], AmountOf(s))];
    }
    assert sids[..|sids|] == sids;
  }

  datatype Row = Row(backend: string, model: string, amount: Amount)

  function RowsOf(order: seq<RowKey>, stats: map<RowKey, Amount>): (rows: seq<Row>)
    requires forall k <- order :: k in stats
    ensures |rows| == |order|
    ensures forall i | 0 <= i < |order| :: rows[i] == Row(order[i].0, order[i].1, stats[order[i]])
  {
    seq(|order|, i requires 0 <= i < |order| => Row(order[i].0, order[i].1, stats[order[i]]))
  }

  function SumOfRows(rows: seq<Row>): Amount {
    if rows == [] then ZERO else Plus(rows[0].amount, SumOfRows(rows[1..]))
  }

  function RowKeys(rows: seq<Row>): seq<RowKey> {
    seq(|rows|, i requires 0 <= i < |rows| => (rows[i].backend, rows[i].model))
  }

  lemma RowKeysAreOrder(order: seq<RowKey>, stats: map<RowKey, Amount>)
    requires forall k <- order :: k in stats
    ensures RowKeys(RowsOf(order, stats)) == order
  {
  }

  lemma {:induction false} RowsSum(order: seq<RowKey>, stats: map<RowKey, Amount>)
    requires forall k <- order :: k in stats
    ensures SumOfRows(RowsOf(order, stats)) == SumRows(order, stats)
  {
    if order == [] {
    } else {
      assert RowsOf(order, stats)[1..] == RowsOf(order[1..], stats);
      RowsSum(order[1..], stats);
    }
  }

  lemma {:induction false} SumOfRowsSnoc(rows: seq<Row>, r: Row)
    ensures SumOfRows(rows + [r]) == Plus(SumOfRows(rows), r.amount)
  {
    if rows == [] {
      assert rows + [r] == [r] && [r][1..] == [];
    } else {
      assert (rows + [r])[1..] == rows[1..] + [r];
      SumOfRowsSnoc(rows[1..], r);
    }
  }

  /** The totals loop of `_print_detailed_table`. */
  method Totals(rows: seq<Row>) returns (total: Amount)
    ensures total == SumOfRows(rows)
  {
    var requests, submitted, received := 0, 0, 0;
    for i := 0 to |rows|
      invariant Amount(requests, submitted, received) == SumOfRows(rows[..i])
    {
      assert rows[..i + 1] == rows[..i] + [rows[i]];
      SumOfRowsSnoc(rows[..i], rows[i]);
      requests := requests + rows[i].amount.requests;
      submitted := submitted + rows[i].amount.prompt;
      received := received + rows[i].amount.completion;
    }
    assert rows[..|rows|] == rows;
    total := Amount(requests, submitted, received);
  }

  lemma TableIsComplete(order: seq<RowKey>, stats: map<RowKey, Amount>, ss: seq<Session>)
    requires Tabulates(order, stats, ss)
    ensures Distinct(order) && forall k <- order :: k in stats
    ensures SumRows(order, stats) == Sum(ss)
  {
  }

  lemma RowsMeanTheirSessions(order: seq<RowKey>, stats: map<RowKey, Amount>, ss: seq<Session>, rows: seq<Row>)
    requires Tabulates(order, stats, ss) && rows == RowsOf(order, stats)
    ensures forall r <- rows :: r.amount == SumFor(ss, (r.backend, r.model))
    ensures forall s <- ss :: exists r <- rows :: (r.backend, r.model) == KeyOf(s)
  {
    forall s <- ss
      ensures exists r <- rows :: (r.backend, r.model) == KeyOf(s)
    {
      assert KeyOf(s) in order;
      var i :| 0 <= i < |order| && order[i] == KeyOf(s);
      assert rows[i] in rows;
    }
  }

  /**
   `_analyze_cbor_captures`: the total requests are the request entries of all
   readable files, the token totals those of the final sessions with a request,
   and every row holds the sessions of its backend and model.
   */
  method AnalyzeCaptures(files: seq<Capture>, start: real) returns (rows: seq<Row>, total: Amount)
    ensures total.requests == TotalRequests(files, start)
    ensures total == Sum(AllSessions(files, start)) == SumOfRows(rows)
    ensures Distinct(RowKeys(rows))
    ensures forall r <- rows :: r.amount == SumFor(AllSessions(files, start), (r.backend, r.model))
    ensures forall s <- AllSessions(files, start) :: exists r <- rows :: (r.backend, r.model) == KeyOf(s)
  {
    var order: seq<RowKey>, stats: map<RowKey, Amount> := [], map[];
    ghost var f := CaptureSessions(start);
    assert FlatMap(f, files[..0]) == [];
    assert Tabulates(order, stats, FlatMap(f, files[..0]));
    hide Tabulates, Sum, SumFor, SumOfRows, SumRows, FlatMap, CaptureSessions, TotalRequests, Distinct, RowKeys, RowsOf;
    for i := 0 to |files|
      invariant Tabulates(order, stats, FlatMap(f, files[..i]))
    {
      assert files[..i + 1] == files[..i] + [files[i]];
      FlatMapSnoc(f, files[..i], files[i]);
      if files[i].Readable? {
        order, stats := Aggregate(files[i].entries, start, order, stats, FlatMap(f, files[..i]));
      } else {
        assert FlatMap(f, files[..i]) + [] == FlatMap(f, files[..i]);
      }
    }
    assert files[..|files|] == files;
    ghost var ss := AllSessions(files, start);
    TableIsComplete(order, stats, ss);
    rows := RowsOf(order, stats);
    RowKeysAreOrder(order, stats);
    RowsSum(order, stats);
    total := Totals(rows);
    AllRequestsConserved(files, start);
    RowsMeanTheirSessions(order, stats, ss, rows);
  }
}
