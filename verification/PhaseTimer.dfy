/**
 Phase timing of a request. Starting a phase ends the one before it, a repeated
 phase overwrites its earlier duration, and unknown phases are timed but not
 recorded. Seconds are real numbers and every clock reading is an input.
 */
module PhaseTimer {
  import opened Text

  datatype Timer = Timer(
    requestStart: real,
    commandProcessing: Option<real>, backendSelection: Option<real>,
    backendCall: Option<real>, responseProcessing: Option<real>,
    total: Option<real>,
    markers: map<string, real>, current: Option<string>)

  function Fresh(start: real): Timer {
    Timer(start, None, None, None, None, None, map[], None)
  }

  function Marker(phase: string): string {
    phase + "_start"
  }

  const COMMAND := "command_processing"

  const SELECTION := "backend_selection"

  const CALL := "backend_call"

  const RESPONSE := "response_processing"

  function Store(t: Timer, phase: string, duration: real): Timer {
    if phase == COMMAND then t.(commandProcessing := Some(duration))
    else if phase == SELECTION then t.(backendSelection := Some(duration))
    else if phase == CALL then t.(backendCall := Some(duration))
    else if phase == RESPONSE then t.(responseProcessing := Some(duration))
    else t
  }

  /** A phase with the empty name counts as no phase. */
  function EndPhase(t: Timer, now: real): Timer {
    if !Truthy(t.current) then t
    else
      var marker := Marker(t.current.value);
      var stored := if marker in t.markers then Store(t, t.current.value, now - t.markers[marker]) else t;
      stored.(current := None)
  }

  function StartPhase(t: Timer, phase: string, ended: real, now: real): Timer {
    var free := EndPhase(t, ended);
    free.(current := Some(phase), markers := free.markers[Marker(phase) := now])
  }

  function Finalize(t: Timer, ended: real, now: real): Timer {
    var free := EndPhase(t, ended);
    free.(total := Some(now - free.requestStart))
  }

  function Recorded(t: Timer, phase: string): Option<real> {
    if phase == COMMAND then t.commandProcessing
    else if phase == SELECTION then t.backendSelection
    else if phase == CALL then t.backendCall
    else if phase == RESPONSE then t.responseProcessing
    else None
  }

  function OrZero(d: Option<real>): real {
    if d.Some? then d.value else 0.0
  }

  /** `accounted_time` */
  function Accounted(t: Timer): real {
    OrZero(t.commandProcessing) + OrZero(t.backendSelection) + OrZero(t.backendCall) + OrZero(t.responseProcessing)
  }

  /** What `log_summary` works out; an overhead that is not positive is left out. */
  datatype Summary = Summary(timer: Timer, overhead: Option<real>)

  function Overhead(total: real, accounted: real): Option<real> {
    if total - accounted > 0.0 then Some(total - accounted) else None
  }

  /** `log_summary` finalises first if there is no total or the total is 0. */
  function Summarize(t: Timer, ended: real, now: real): Summary {
    var final := if t.total.None? || t.total.value == 0.0 then Finalize(t, ended, now) else t;
    Summary(final, Overhead(final.total.value, Accounted(final)))
  }

  // ---- Runs ----

  /** Each call with its clock readings: `ended` is taken before `now`. */
  datatype Op = Start(phase: string, ended: real, now: real) | End(now: real)

  predicate OpTimed(clock: real, op: Op) {
    match op
    case Start(_, ended, now) => clock <= ended <= now
    case End(now) => clock <= now
  }

  predicate Timed(clock: real, ops: seq<Op>)
    decreases |ops|
  {
    ops == [] || (OpTimed(clock, ops[0]) && Timed(ops[0].now, ops[1..]))
  }

  function Apply(t: Timer, op: Op): Timer {
    match op
    case Start(phase, ended, now) => StartPhase(t, phase, ended, now)
    case End(now) => EndPhase(t, now)
  }

  function Run(t: Timer, ops: seq<Op>): Timer
    decreases |ops|
  {
    if ops == [] then t else Run(Apply(t, ops[0]), ops[1..])
  }

  function LastTime(clock: real, ops: seq<Op>): real
    decreases |ops|
  {
    if ops == [] then clock else LastTime(ops[0].now, ops[1..])
  }

  // ---- Nothing is counted twice ----

  predicate NonNegative(d: Option<real>) {
    d.Some? ==> 0.0 <= d.value
  }

  predicate DurationsNonNegative(t: Timer) {
    NonNegative(t.commandProcessing) && NonNegative(t.backendSelection)
    && NonNegative(t.backendCall) && NonNegative(t.responseProcessing)
  }

  /** The moment up to which time has been accounted for: the start of the running phase, or now. */
  function Horizon(t: Timer, clock: real): real {
    if Truthy(t.current) && Marker(t.current.value) in t.markers then t.markers[Marker(t.current.value)] else clock
  }

  /** All recorded time lies between the start of the request and the horizon. */
  predicate Balanced(t: Timer, clock: real) {
    && DurationsNonNegative(t)
    && (Truthy(t.current) ==> Marker(t.current.value) in t.markers)
    && t.requestStart + Accounted(t) <= Horizon(t, clock) <= clock
  }

  lemma StoreBalance(t: Timer, phase: string, duration: real)
    requires DurationsNonNegative(t) && 0.0 <= duration
    ensures DurationsNonNegative(Store(t, phase, duration))
    ensures Accounted(Store(t, phase, duration)) <= Accounted(t) + duration
    ensures Store(t, phase, duration).requestStart == t.requestStart
  {
  }

  lemma EndBalance(t: Timer, clock: real, now: real)
    requires Balanced(t, clock) && clock <= now
    ensures Balanced(EndPhase(t, now), now) && !Truthy(EndPhase(t, now).current)
    ensures EndPhase(t, now).requestStart == t.requestStart
  {
    hide Store, Marker;
    if Truthy(t.current) {
      StoreBalance(t, t.current.value, now - t.markers[Marker(t.current.value)]);
    }
  }

  lemma ApplyBalance(t: Timer, clock: real, op: Op)
    requires Balanced(t, clock) && OpTimed(clock, op)
    ensures Balanced(Apply(t, op), op.now)
  {
    hide EndPhase;
    match op
    case Start(phase, ended, now) => EndBalance(t, clock, ended);
    case End(now) => EndBalance(t, clock, now);
  }

  lemma {:induction false} RunBalance(t: Timer, clock: real, ops: seq<Op>)
    requires Balanced(t, clock) && Timed(clock, ops)
    ensures Balanced(Run(t, ops), LastTime(clock, ops))
    decreases |ops|
  {
    hide Balanced, Apply, OpTimed;
    if ops == [] {
    } else {
      ApplyBalance(t, clock, ops[0]);
      RunBalance(Apply(t, ops[0]), ops[0].now, ops[1..]);
    }
  }

  /**
   After any sequence of calls under a clock that never goes back, when
   `finalize` returns every duration is non-negative and together they are at
   most the total: the overhead is not negative.
   */
  lemma OverheadNotNegative(start: real, ops: seq<Op>, ended: real, now: real)
    requires Timed(start, ops) && LastTime(start, ops) <= ended <= now
    ensures var t := Finalize(Run(Fresh(start), ops), ended, now);
            DurationsNonNegative(t) && t.total.Some? && Accounted(t) <= t.total.value
  {
    hide Run, LastTime, EndPhase;
    RunBalance(Fresh(start), start, ops);
    EndBalance(Run(Fresh(start), ops), LastTime(start, ops), ended);
  }

  // ---- What is recorded ----

  datatype Interval = Interval(phase: string, from: real, to: real)

  /** The completed intervals of a run, given the phase that is running and since when. */
  function Intervals(running: Option<string>, since: real, ops: seq<Op>): seq<Interval>
    decreases |ops|
  {
    if ops == [] then []
    else
      var ended := if ops[0].Start? then ops[0].ended else ops[0].now;
      (if Truthy(running) then [Interval(running.value, since, ended)] else [])
      + Intervals(if ops[0].Start? then Some(ops[0].phase) else None, ops[0].now, ops[1..])
  }

  /** Intervals in order, each after the one before it. */
  predicate Disjoint(from: real, spans: seq<Interval>)
    decreases |spans|
  {
    spans == [] || (from <= spans[0].from <= spans[0].to && Disjoint(spans[0].to, spans[1..]))
  }

  lemma {:induction false} DisjointLater(from: real, later: real, spans: seq<Interval>)
    requires Disjoint(later, spans) && from <= later
    ensures Disjoint(from, spans)
  {
  }

  /** Phases never overlap. */
  lemma {:induction false} IntervalsDisjoint(running: Option<string>, since: real, clock: real, ops: seq<Op>)
    requires since <= clock && Timed(clock, ops)
    ensures Disjoint(since, Intervals(running, since, ops))
    decreases |ops|
  {
    if ops == [] {
    } else {
      var next := if ops[0].Start? then Some(ops[0].phase) else None;
      var ended := if ops[0].Start? then ops[0].ended else ops[0].now;
      IntervalsDisjoint(next, ops[0].now, ops[0].now, ops[1..]);
      var rest := Intervals(next, ops[0].now, ops[1..]);
      DisjointLater(ended, ops[0].now, rest);
      DisjointLater(since, ops[0].now, rest);
      if Truthy(running) {
        var spans := [Interval(running.value, since, ended)] + rest;
        assert spans[1..] == rest;
      } else {
        assert [] + rest == rest;
      }
    }
  }

  /** The length of the last interval of a phase, or what was recorded before. */
  function LastLength(spans: seq<Interval>, phase: string, before: Option<real>): Option<real> {
    if spans == [] then before
    else LastLength(spans[1..], phase, if spans[0].phase == phase then Some(spans[0].to - spans[0].from) else before)
  }

  predicate IsKnown(phase: string) {
    phase == COMMAND || phase == SELECTION || phase == CALL || phase == RESPONSE
  }

  /** The timer's own view of the running phase. */
  predicate Running(t: Timer, since: real) {
    Truthy(t.current) ==> Marker(t.current.value) in t.markers && t.markers[Marker(t.current.value)] == since
  }

  lemma StoreRecords(t: Timer, phase: string, duration: real, p: string)
    requires IsKnown(p)
    ensures Recorded(Store(t, phase, duration), p) == if phase == p then Some(duration) else Recorded(t, p)
  {
  }

  lemma EndRecords(t: Timer, since: real, ended: real, p: string)
    requires IsKnown(p) && Running(t, since)
    ensures Recorded(EndPhase(t, ended), p) ==
            if Truthy(t.current) && t.current.value == p then Some(ended - since) else Recorded(t, p)
    ensures !Truthy(EndPhase(t, ended).current)
  {
    if Truthy(t.current) {
      var stored := Store(t, t.current.value, ended - since);
      StoreRecords(t, t.current.value, ended - since, p);
      assert Recorded(stored.(current := None), p) == Recorded(stored, p);
    }
  }

  lemma ApplyKeepsRecords(t: Timer, op: Op, p: string)
    ensures Recorded(Apply(t, op), p) == Recorded(EndPhase(t, if op.Start? then op.ended else op.now), p)
    ensures Running(Apply(t, op), op.now)
    ensures op.Start? ==> Apply(t, op).current == Some(op.phase)
    ensures op.End? ==> !Truthy(Apply(t, op).current)
  {
  }

  /** An empty phase name runs no phase. */
  lemma NotRunning(a: Option<string>, b: Option<string>, since: real, ops: seq<Op>)
    requires a == b || (!Truthy(a) && !Truthy(b))
    ensures Intervals(a, since, ops) == Intervals(b, since, ops)
  {
  }

  /** Every recorded duration is that of the last completed interval of its phase. */
  lemma {:induction false} RecordedIsLastInterval(t: Timer, since: real, ops: seq<Op>, p: string)
    requires IsKnown(p) && Running(t, since)
    ensures Recorded(Run(t, ops), p) == LastLength(Intervals(t.current, since, ops), p, Recorded(t, p))
    decreases |ops|
  {
    hide EndPhase, Recorded, IsKnown;
    if ops == [] {
    } else {
      var ended := if ops[0].Start? then ops[0].ended else ops[0].now;
      var t' := Apply(t, ops[0]);
      EndRecords(t, since, ended, p);
      ApplyKeepsRecords(t, ops[0], p);
      RecordedIsLastInterval(t', ops[0].now, ops[1..], p);
      var running := if ops[0].Start? then Some(ops[0].phase) else None;
      NotRunning(t'.current, running, ops[0].now, ops[1..]);
      var rest := Intervals(running, ops[0].now, ops[1..]);
      if Truthy(t.current) {
        var spans := [Interval(t.current.value, since, ended)] + rest;
        assert spans[1..] == rest;
      } else {
        assert [] + rest == rest;
      }
    }
  }

  lemma FreshRecordsNothing(start: real, p: string)
    ensures Recorded(Fresh(start), p) == None && Running(Fresh(start), start)
  {
  }

  lemma FieldIsLastInterval(start: real, ops: seq<Op>, p: string)
    requires IsKnown(p)
    ensures Recorded(Run(Fresh(start), ops), p) == LastLength(Intervals(None, start, ops), p, None)
  {
    hide Run, Intervals, LastLength, Recorded, IsKnown;
    FreshRecordsNothing(start, p);
    RecordedIsLastInterval(Fresh(start), start, ops, p);
  }

  /** The four fields, by the names of their phases, after any calls. */
  lemma FieldsAreLastIntervals(start: real, ops: seq<Op>)
    ensures var t, spans := Run(Fresh(start), ops), Intervals(None, start, ops);
            && t.commandProcessing == LastLength(spans, "command_processing", None)
            && t.backendSelection == LastLength(spans, "backend_selection", None)
            && t.backendCall == LastLength(spans, "backend_call", None)
            && t.responseProcessing == LastLength(spans, "response_processing", None)
  {
    FieldIsLastInterval(start, ops, COMMAND);
    FieldIsLastInterval(start, ops, SELECTION);
    FieldIsLastInterval(start, ops, CALL);
    FieldIsLastInterval(start, ops, RESPONSE);
    hide Run, Intervals, LastLength;
  }

  // ---- After finalize ----

  lemma {:induction false} RunSnoc(t: Timer, ops: seq<Op>, op: Op)
    ensures Run(t, ops + [op]) == Apply(Run(t, ops), op)
    decreases |ops|
  {
    hide Apply;
    if ops == [] {
      assert ops + [op] == [op] && [op][1..] == [];
    } else {
      assert (ops + [op])[1..] == ops[1..] + [op];
      RunSnoc(Apply(t, ops[0]), ops[1..], op);
    }
  }

  lemma {:induction false} LastLengthAppend(a: seq<Interval>, b: seq<Interval>, phase: string, before: Option<real>)
    ensures LastLength(a + b, phase, before) == LastLength(b, phase, LastLength(a, phase, before))
    decreases |a|
  {
    if a == [] {
      assert a + b == b;
    } else {
      assert (a + b)[1..] == a[1..] + b;
      LastLengthAppend(a[1..], b, phase, if a[0].phase == phase then Some(a[0].to - a[0].from) else before);
    }
  }

  /** The summed lengths of the last intervals of the four phases. */
  function TotalLength(spans: seq<Interval>): real {
    OrZero(LastLength(spans, COMMAND, None)) + OrZero(LastLength(spans, SELECTION, None))
    + OrZero(LastLength(spans, CALL, None)) + OrZero(LastLength(spans, RESPONSE, None))
  }

  lemma ApplyKeepsTotal(t: Timer, op: Op)
    ensures Apply(t, op).total == t.total && Apply(t, op).requestStart == t.requestStart
  {
  }

  lemma {:induction false} RunKeepsTotal(t: Timer, ops: seq<Op>)
    ensures Run(t, ops).total == t.total && Run(t, ops).requestStart == t.requestStart
    decreases |ops|
  {
    hide Apply;
    if ops == [] {
    } else {
      ApplyKeepsTotal(t, ops[0]);
      RunKeepsTotal(Apply(t, ops[0]), ops[1..]);
    }
  }

  /** A run that is finalised at `finished` and goes on with `later`. */
  function Continued(start: real, ops: seq<Op>, ended: real, finished: real, later: seq<Op>): Timer {
    Run(Finalize(Run(Fresh(start), ops), ended, finished), later)
  }

  /** The completed intervals of such a run: before `finalize`, and after it. */
  function SpansBefore(start: real, ops: seq<Op>, ended: real): seq<Interval> {
    Intervals(None, start, ops + [End(ended)])
  }

  function SpansAfter(finished: real, later: seq<Op>): seq<Interval> {
    Intervals(None, finished, later)
  }

  lemma EndsPhase(t: Timer, now: real)
    ensures !Truthy(EndPhase(t, now).current)
  {
  }

  lemma FinalizedRecords(start: real, ops: seq<Op>, ended: real, finished: real, p: string)
    requires IsKnown(p)
    ensures var t := Finalize(Run(Fresh(start), ops), ended, finished);
            Recorded(t, p) == LastLength(SpansBefore(start, ops, ended), p, None) && !Truthy(t.current)
  {
    hide Run, EndPhase, LastLength, Intervals, IsKnown;
    RunSnoc(Fresh(start), ops, End(ended));
    RecordedIsLastInterval(Fresh(start), start, ops + [End(ended)], p);
    FreshRecordsNothing(start, p);
    EndsPhase(Run(Fresh(start), ops), ended);
  }

  lemma ContinuedRecords(start: real, ops: seq<Op>, ended: real, finished: real, later: seq<Op>, p: string)
    requires IsKnown(p)
    ensures Recorded(Continued(start, ops, ended, finished, later), p) ==
            LastLength(SpansBefore(start, ops, ended) + SpansAfter(finished, later), p, None)
  {
    hide Run, Finalize, LastLength, Intervals, IsKnown, Recorded, SpansBefore;
    var t := Finalize(Run(Fresh(start), ops), ended, finished);
    FinalizedRecords(start, ops, ended, finished, p);
    RecordedIsLastInterval(t, finished, later, p);
    NotRunning(t.current, None, finished, later);
    LastLengthAppend(SpansBefore(start, ops, ended), SpansAfter(finished, later), p, None);
  }

  lemma AccountedIsRecorded(t: Timer)
    ensures Accounted(t) == OrZero(Recorded(t, COMMAND)) + OrZero(Recorded(t, SELECTION))
                            + OrZero(Recorded(t, CALL)) + OrZero(Recorded(t, RESPONSE))
  {
  }

  lemma TotalOfFinalize(start: real, ops: seq<Op>, ended: real, finished: real)
    ensures Finalize(Run(Fresh(start), ops), ended, finished).total == Some(finished - start)
  {
    hide Run;
    RunKeepsTotal(Fresh(start), ops);
    ApplyKeepsTotal(Run(Fresh(start), ops), End(ended));
  }

  /**
   What a summary shows of a run that went on after `finalize`: the total stays
   that of `finalize`, the accounted time is that of the last interval of every
   phase, before or after, and the overhead is their difference if positive.
   */
  lemma SummaryAfterFinalize(start: real, ops: seq<Op>, ended: real, finished: real, later: seq<Op>, e: real, now: real)
    requires start != finished
    ensures var t := Continued(start, ops, ended, finished, later);
            var s := Summarize(t, e, now);
            && s.timer == t && t.total == Some(finished - start)
            && Accounted(t) == TotalLength(SpansBefore(start, ops, ended) + SpansAfter(finished, later))
            && (s.overhead.Some? <==> Accounted(t) < finished - start)
            && (s.overhead.Some? ==> s.overhead.value == finished - start - Accounted(t))
  {
    hide Run, LastLength, SpansBefore, SpansAfter, Accounted, Recorded, EndPhase;
    var t := Continued(start, ops, ended, finished, later);
    TotalOfFinalize(start, ops, ended, finished);
    RunKeepsTotal(Finalize(Run(Fresh(start), ops), ended, finished), later);
    ContinuedRecords(start, ops, ended, finished, later, COMMAND);
    ContinuedRecords(start, ops, ended, finished, later, SELECTION);
    ContinuedRecords(start, ops, ended, finished, later, CALL);
    ContinuedRecords(start, ops, ended, finished, later, RESPONSE);
    AccountedIsRecorded(t);
  }

  lemma {:induction false} OtherSpansKeepLength(spans: seq<Interval>, phase: string, before: Option<real>)
    requires forall s <- spans :: s.phase != phase
    ensures LastLength(spans, phase, before) == before
    decreases |spans|
  {
    if spans == [] {
    } else {
      assert spans[0] in spans;
      OtherSpansKeepLength(spans[1..], phase, before);
    }
  }

  /** As long as no known phase is completed after `finalize`, the total covers what is recorded. */
  lemma NoLatePhaseIsCovered(start: real, ops: seq<Op>, ended: real, finished: real, later: seq<Op>)
    requires Timed(start, ops) && LastTime(start, ops) <= ended <= finished
    requires forall s <- SpansAfter(finished, later) :: !IsKnown(s.phase)
    ensures var t := Continued(start, ops, ended, finished, later);
            t.total == Some(finished - start) && Accounted(t) <= finished - start
  {
    hide Run, LastLength, SpansBefore, SpansAfter, Accounted, Recorded, EndPhase, Timed, LastTime;
    var t1, t := Finalize(Run(Fresh(start), ops), ended, finished), Continued(start, ops, ended, finished, later);
    OverheadNotNegative(start, ops, ended, finished);
    TotalOfFinalize(start, ops, ended, finished);
    RunKeepsTotal(t1, later);
    forall p | IsKnown(p)
      ensures Recorded(t, p) == Recorded(t1, p)
    {
      ContinuedRecords(start, ops, ended, finished, later, p);
      FinalizedRecords(start, ops, ended, finished, p);
      LastLengthAppend(SpansBefore(start, ops, ended), SpansAfter(finished, later), p, None);
      OtherSpansKeepLength(SpansAfter(finished, later), p, LastLength(SpansBefore(start, ops, ended), p, None));
    }
    AccountedIsRecorded(t);
    AccountedIsRecorded(t1);
  }

  /** A summary that finalises itself covers everything, whenever it is asked for. */
  lemma OwnTotalCovers(t: Timer, clock: real, ended: real, now: real)
    requires Balanced(t, clock) && clock <= ended <= now
    requires t.total.None? || t.total.value == 0.0
    ensures var s := Summarize(t, ended, now); Accounted(s.timer) <= s.timer.total.value
  {
    hide EndPhase;
    EndBalance(t, clock, ended);
  }

  lemma CallIsRecorded(t: Timer, from: real, end: real)
    requires !Truthy(t.current)
    ensures EndPhase(StartPhase(t, CALL, from, from), end) ==
            t.(backendCall := Some(end - from), markers := t.markers[Marker(CALL) := from], current := None)
  {
    hide Marker;
  }

  /** A run whose total is too small: finalised, then a backend call longer than all before it. */
  lemma PhaseAfterFinalize(start: real, finished: real, end: real)
    requires start < finished && finished - start < end - finished
    ensures var t := Continued(start, [], finished, finished, [Start(CALL, finished, finished), End(end)]);
            && t.total == Some(finished - start)
            && finished - start < Accounted(t)
            && Summarize(t, end, end).overhead.None?
  {
    hide Marker;
    var later := [Start(CALL, finished, finished), End(end)];
    var f := Finalize(Fresh(start), finished, finished);
    assert later[1..] == [End(end)] && [End(end)][1..] == [];
    assert Run(f, later) == Run(StartPhase(f, CALL, finished, finished), [End(end)])
        == Run(EndPhase(StartPhase(f, CALL, finished, finished), end), []);
    CallIsRecorded(f, finished, end);
  }

  // ---- The class ----

  class PerformanceMetrics {
    var requestStart: real
    var commandProcessingTime: Option<real>
    var backendSelectionTime: Option<real>
    var backendCallTime: Option<real>
    var responseProcessingTime: Option<real>
    var totalTime: Option<real>
    var markers: map<string, real>
    var currentPhase: Option<string>

    function View(): Timer
      reads this
    {
      Timer(requestStart, commandProcessingTime, backendSelectionTime, backendCallTime, responseProcessingTime,
            totalTime, markers, currentPhase)
    }

    constructor (now: real)
      ensures View() == Fresh(now)
    {
      requestStart, totalTime, markers, currentPhase := now, None, map[], None;
      commandProcessingTime, backendSelectionTime, backendCallTime, responseProcessingTime := None, None, None, None;
    }

    /** `end_phase` */
    method EndCurrent(now: real)
      modifies this
      ensures View() == EndPhase(old(View()), now)
    {
      if !Truthy(currentPhase) {
        return;
      }
      var phase := currentPhase.value;
      if Marker(phase) in markers {
        var duration := now - markers[Marker(phase)];
        if phase == COMMAND {
          commandProcessingTime := Some(duration);
        } else if phase == SELECTION {
          backendSelectionTime := Some(duration);
        } else if phase == CALL {
          backendCallTime := Some(duration);
        } else if phase == RESPONSE {
          responseProcessingTime := Some(duration);
        }
      }
      currentPhase := None;
    }

    /** `start_phase` */
    method Begin(phase: string, ended: real, now: real)
      modifies this
      ensures View() == StartPhase(old(View()), phase, ended, now)
    {
      if Truthy(currentPhase) {
        EndCurrent(ended);
      }
      currentPhase := Some(phase);
      markers := markers[Marker(phase) := now];
    }

    /** `finalize`: keeps the balance of a timer whose clock readings never go back. */
    method Complete(ghost clock: real, ended: real, now: real)
      modifies this
      ensures View() == Finalize(old(View()), ended, now)
      ensures old(Balanced(View(), clock)) && clock <= ended <= now ==> Accounted(View()) <= totalTime.value
    {
      if Balanced(View(), clock) && clock <= ended <= now {
        EndBalance(View(), clock, ended);
      }
      if Truthy(currentPhase) {
        EndCurrent(ended);
      }
      totalTime := Some(now - requestStart);
    }

    /** `log_summary` up to the message: the overhead it shows, if any. */
    method LogSummary(ended: real, now: real) returns (overhead: Option<real>)
      modifies this
      ensures Summary(View(), overhead) == Summarize(old(View()), ended, now)
    {
      if totalTime.None? || totalTime.value == 0.0 {
        Complete(now, ended, now);
      }
      var accountedTime := 0.0;
      if commandProcessingTime.Some? {
        accountedTime := accountedTime + commandProcessingTime.value;
      }
      if backendSelectionTime.Some? {
        accountedTime := accountedTime + backendSelectionTime.value;
      }
      if backendCallTime.Some? {
        accountedTime := accountedTime + backendCallTime.value;
      }
      if responseProcessingTime.Some? {
        accountedTime := accountedTime + responseProcessingTime.value;
      }
      var difference := totalTime.value - accountedTime;
      overhead := if difference > 0.0 then Some(difference) else None;
    }
  }
}
