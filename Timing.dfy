/** The main process's timing collector: per-interaction timings of named
    events, finalised into reports that wait in a bounded queue and are
    sent to the server in batches. Whether analytics are shared, the
    current interaction and user, the clock and the outcome of each
    submission are parameters. */
module Timing {
  import opened Common

  /** The tracked events (`interaction_active`, `server_transcribe`,
      `server_editing`, `selected_text_gather`, `window_context_gather`,
      `browser_url_gather`, `grammar_service`, `cursor_context_gather`,
      `text_writer`). */
  datatype TimingEventName =
    | InteractionActive
    | ServerDictation
    | ServerEditing
    | SelectedTextGather
    | WindowContextGather
    | BrowserUrlGather
    | GrammarService
    | CursorContextGather
    | TextWriter

  /** One timed event; the clock is `performance.now()` in milliseconds. */
  datatype TimingEvent = TimingEvent(name: TimingEventName, startMs: int, endMs: Option<int>, durationMs: Option<int>)

  /** The events of an interaction, in the order they were first started
      (a `Map` keyed by name). */
  datatype ActiveTiming = ActiveTiming(interactionId: string, startTimestamp: string, events: seq<TimingEvent>)

  /** The machine a report comes from. */
  datatype ReportOrigin = ReportOrigin(platform: string, appVersion: string, hostname: string, architecture: string)

  datatype TimingReport = TimingReport(
    interactionId: string,
    userId: string,
    origin: ReportOrigin,
    timestamp: string,
    events: seq<TimingEvent>,
    totalDurationMs: int)

  const BatchSize := 10
  const MaxQueueSize := 100

  /** `interactionId || interactionManager.getCurrentInteractionId()`, with
      an empty id meaning none. */
  function ResolveId(given: string, current: Option<string>): (id: Option<string>)
    ensures given != "" ==> id == Some(given)
    ensures given == "" ==> id == (if current.Some? && current.value != "" then current else None)
    ensures id.Some? ==> id.value != ""
  {
    if given != "" then Some(given)
    else if current.Some? && current.value != "" then current
    else None
  }

  // ---------------------------------------------------------------------
  // The events of one interaction
  // ---------------------------------------------------------------------

  predicate DistinctNames(events: seq<TimingEvent>) {
    forall i, j :: 0 <= i < j < |events| ==> events[i].name != events[j].name
  }

  /** `events.get(name)`. */
  function FindEvent(events: seq<TimingEvent>, name: TimingEventName): (r: Option<TimingEvent>)
    ensures r.Some? ==> r.value.name == name && r.value in events
    ensures r.None? ==> forall e :: e in events ==> e.name != name
    decreases |events|
  {
    if |events| == 0 then None
    else if events[0].name == name then Some(events[0])
    else FindEvent(events[1..], name)
  }

  /** `events.set(e.name, e)`: a known name keeps its place with the new
      event, a new name goes last. */
  function PutEvent(events: seq<TimingEvent>, e: TimingEvent): (r: seq<TimingEvent>)
    ensures FindEvent(r, e.name) == Some(e)
    decreases |events|
  {
    if |events| == 0 then [e]
    else if events[0].name == e.name then [e] + events[1..]
    else [events[0]] + PutEvent(events[1..], e)
  }

  /** Putting one event leaves every other name's event as it was. */
  lemma {:induction false} PutEventOthers(events: seq<TimingEvent>, e: TimingEvent, n: TimingEventName)
    requires n != e.name
    ensures FindEvent(PutEvent(events, e), n) == FindEvent(events, n)
    decreases |events|
  {
    if |events| > 0 {
      var r := PutEvent(events, e);
      if events[0].name == e.name {
        assert r[1..] == events[1..];
      } else {
        PutEventOthers(events[1..], e, n);
        assert r[1..] == PutEvent(events[1..], e);
      }
    }
  }

  /** Putting an event brings in no event but the new one. */
  lemma {:induction false} PutEventMembers(events: seq<TimingEvent>, e: TimingEvent)
    ensures forall x :: x in PutEvent(events, e) ==> x == e || x in events
    decreases |events|
  {
    if |events| > 0 {
      if events[0].name == e.name {
        assert PutEvent(events, e) == [e] + events[1..];
      } else {
        PutEventMembers(events[1..], e);
        assert PutEvent(events, e) == [events[0]] + PutEvent(events[1..], e);
        assert forall x :: x in events[1..] ==> x in events;
      }
    }
  }

  /** Behind a distinct head, putting a differently named event never
      repeats the head's name. */
  lemma HeadNameStaysUnique(events: seq<TimingEvent>, e: TimingEvent)
    requires DistinctNames(events) && |events| > 0 && events[0].name != e.name
    ensures forall x :: x in PutEvent(events[1..], e) ==> x.name != events[0].name
  {
    PutEventMembers(events[1..], e);
    forall x | x in PutEvent(events[1..], e)
      ensures x.name != events[0].name
    {
      if x != e {
        var k :| 0 <= k < |events[1..]| && events[1..][k] == x;
        assert events[k + 1] == x;
      }
    }
  }

  /** Putting an event keeps the names distinct, as map keys are. */
  lemma {:induction false} PutEventDistinct(events: seq<TimingEvent>, e: TimingEvent)
    requires DistinctNames(events)
    ensures DistinctNames(PutEvent(events, e))
    decreases |events|
  {
    if |events| > 0 {
      var r := PutEvent(events, e);
      if events[0].name == e.name {
        assert r[1..] == events[1..];
        forall i, j | 0 <= i < j < |r| ensures r[i].name != r[j].name {
          assert r[j] == events[j];
          if i > 0 {
            assert r[i] == events[i];
          }
        }
      } else {
        assert DistinctNames(events[1..]) by {
          forall i, j | 0 <= i < j < |events[1..]| ensures events[1..][i].name != events[1..][j].name {
            assert events[1..][i] == events[i + 1] && events[1..][j] == events[j + 1];
          }
        }
        PutEventDistinct(events[1..], e);
        HeadNameStaysUnique(events, e);
        var rest := PutEvent(events[1..], e);
        assert r == [events[0]] + rest;
        forall i, j | 0 <= i < j < |r| ensures r[i].name != r[j].name {
          if i == 0 {
            assert r[j] in rest;
          } else {
            assert r[i] == rest[i - 1] && r[j] == rest[j - 1];
          }
        }
      }
    }
  }

  /** `startTiming` on the events: the named event (re)starts now. */
  function StartEvent(events: seq<TimingEvent>, name: TimingEventName, now: int): seq<TimingEvent> {
    PutEvent(events, TimingEvent(name, now, None, None))
  }

  /** `endTiming` on the events: a started event gets its end and its
      duration, end minus start; an unknown event changes nothing. */
  function EndEvent(events: seq<TimingEvent>, name: TimingEventName, now: int): (r: seq<TimingEvent>)
    ensures FindEvent(events, name).None? ==> r == events
    ensures FindEvent(events, name).Some? ==>
      var e := FindEvent(events, name).value;
      FindEvent(r, name) == Some(TimingEvent(name, e.startMs, Some(now), Some(now - e.startMs)))
    ensures forall n :: n != name ==> FindEvent(r, n) == FindEvent(events, n)
  {
    match FindEvent(events, name)
    case None => events
    case Some(e) =>
      var ended := e.(endMs := Some(now), durationMs := Some(now - e.startMs));
      assert forall n :: n != name ==> FindEvent(PutEvent(events, ended), n) == FindEvent(events, n) by {
        forall n | n != name {
          PutEventOthers(events, ended, n);
        }
      }
      PutEvent(events, ended)
  }

  lemma EndEventDistinct(events: seq<TimingEvent>, name: TimingEventName, now: int)
    requires DistinctNames(events)
    ensures DistinctNames(EndEvent(events, name, now))
  {
    match FindEvent(events, name)
    case None =>
    case Some(e) =>
      PutEventDistinct(events, e.(endMs := Some(now), durationMs := Some(now - e.startMs)));
  }

  /** `event.endMs || event.startMs`. */
  function EventEnd(e: TimingEvent): int {
    if e.endMs.Some? && e.endMs.value != 0 then e.endMs.value else e.startMs
  }

  /** The end of the event the reduce picks: the latest end, the first
      such event winning ties. */
  function LatestEnd(events: seq<TimingEvent>): (r: int)
    requires |events| > 0
    ensures forall e :: e in events ==> EventEnd(e) <= r
    ensures exists e :: e in events && EventEnd(e) == r
    decreases |events|
  {
    if |events| == 1 then EventEnd(events[0])
    else
      var rest := LatestEnd(events[1..]);
      assert forall e :: e in events ==> e == events[0] || e in events[1..];
      if EventEnd(events[0]) >= rest then EventEnd(events[0]) else rest
  }

  /** The reduce of `finalizeInteraction`: the first event whose end is
      later than every event before it. */
  function ReduceLatest(latest: TimingEvent, events: seq<TimingEvent>): (r: TimingEvent)
    ensures EventEnd(r) >= EventEnd(latest)
    ensures forall e :: e in events ==> EventEnd(e) <= EventEnd(r)
    ensures r == latest || r in events
    decreases |events|
  {
    if |events| == 0 then latest
    else ReduceLatest(if EventEnd(events[0]) > EventEnd(latest) then events[0] else latest, events[1..])
  }

  /** The reduce started from the first event ends at the latest end. */
  lemma ReduceIsLatest(events: seq<TimingEvent>)
    requires |events| > 0
    ensures EventEnd(ReduceLatest(events[0], events)) == LatestEnd(events)
  {
    var r := ReduceLatest(events[0], events);
    var m := LatestEnd(events);
    var w :| w in events && EventEnd(w) == m;
    assert EventEnd(r) >= EventEnd(w);
  }

  /** `totalDurationMs`: 0 without an `interaction_active` event, else the
      latest end (or start) minus that event's start. */
  function TotalDuration(events: seq<TimingEvent>): (d: int)
    ensures FindEvent(events, InteractionActive).None? ==> d == 0
    ensures FindEvent(events, InteractionActive).Some? ==>
      |events| > 0 && d == LatestEnd(events) - FindEvent(events, InteractionActive).value.startMs
  {
    match FindEvent(events, InteractionActive)
    case None => 0
    case Some(first) =>
      ReduceIsLatest(events);
      EventEnd(ReduceLatest(events[0], events)) - first.startMs
  }

  /** An interaction that ended its `interaction_active` event after every
      other event reports exactly that event's duration. */
  lemma TotalIsActiveDuration(events: seq<TimingEvent>, start: int, end: int)
    requires end != 0
    requires FindEvent(events, InteractionActive) == Some(TimingEvent(InteractionActive, start, Some(end), Some(end - start)))
    requires forall e :: e in events ==> EventEnd(e) <= end
    ensures TotalDuration(events) == end - start
  {
    var a := FindEvent(events, InteractionActive).value;
    assert EventEnd(a) == end;
    assert LatestEnd(events) >= EventEnd(a);
  }

  // ---------------------------------------------------------------------
  // The active timings
  // ---------------------------------------------------------------------

  /** `startTiming` on the map of active timings: when collecting, the
      event of a known interaction (re)starts now; otherwise nothing
      changes. */
  function TimingsAfterStart(timings: map<string, ActiveTiming>, collect: bool, name: TimingEventName,
                             given: string, current: Option<string>, now: int): (r: map<string, ActiveTiming>)
    ensures r.Keys == timings.Keys
    ensures forall id :: id in timings && Some(id) != ResolveId(given, current) ==> r[id] == timings[id]
    ensures var id := ResolveId(given, current);
      collect && id.Some? && id.value in timings ==>
        r[id.value] == timings[id.value].(events := StartEvent(timings[id.value].events, name, now))
    ensures !collect ==> r == timings
  {
    var id := ResolveId(given, current);
    if collect && id.Some? && id.value in timings then
      var a := timings[id.value];
      timings[id.value := a.(events := StartEvent(a.events, name, now))]
    else timings
  }

  /** `endTiming` on the map of active timings: when collecting, a started
      event of a known interaction is ended now; otherwise nothing changes. */
  function TimingsAfterEnd(timings: map<string, ActiveTiming>, collect: bool, name: TimingEventName,
                           given: string, current: Option<string>, now: int): (r: map<string, ActiveTiming>)
    ensures r.Keys == timings.Keys
    ensures forall id :: id in timings && Some(id) != ResolveId(given, current) ==> r[id] == timings[id]
    ensures var id := ResolveId(given, current);
      collect && id.Some? && id.value in timings ==>
        r[id.value] == timings[id.value].(events := EndEvent(timings[id.value].events, name, now))
    ensures !collect ==> r == timings
  {
    var id := ResolveId(given, current);
    if collect && id.Some? && id.value in timings then
      var a := timings[id.value];
      timings[id.value := a.(events := EndEvent(a.events, name, now))]
    else timings
  }

  /** Every active interaction's events are keyed by name. */
  predicate EventsKeyed(timings: map<string, ActiveTiming>) {
    forall id :: id in timings ==> DistinctNames(timings[id].events)
  }

  /** Starting or ending an event keeps every interaction's events keyed
      by name. */
  lemma StartEndKeepKeyed(timings: map<string, ActiveTiming>, collect: bool, name: TimingEventName,
                          given: string, current: Option<string>, now: int)
    requires EventsKeyed(timings)
    ensures EventsKeyed(TimingsAfterStart(timings, collect, name, given, current, now))
    ensures EventsKeyed(TimingsAfterEnd(timings, collect, name, given, current, now))
  {
    var id := ResolveId(given, current);
    if collect && id.Some? && id.value in timings {
      PutEventDistinct(timings[id.value].events, TimingEvent(name, now, None, None));
      EndEventDistinct(timings[id.value].events, name, now);
    }
  }

  /** A timed call of a known interaction, with analytics on at both ends
      and the same id resolved at both ends, leaves its event ended with
      end minus start as its duration. */
  lemma TimedEventIsEnded(timings: map<string, ActiveTiming>, name: TimingEventName, given: string,
                          current: Option<string>, startNow: int, endNow: int)
    requires ResolveId(given, current).Some? && ResolveId(given, current).value in timings
    ensures var id := ResolveId(given, current).value;
      var r := TimingsAfterEnd(TimingsAfterStart(timings, true, name, given, current, startNow),
                               true, name, given, current, endNow);
      FindEvent(r[id].events, name) == Some(TimingEvent(name, startNow, Some(endNow), Some(endNow - startNow)))
  {
  }

  /** The id is resolved again after the await: when the current
      interaction changed meanwhile (and no id was given), the event of the
      interaction it was started for stays open. */
  lemma SwitchedInteractionLeavesEventOpen(timings: map<string, ActiveTiming>, name: TimingEventName,
                                           before: string, after: string, startNow: int, endNow: int)
    requires before in timings && before != after && before != ""
    ensures var r := TimingsAfterEnd(TimingsAfterStart(timings, true, name, "", Some(before), startNow),
                                     true, name, "", Some(after), endNow);
      FindEvent(r[before].events, name) == Some(TimingEvent(name, startNow, None, None))
  {
  }

  // ---------------------------------------------------------------------
  // The report queue
  // ---------------------------------------------------------------------

  /** `reports.slice(-MAX_QUEUE_SIZE)` when over the limit. */
  function KeepNewest(reports: seq<TimingReport>): (r: seq<TimingReport>)
    ensures |r| <= MaxQueueSize || |r| == |reports|
    ensures |reports| <= MaxQueueSize ==> r == reports
    ensures |reports| > MaxQueueSize ==> |r| == MaxQueueSize && r == reports[|reports| - MaxQueueSize..]
  {
    if |reports| > MaxQueueSize then reports[|reports| - MaxQueueSize..] else reports
  }

  /** How many reports one flush takes from the front. */
  function FlushCount(queued: nat, flushAll: bool): (n: nat)
    ensures n <= queued
    ensures flushAll ==> n == queued
    ensures !flushAll ==> n <= BatchSize && (n < BatchSize ==> n == queued)
  {
    if flushAll || queued < BatchSize then queued else BatchSize
  }

  /** The queue after a flush whose answer came before anything else
      happened: the batch is gone when it was submitted, and back at the
      front, in its order, when the submission failed. */
  function AfterFlush(reports: seq<TimingReport>, flushAll: bool, submitted: bool): (r: seq<TimingReport>)
    ensures !submitted ==> r == reports
    ensures submitted ==> r == reports[FlushCount(|reports|, flushAll)..]
  {
    var n := FlushCount(|reports|, flushAll);
    var batch := reports[..n];
    var rest := reports[n..];
    if submitted then rest else
      assert batch + rest == reports;
      batch + rest
  }

  /** Failed flushes lose nothing; successful ones send the oldest reports
      first, so repeating a flush drains the queue from the front. */
  lemma FlushTwice(reports: seq<TimingReport>)
    ensures var n := FlushCount(|reports|, false);
      var m := FlushCount(|reports| - n, false);
      AfterFlush(AfterFlush(reports, false, true), false, true) == reports[n + m..]
  {
  }

  /** The elements held by a list of batches. */
  function Pending<T>(batches: seq<seq<T>>): multiset<T>
    decreases |batches|
  {
    if batches == [] then multiset{}
    else Pending(batches[..|batches| - 1]) + multiset(batches[|batches| - 1])
  }

  /** A batch joining the list adds exactly its elements. */
  lemma PendingSnoc<T>(batches: seq<seq<T>>, b: seq<T>)
    ensures Pending(batches + [b]) == Pending(batches) + multiset(b)
  {
    assert (batches + [b])[..|batches|] == batches;
  }

  /** A batch leaving the list, wherever it stands, takes exactly its
      elements with it. */
  lemma {:induction false} PendingRemove<T>(batches: seq<seq<T>>, i: nat)
    requires i < |batches|
    ensures Pending(batches) == Pending(batches[..i] + batches[i + 1..]) + multiset(batches[i])
    decreases |batches|
  {
    var last := |batches| - 1;
    var init := batches[..last];
    assert Pending(batches) == Pending(init) + multiset(batches[last]);
    if i == last {
      assert batches[..i] + batches[i + 1..] == init;
    } else {
      PendingRemove(init, i);
      var rest := init[..i] + init[i + 1..];
      assert init[i] == batches[i];
      assert batches[..i] + batches[i + 1..] == rest + [batches[last]];
      PendingSnoc(rest, batches[last]);
    }
  }

  /** The reports waiting to reach the server: the queue, and the batches
      taken by flushes whose submission has not answered yet, in the order
      they were taken. */
  datatype Outbox = Outbox(queue: seq<TimingReport>, inFlight: seq<seq<TimingReport>>)

  /** Every report the outbox holds. */
  function Held(o: Outbox): multiset<TimingReport> {
    multiset(o.queue) + Pending(o.inFlight)
  }

  /** `completedReports.push(report)` followed by the queue bound. */
  function Enqueued(o: Outbox, report: TimingReport): Outbox {
    Outbox(KeepNewest(o.queue + [report]), o.inFlight)
  }

  /** The reports the queue bound drops when a report joins. */
  function Overflow(queue: seq<TimingReport>, report: TimingReport): seq<TimingReport> {
    var q := queue + [report];
    if |q| > MaxQueueSize then q[..|q| - MaxQueueSize] else []
  }

  /** `flush` up to its `await`: the oldest reports (ten, or all) leave
      the queue as a new batch in flight; an empty queue starts nothing. */
  function Taken(o: Outbox, flushAll: bool): Outbox {
    var n := FlushCount(|o.queue|, flushAll);
    if n == 0 then o else Outbox(o.queue[n..], o.inFlight + [o.queue[..n]])
  }

  /** `flush` after its `await`: the i-th batch in flight is answered; a
      refused batch goes back in front of whatever the queue holds by
      then. */
  function Answered(o: Outbox, i: nat, submitOk: bool): Outbox
    requires i < |o.inFlight|
  {
    var others := o.inFlight[..i] + o.inFlight[i + 1..];
    if submitOk then Outbox(o.queue, others) else Outbox(o.inFlight[i] + o.queue, others)
  }

  /** A report joining the queue is held, the newest last, and only the
      overflow beyond a hundred is lost. */
  lemma EnqueueHeld(o: Outbox, report: TimingReport)
    ensures Held(Enqueued(o, report)) + multiset(Overflow(o.queue, report)) == Held(o) + multiset{report}
    ensures |Enqueued(o, report).queue| <= MaxQueueSize
    ensures Enqueued(o, report).queue[|Enqueued(o, report).queue| - 1] == report
  {
    var q := o.queue + [report];
    var cut := if |q| > MaxQueueSize then |q| - MaxQueueSize else 0;
    assert Overflow(o.queue, report) == q[..cut];
    assert Enqueued(o, report).queue == q[cut..];
    assert q == q[..cut] + q[cut..];
    assert multiset(q) == multiset(q[..cut]) + multiset(q[cut..]);
    assert multiset(q) == multiset(o.queue) + multiset{report};
  }

  /** Starting a flush loses no report and invents none. */
  lemma TakeHeld(o: Outbox, flushAll: bool)
    ensures Held(Taken(o, flushAll)) == Held(o)
    ensures var n := FlushCount(|o.queue|, flushAll);
      n > 0 ==> Taken(o, flushAll).inFlight[|o.inFlight|] == o.queue[..n]
  {
    var n := FlushCount(|o.queue|, flushAll);
    if n > 0 {
      assert o.queue == o.queue[..n] + o.queue[n..];
      assert multiset(o.queue) == multiset(o.queue[..n]) + multiset(o.queue[n..]);
      PendingSnoc(o.inFlight, o.queue[..n]);
    }
  }

  /** An answer releases exactly the accepted batch; a refused batch is
      held again. */
  lemma AnswerHeld(o: Outbox, i: nat, submitOk: bool)
    requires i < |o.inFlight|
    ensures submitOk ==> Held(Answered(o, i, submitOk)) + multiset(o.inFlight[i]) == Held(o)
    ensures !submitOk ==> Held(Answered(o, i, submitOk)) == Held(o)
  {
    PendingRemove(o.inFlight, i);
    assert multiset(o.inFlight[i] + o.queue) == multiset(o.inFlight[i]) + multiset(o.queue);
  }

  /** A flush answered before anything else happens is the one-step flush
      AfterFlush describes. */
  lemma ImmediateAnswer(queue: seq<TimingReport>, flushAll: bool, submitOk: bool)
    requires queue != []
    ensures Answered(Taken(Outbox(queue, []), flushAll), 0, submitOk) == Outbox(AfterFlush(queue, flushAll, submitOk), [])
  {
    var n := FlushCount(|queue|, flushAll);
    assert queue[..n] + queue[n..] == queue;
  }

  /** Two batch flushes in flight whose submissions both fail, answered in
      the order they were started, put the second batch ahead of the first. */
  lemma LateRefusalsReorder(queue: seq<TimingReport>)
    requires |queue| >= 2 * BatchSize
    ensures var o := Taken(Taken(Outbox(queue, []), false), false);
      Answered(Answered(o, 0, false), 0, false).queue
        == queue[BatchSize..2 * BatchSize] + queue[..BatchSize] + queue[2 * BatchSize..]
  {
    var o1 := Taken(Outbox(queue, []), false);
    assert o1 == Outbox(queue[BatchSize..], [queue[..BatchSize]]);
    var o2 := Taken(o1, false);
    assert queue[BatchSize..][..BatchSize] == queue[BatchSize..2 * BatchSize];
    assert queue[BatchSize..][BatchSize..] == queue[2 * BatchSize..];
    assert o2 == Outbox(queue[2 * BatchSize..], [queue[..BatchSize], queue[BatchSize..2 * BatchSize]]);
  }

  /** A refused batch lands on a full queue without the bound being
      applied again, so the queue exceeds a hundred reports. */
  lemma RefusalCanOverflow(o: Outbox, i: nat)
    requires i < |o.inFlight| && o.inFlight[i] != [] && |o.queue| == MaxQueueSize
    ensures |Answered(o, i, false).queue| > MaxQueueSize
  {
  }

  class TimingCollector {
    var activeTimings: map<string, ActiveTiming>
    var completedReports: seq<TimingReport>
    var flushTimerSet: bool
    /** The batches taken by flushes whose submission has not answered yet,
        in the order they were taken. */
    var inFlight: seq<seq<TimingReport>>
    /** The batches the server accepted, oldest first. */
    ghost var submitted: seq<seq<TimingReport>>

    /** Every active interaction's events are keyed by name. */
    ghost predicate Valid()
      reads this
    {
      EventsKeyed(activeTimings)
    }

    /** The queue and the batches in flight. */
    function Outgoing(): Outbox
      reads this
    {
      Outbox(completedReports, inFlight)
    }

    /** The constructor schedules the periodic flush. */
    constructor ()
      ensures Valid()
      ensures activeTimings == map[] && completedReports == [] && flushTimerSet && inFlight == [] && submitted == []
    {
      activeTimings := map[];
      completedReports := [];
      flushTimerSet := true;
      inFlight := [];
      submitted := [];
    }

    /** `startInteraction`: a fresh timing for the resolved id, when
        collecting. */
    method StartInteraction(collect: bool, given: string, current: Option<string>, isoNow: string)
      requires Valid()
      modifies this
      ensures Valid()
      ensures var id := ResolveId(given, current);
        activeTimings == if collect && id.Some? then old(activeTimings)[id.value := ActiveTiming(id.value, isoNow, [])] else old(activeTimings)
      ensures Outgoing() == old(Outgoing()) && flushTimerSet == old(flushTimerSet) && submitted == old(submitted)
    {
      if !collect {
        return;
      }
      var id := ResolveId(given, current);
      if id.None? {
        return;
      }
      activeTimings := activeTimings[id.value := ActiveTiming(id.value, isoNow, [])];
    }

    /** `startTiming`. */
    method StartTiming(collect: bool, name: TimingEventName, given: string, current: Option<string>, now: int)
      requires Valid()
      modifies this
      ensures Valid()
      ensures activeTimings == TimingsAfterStart(old(activeTimings), collect, name, given, current, now)
      ensures Outgoing() == old(Outgoing()) && flushTimerSet == old(flushTimerSet) && submitted == old(submitted)
    {
      if !collect {
        return;
      }
      var id := ResolveId(given, current);
      if id.None? || id.value !in activeTimings {
        return;
      }
      StartEndKeepKeyed(activeTimings, collect, name, given, current, now);
      activeTimings := TimingsAfterStart(activeTimings, collect, name, given, current, now);
    }

    /** `endTiming`. */
    method EndTiming(collect: bool, name: TimingEventName, given: string, current: Option<string>, now: int)
      requires Valid()
      modifies this
      ensures Valid()
      ensures activeTimings == TimingsAfterEnd(old(activeTimings), collect, name, given, current, now)
      ensures Outgoing() == old(Outgoing()) && flushTimerSet == old(flushTimerSet) && submitted == old(submitted)
    {
      if !collect {
        return;
      }
      var id := ResolveId(given, current);
      if id.None? || id.value !in activeTimings {
        return;
      }
      StartEndKeepKeyed(activeTimings, collect, name, given, current, now);
      activeTimings := TimingsAfterEnd(activeTimings, collect, name, given, current, now);
    }

    /** `finalizeInteraction`: when collecting, a known interaction leaves
        the active timings and its report joins the queue, which keeps its
        newest hundred; ten or more waiting reports start a flush, which
        takes its batch and returns without waiting for the answer. */
    method FinalizeInteraction(collect: bool, given: string, current: Option<string>, currentUser: Option<string>,
                               origin: ReportOrigin)
      requires Valid()
      modifies this
      ensures Valid()
      ensures var id := ResolveId(given, current);
        !(collect && id.Some? && id.value in old(activeTimings)) ==>
          activeTimings == old(activeTimings) && Outgoing() == old(Outgoing())
      ensures var id := ResolveId(given, current);
        collect && id.Some? && id.value in old(activeTimings) ==>
          var a := old(activeTimings)[id.value];
          var userId := if currentUser.Some? && currentUser.value != "" then currentUser.value else "unknown";
          var report := TimingReport(id.value, userId, origin, a.startTimestamp, a.events, TotalDuration(a.events));
          var queued := Enqueued(old(Outgoing()), report);
          && activeTimings == old(activeTimings) - {id.value}
          && Outgoing() == (if |queued.queue| >= BatchSize then Taken(queued, false) else queued)
      // the finalized report names each event at most once
      ensures var id := ResolveId(given, current);
        collect && id.Some? && id.value in old(activeTimings) ==> DistinctNames(old(activeTimings)[id.value].events)
      ensures flushTimerSet == old(flushTimerSet) && submitted == old(submitted)
    {
      if !collect {
        return;
      }
      var id := ResolveId(given, current);
      if id.None? || id.value !in activeTimings {
        return;
      }
      var a := activeTimings[id.value];
      var totalDuration := TotalDuration(a.events);
      var userId := if currentUser.Some? && currentUser.value != "" then currentUser.value else "unknown";
      var report := TimingReport(id.value, userId, origin, a.startTimestamp, a.events, totalDuration);
      activeTimings := activeTimings - {id.value};
      completedReports := completedReports + [report];
      if |completedReports| > MaxQueueSize {
        completedReports := completedReports[|completedReports| - MaxQueueSize..];
      }
      if |completedReports| >= BatchSize {
        StartFlush(false);
      }
    }

    /** `clearInteraction`: drops the resolved id's timing, whether or not
        analytics are shared. */
    method ClearInteraction(given: string, current: Option<string>)
      requires Valid()
      modifies this
      ensures Valid()
      ensures var id := ResolveId(given, current);
        activeTimings == if id.Some? then old(activeTimings) - {id.value} else old(activeTimings)
      ensures Outgoing() == old(Outgoing()) && flushTimerSet == old(flushTimerSet) && submitted == old(submitted)
    {
      var id := ResolveId(given, current);
      if id.None? {
        return;
      }
      activeTimings := activeTimings - {id.value};
    }

    /** `flush` up to its `await`. */
    method StartFlush(flushAll: bool)
      requires Valid()
      modifies this
      ensures Valid()
      ensures Outgoing() == Taken(old(Outgoing()), flushAll)
      ensures activeTimings == old(activeTimings) && flushTimerSet == old(flushTimerSet) && submitted == old(submitted)
    {
      if |completedReports| == 0 {
        return;
      }
      var n := if flushAll then |completedReports| else if |completedReports| < BatchSize then |completedReports| else BatchSize;
      var reportsToSend := completedReports[..n];
      completedReports := completedReports[n..];
      inFlight := inFlight + [reportsToSend];
    }

    /** `flush` after its `await`: the answer for the i-th batch in flight
        arrives; an accepted batch joins those the server holds. */
    method FinishFlush(i: nat, submitOk: bool)
      requires Valid()
      requires i < |inFlight|
      modifies this
      ensures Valid()
      ensures Outgoing() == Answered(old(Outgoing()), i, submitOk)
      ensures submitted == if submitOk then old(submitted) + [old(inFlight[i])] else old(submitted)
      ensures activeTimings == old(activeTimings) && flushTimerSet == old(flushTimerSet)
    {
      var reportsToSend := inFlight[i];
      inFlight := inFlight[..i] + inFlight[i + 1..];
      if submitOk {
        submitted := submitted + [reportsToSend];
      } else {
        completedReports := reportsToSend + completedReports;
      }
    }

    /** The five-second interval: a flush of one batch while the timer is
        set. */
    method TimerFired()
      requires Valid()
      modifies this
      ensures Valid()
      ensures Outgoing() == if flushTimerSet then Taken(old(Outgoing()), false) else old(Outgoing())
      ensures activeTimings == old(activeTimings) && flushTimerSet == old(flushTimerSet) && submitted == old(submitted)
    {
      if flushTimerSet {
        StartFlush(false);
      }
    }

    /** `shutdown` up to its `await`: the periodic flush stops and
        everything queued leaves as one batch in flight, whose answer is a
        `FinishFlush`. */
    method Shutdown()
      requires Valid()
      modifies this
      ensures Valid()
      ensures !flushTimerSet
      ensures Outgoing() == Taken(old(Outgoing()), true)
      ensures activeTimings == old(activeTimings) && submitted == old(submitted)
    {
      flushTimerSet := false;
      StartFlush(true);
    }

    /** `timeAsync`: the event is started, the wrapped call runs, and the
        event is ended whether the call returned or threw; its outcome is
        passed through. Whether analytics are shared and the current
        interaction are read once before the call and again after it. */
    method TimeAsync<T>(name: TimingEventName, given: string,
                        collectAtStart: bool, currentAtStart: Option<string>, startNow: int,
                        collectAtEnd: bool, currentAtEnd: Option<string>, endNow: int,
                        outcome: Result<T, string>) returns (r: Result<T, string>)
      requires Valid()
      modifies this
      ensures Valid()
      ensures r == outcome
      ensures activeTimings ==
        TimingsAfterEnd(TimingsAfterStart(old(activeTimings), collectAtStart, name, given, currentAtStart, startNow),
                        collectAtEnd, name, given, currentAtEnd, endNow)
      ensures Outgoing() == old(Outgoing()) && flushTimerSet == old(flushTimerSet) && submitted == old(submitted)
    {
      StartTiming(collectAtStart, name, given, currentAtStart, startNow);
      r := outcome;
      EndTiming(collectAtEnd, name, given, currentAtEnd, endNow);
    }
  }
}
