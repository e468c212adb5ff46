/** The client's remote log transport: every console or electron-log call
    is queued as an event, the queue is bounded and persisted in the
    key-value store, and batches are posted to the server's `/logs`
    endpoint by a timer. A send is asynchronous, so a flush is modelled
    as its start (taking a batch) and its completion (the server's
    answer); logging may happen between the two. */
module Logger {
  import opened Common

  type Instant = int

  const MaxQueue := 5000
  const BatchSize := 50

  datatype Level = Trace | Debug | Info | Warn | Error | Fatal | Log

  /** One queued event. The free-form fields, host and version details are
      not modelled; `interactionId` is "" when there is none. */
  datatype LogEvent = LogEvent(ts: Instant, level: Level, message: string, userId: string, interactionId: string)

  /** The level an electron-log method is forwarded with; the wrapped
      methods are `info`, `warn`, `error`, `debug`, `verbose`, `silly` and
      `log`, and anything else falls back to `info`. */
  function ElectronLevel(methodName: string): (l: Level)
    ensures l in {Debug, Info, Warn, Error}
    ensures methodName in {"verbose", "silly", "debug"} <==> l == Debug
    ensures methodName == "warn" <==> l == Warn
    ensures methodName == "error" <==> l == Error
  {
    if methodName in {"verbose", "silly", "debug"} then Debug
    else if methodName == "warn" then Warn
    else if methodName == "error" then Error
    else Info
  }

  /** The level a console method is forwarded with. */
  function ConsoleLevel(methodName: string): (l: Option<Level>)
    ensures l.Some? <==> methodName in {"log", "info", "warn", "error"}
    ensures methodName == "log" ==> l == Some(Log)
    ensures methodName == "info" ==> l == Some(Info)
    ensures methodName == "warn" ==> l == Some(Warn)
    ensures methodName == "error" ==> l == Some(Error)
  {
    match methodName
    case "log" => Some(Log)
    case "info" => Some(Info)
    case "warn" => Some(Warn)
    case "error" => Some(Error)
    case _ => None
  }

  /** The queue after pushing `e`: only its last 5000 events are kept. */
  function Pushed(q: seq<LogEvent>, e: LogEvent): (r: seq<LogEvent>)
    ensures |r| <= MaxQueue && r != [] && r[|r| - 1] == e
    ensures exists k :: 0 <= k <= |q| && r == q[k..] + [e]
    ensures |q| < MaxQueue ==> r == q + [e]
    ensures |q| >= MaxQueue ==> |r| == MaxQueue
  {
    var full := q + [e];
    if |full| > MaxQueue then
      assert full[|full| - MaxQueue..] == q[|full| - MaxQueue..] + [e];
      full[|full| - MaxQueue..]
    else
      assert full == q[0..] + [e];
      full
  }

  /** How a send ends: no base URL configured (nothing is posted), an HTTP
      status, or a network error. */
  datatype SendOutcome = NoBaseUrl | Status(code: int) | NetworkError

  /** `res.ok || res.status === 204`. */
  predicate Delivered(o: SendOutcome) {
    o.Status? && ((200 <= o.code <= 299) || o.code == 204)
  }

  /** The number of events one flush sends. */
  function BatchLength(q: seq<LogEvent>): (n: nat)
    ensures n <= BatchSize && n <= |q|
    ensures q != [] ==> n > 0
    ensures |q| >= BatchSize ==> n == BatchSize
  {
    if |q| < BatchSize then |q| else BatchSize
  }

  /** The queue after a whole flush with no logging during the send: the
      batch is dropped only when the server accepted it. */
  function Flushed(q: seq<LogEvent>, o: SendOutcome): (r: seq<LogEvent>)
    ensures Delivered(o) ==> q == q[..BatchLength(q)] + r
    ensures !Delivered(o) ==> r == q
    ensures |r| <= |q|
  {
    if Delivered(o) then q[BatchLength(q)..] else q
  }

  /** Flushing repeatedly with every send accepted drains any queue. */
  lemma {:induction false} FlushesDrain(q: seq<LogEvent>, n: nat)
    requires n * BatchSize >= |q|
    ensures FlushedTimes(q, n) == []
    decreases n
  {
    if n > 0 && q != [] {
      var r := Flushed(q, Status(204));
      assert |r| == |q| - BatchLength(q);
      FlushesDrain(r, n - 1);
    }
  }

  /** `n` flushes in a row, each accepted. */
  function FlushedTimes(q: seq<LogEvent>, n: nat): seq<LogEvent>
    decreases n
  {
    if n == 0 || q == [] then q else FlushedTimes(Flushed(q, Status(204)), n - 1)
  }

  class RemoteLog {
    var queue: seq<LogEvent>
    /** The copy of the queue last written to the store. */
    var persisted: seq<LogEvent>
    var isSending: bool
    /** The size of the batch in flight (the `take` of the running flush). */
    var taken: nat
    var timerArmed: bool

    ghost predicate Valid()
      reads this
    {
      isSending ==> 0 < taken <= |queue| && taken <= BatchSize
    }

    /** `initializeLogging`: the queue starts from the stored events (not
        cut to the bound), and a flush is scheduled when there are any. */
    constructor(stored: Option<seq<LogEvent>>)
      ensures Valid()
      ensures queue == (if stored.Some? then stored.value else [])
      ensures persisted == queue && !isSending
      ensures timerArmed <==> queue != []
    {
      queue := if stored.Some? then stored.value else [];
      persisted := if stored.Some? then stored.value else [];
      isSending := false;
      taken := 0;
      timerArmed := if stored.Some? then stored.value != [] else false;
    }

    /** A wrapped log call: the event is pushed, the queue cut back to
        its newest 5000 events, and a flush scheduled unless one is. */
    method Enqueue(e: LogEvent)
      requires Valid()
      modifies this
      ensures Valid()
      ensures queue == Pushed(old(queue), e)
      ensures |queue| <= MaxQueue && queue[|queue| - 1] == e
      ensures timerArmed
      ensures persisted == old(persisted) && isSending == old(isSending) && taken == old(taken)
    {
      queue := queue + [e];
      if |queue| > MaxQueue {
        queue := queue[|queue| - MaxQueue..];
      }
      timerArmed := true;
    }

    /** The start of `flush()`: nothing happens while a send is in flight
        or when the queue is empty; otherwise the first min(50, length)
        events form the batch and the send begins. */
    method StartFlush() returns (batch: seq<LogEvent>)
      requires Valid()
      modifies this
      ensures Valid()
      ensures queue == old(queue) && persisted == old(persisted) && timerArmed == old(timerArmed)
      ensures old(isSending) || old(queue) == [] ==>
        batch == [] && isSending == old(isSending) && taken == old(taken)
      ensures !old(isSending) && old(queue) != [] ==>
        isSending && taken == BatchLength(queue) && batch == queue[..taken]
    {
      if isSending || |queue| == 0 {
        return [];
      }
      isSending := true;
      taken := BatchLength(queue);
      batch := queue[..taken];
    }

    /** The end of `flush()`: on an accepted response the first `take`
        events are removed and the queue persisted; otherwise the queue is
        left as it is. The send is over either way. */
    method FinishFlush(outcome: SendOutcome)
      requires Valid() && isSending
      modifies this
      ensures Valid() && !isSending
      ensures Delivered(outcome) ==> queue == old(queue)[old(taken)..] && persisted == queue
      ensures !Delivered(outcome) ==> queue == old(queue) && persisted == old(persisted)
      ensures timerArmed == old(timerArmed)
    {
      if Delivered(outcome) {
        queue := queue[taken..];
        persisted := queue;
      }
      isSending := false;
    }

    /** The flush timer's callback, with a flush that runs to completion:
        the timer is cleared, the flush runs, and another is scheduled
        while events remain. */
    method TimerFired(outcome: SendOutcome)
      requires Valid()
      modifies this
      ensures Valid()
      ensures !old(isSending) ==> queue == Flushed(old(queue), outcome) && !isSending
      ensures old(isSending) ==> queue == old(queue) && isSending
      ensures timerArmed <==> queue != []
    {
      var wasSending, wasEmpty := isSending, |queue| == 0;
      timerArmed := false;
      var batch := StartFlush();
      if !wasSending && !wasEmpty {
        FinishFlush(outcome);
      }
      if |queue| > 0 {
        timerArmed := true;
      }
    }

    /** The 30-second safety net: a non-empty queue is written to the
        store. */
    method PersistTick()
      modifies this
      ensures queue != [] ==> persisted == queue
      ensures queue == [] ==> persisted == old(persisted)
      ensures queue == old(queue) && isSending == old(isSending) && taken == old(taken) && timerArmed == old(timerArmed)
    {
      if |queue| > 0 {
        persisted := queue;
      }
    }
  }

  /** Logging while a send is in flight leaves the batch at the head of
      the queue as long as the queue is below its bound, so the events the
      completion removes are the ones that were sent. */
  lemma PushKeepsBatch(q: seq<LogEvent>, e: LogEvent, k: nat)
    requires k <= |q| < MaxQueue
    ensures |Pushed(q, e)| > k && Pushed(q, e)[..k] == q[..k]
  {
  }
}
