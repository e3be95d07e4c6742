/**
 The audit dispatcher: a bounded queue between recorders that never block and one worker
 that writes each event to every sink.
 */
module Audit {
  import opened Options

  type Event = nat

  datatype Worker = Idle | Writing(event: Event, sink: nat) | Stopped

  /** `accepted` are all events that entered the queue; `written[j]` is what sink j was given. */
  datatype State = State(
    capacity: nat,
    queue: seq<Event>,
    closed: bool,
    worker: Worker,
    written: seq<seq<Event>>,
    sinksClosed: bool,
    records: nat,
    dropped: nat,
    ignored: nat,
    accepted: seq<Event>)

  datatype Step =
    | Record(event: Event)
    | Shut
    | Take
    | Write
    | Stop
    | CloseSinks

  function Init(capacity: nat, sinks: nat): State {
    State(capacity, [], false, Idle, seq(sinks, _ => []), false, 0, 0, 0, [])
  }

  function DoRecord(s: State, e: Event): State {
    if s.closed then s.(records := s.records + 1, ignored := s.ignored + 1)
    else if |s.queue| < s.capacity then
      s.(records := s.records + 1, queue := s.queue + [e], accepted := s.accepted + [e])
    else s.(records := s.records + 1, dropped := s.dropped + 1)
  }

  /** `Record` holds the read lock and `Shut` the write lock throughout, so each is one step. */
  function Next(s: State, step: Step): Option<State> {
    match step
    case Record(e) => Some(DoRecord(s, e))
    case Shut => Some(s.(closed := true))
    case Take =>
      if !s.worker.Idle? || s.queue == [] then None
      else Some(s.(worker := Writing(s.queue[0], 0), queue := s.queue[1..]))
    case Write =>
      if !s.worker.Writing? then None
      else
        var j := s.worker.sink;
        if j < |s.written| then
          Some(s.(worker := Writing(s.worker.event, j + 1),
                  written := s.written[j := s.written[j] + [s.worker.event]]))
        else Some(s.(worker := Idle))
    case Stop =>
      if s.worker.Idle? && s.queue == [] && s.closed then Some(s.(worker := Stopped)) else None
    case CloseSinks =>
      if s.worker.Stopped? then Some(s.(sinksClosed := true)) else None
  }

  /** What sink `j` still has to be given of the event in hand. */
  function Owed(w: Worker, j: nat): seq<Event> {
    if w.Writing? && j >= w.sink then [w.event] else []
  }

  ghost predicate Inv(s: State) {
    && |s.queue| <= s.capacity
    && s.records == |s.accepted| + s.dropped + s.ignored
    && (s.worker.Writing? ==> s.worker.sink <= |s.written|)
    && (s.worker.Stopped? ==> s.closed && s.queue == [])
    && (s.sinksClosed ==> s.worker.Stopped?)
    && (forall j | 0 <= j < |s.written| :: s.accepted == s.written[j] + Owed(s.worker, j) + s.queue)
  }

  lemma StepKeepsInv(s: State, step: Step)
    requires Inv(s) && Next(s, step).Some?
    ensures Inv(Next(s, step).value) && |Next(s, step).value.written| == |s.written|
  {
    var next := Next(s, step).value;
    forall j | 0 <= j < |next.written|
      ensures next.accepted == next.written[j] + Owed(next.worker, j) + next.queue
    {
      assert s.accepted == s.written[j] + Owed(s.worker, j) + s.queue;
      match step {
        case Record(e) => AcceptKeeps(s.written[j], Owed(s.worker, j), s.queue, e);
        case Take => TakeKeeps(s.written[j], s.queue);
        case Write => WriteKeeps(s.written[j], s.worker.event, s.queue);
        case Shut =>
        case Stop =>
        case CloseSinks =>
      }
    }
  }

  lemma AcceptKeeps(written: seq<Event>, owed: seq<Event>, queue: seq<Event>, e: Event)
    ensures written + owed + queue + [e] == written + owed + (queue + [e])
  {
  }

  lemma TakeKeeps(written: seq<Event>, queue: seq<Event>)
    requires queue != []
    ensures written + [] + queue == written + [queue[0]] + queue[1..]
  {
    assert queue == [queue[0]] + queue[1..];
  }

  lemma WriteKeeps(written: seq<Event>, e: Event, queue: seq<Event>)
    ensures written + [e] + queue == (written + [e]) + [] + queue
  {
  }

  ghost predicate IsRun(run: seq<State>, steps: seq<Step>, capacity: nat, sinks: nat) {
    && |run| == |steps| + 1
    && run[0] == Init(capacity, sinks)
    && forall k | 0 <= k < |steps| :: Next(run[k], steps[k]) == Some(run[k + 1])
  }

  lemma {:induction false} RunKeepsInv(run: seq<State>, steps: seq<Step>, capacity: nat, sinks: nat, k: nat)
    requires IsRun(run, steps, capacity, sinks) && k < |run|
    ensures Inv(run[k]) && |run[k].written| == sinks && run[k].capacity == capacity
  {
    if k > 0 {
      RunKeepsInv(run, steps, capacity, sinks, k - 1);
      assert Next(run[k - 1], steps[k - 1]) == Some(run[k - 1 + 1]);
      StepKeepsInv(run[k - 1], steps[k - 1]);
    }
  }

  /**
   Conservation: every event recorded was accepted, dropped or came after closing, and at
   any time each sink has been given the accepted events in order, except the one in hand and those queued.
   */
  lemma EventsAreConserved(run: seq<State>, steps: seq<Step>, capacity: nat, sinks: nat, k: nat, j: nat)
    requires IsRun(run, steps, capacity, sinks) && k < |run| && j < sinks
    ensures var s := run[k];
            && j < |s.written|
            && s.accepted == s.written[j] + Owed(s.worker, j) + s.queue
            && s.records == |s.accepted| + s.dropped + s.ignored
            && |s.queue| <= capacity
  {
    RunKeepsInv(run, steps, capacity, sinks, k);
  }

  /** When the sinks are closed, each has been given every accepted event, once and in order. */
  lemma ClosedSinksHaveEverything(run: seq<State>, steps: seq<Step>, capacity: nat, sinks: nat, k: nat, j: nat)
    requires IsRun(run, steps, capacity, sinks) && k < |run| && j < sinks
    requires run[k].worker.Stopped? || run[k].sinksClosed
    ensures j < |run[k].written| && run[k].written[j] == run[k].accepted
  {
    RunKeepsInv(run, steps, capacity, sinks, k);
    var s := run[k];
    assert s.written[j] + [] + [] == s.written[j];
  }

  /** Closing is final: from then on nothing is accepted or dropped, and the sinks are never written to again. */
  lemma {:induction false} NothingIsAcceptedAfterClosing(
      run: seq<State>, steps: seq<Step>, capacity: nat, sinks: nat, k: nat, m: nat)
    requires IsRun(run, steps, capacity, sinks) && k <= m < |run| && run[k].closed
    ensures run[m].closed && run[m].accepted == run[k].accepted && run[m].dropped == run[k].dropped
    ensures run[k].sinksClosed ==> run[m].sinksClosed && run[m].written == run[k].written
    decreases m - k
  {
    if k < m {
      NothingIsAcceptedAfterClosing(run, steps, capacity, sinks, k, m - 1);
      RunKeepsInv(run, steps, capacity, sinks, m - 1);
      assert Next(run[m - 1], steps[m - 1]) == Some(run[m - 1 + 1]);
    }
  }

  /** A record is ignored exactly after closing, accepted exactly while there is room, and else dropped. */
  lemma RecordOutcome(s: State, e: Event)
    ensures Next(s, Record(e)).Some?
    ensures var t := Next(s, Record(e)).value;
            && t.records == s.records + 1
            && (t.ignored == s.ignored + 1 <==> s.closed)
            && (t.accepted == s.accepted + [e] && t.queue == s.queue + [e] <==> !s.closed && |s.queue| < s.capacity)
            && (t.dropped == s.dropped + 1 <==> !s.closed && s.capacity <= |s.queue|)
  {
  }

  /** What is still to be written, counted in writes, takes and the final stop. */
  function Work(s: State): nat {
    |s.queue| * (|s.written| + 2)
    + (match s.worker
       case Idle => 1
       case Writing(_, j) => if j <= |s.written| then |s.written| - j + 2 else 2
       case Stopped => 0)
  }

  /** The worker's next step. */
  function WorkerStep(s: State): Step {
    if s.worker.Writing? then Write else if s.queue != [] then Take else Stop
  }

  lemma WorkShrinks(s: State)
    requires Inv(s) && !s.worker.Stopped? && (s.closed || s.queue != [] || s.worker.Writing?)
    ensures Next(s, WorkerStep(s)).Some?
    ensures Work(Next(s, WorkerStep(s)).value) < Work(s)
    ensures Next(s, WorkerStep(s)).value.closed == s.closed
  {
    if s.worker.Idle? && s.queue != [] {
      var n := |s.written| + 2;
      assert |s.queue| * n == |s.queue[1..]| * n + n;
    }
  }

  /** Once the queue is shut, the worker left to itself gives every sink everything accepted, and stops. */
  lemma {:induction false} ShutQueueIsDrained(s: State) returns (end: State, steps: seq<Step>)
    requires Inv(s) && s.closed
    ensures Inv(end) && end.worker.Stopped? && end.accepted == s.accepted && |end.written| == |s.written|
    ensures forall j | 0 <= j < |end.written| :: end.written[j] == s.accepted
    ensures Leads(s, steps, end)
    decreases Work(s)
  {
    if s.worker.Stopped? {
      end, steps := s, [];
      forall j | 0 <= j < |end.written|
        ensures end.written[j] == s.accepted
      {
        assert s.accepted == s.written[j] + Owed(s.worker, j) + s.queue;
        assert s.written[j] + [] + [] == s.written[j];
      }
    } else {
      WorkShrinks(s);
      StepKeepsInv(s, WorkerStep(s));
      var rest;
      end, rest := ShutQueueIsDrained(Next(s, WorkerStep(s)).value);
      steps := [WorkerStep(s)] + rest;
      assert steps[1..] == rest;
    }
  }

  ghost predicate Leads(s: State, steps: seq<Step>, end: State)
    decreases |steps|
  {
    if steps == [] then s == end
    else Next(s, steps[0]).Some? && Leads(Next(s, steps[0]).value, steps[1..], end)
  }
}
