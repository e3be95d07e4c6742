/**
 Stored user grants and their refresh.  Any number of token requests, invalidations,
 completions and disconnections interleave; every access to the token store and every
 critical section is one step.
 */
module Grants {
  import opened Options

  type Key = nat
  type ThreadId = nat
  type FlightId = nat
  type Time = int

  /** A token string; `EMPTY` is the empty one. */
  type Text = nat

  const EMPTY: Text := 0

  datatype Grant = Grant(access: Text, refresh: Text, expiresAt: Time)

  const NO_GRANT := Grant(EMPTY, EMPTY, 0)

  /** An access token the authorization server has issued, with its expiry. */
  datatype Issue = Issue(access: Text, expiresAt: Time)

  datatype Failure = Endpoint(transient: bool, grantInvalid: bool) | Other

  datatype Response =
    | Tokens(access: Text, refresh: Text, expiresAt: Time, now: Time)
    | Rejected(failure: Failure)

  /** What a token request returns; an access token with its expiry and the time it was checked against. */
  datatype Result = Token(access: Text, expiresAt: Time, checkedAt: Time) | Error

  /** The tokens of a response; a refresh token it omits is carried over. */
  function Parse(response: Response, previous: Grant): Option<Grant> {
    if response.Rejected? || response.access == EMPTY || response.expiresAt <= response.now then None
    else Some(Grant(response.access,
                    if response.refresh == EMPTY then previous.refresh else response.refresh,
                    response.expiresAt))
  }

  function FailureOf(response: Response): Failure {
    if response.Rejected? then response.failure else Other
  }

  datatype Phase =
    | Requesting
    | Received(refreshed: Grant, now: Time)
    | Failing(failure: Failure)
    | Deleting
    | Finishing(result: Result)

  datatype Thread =
    | Loaded(key: Key, found: Option<Grant>)
    | Stale(key: Key, grant: Grant)
    | Waiting(flight: FlightId)
    | Leading(key: Key, flight: FlightId, grant: Grant, phase: Phase)
    | Returned(result: Result, via: Option<FlightId>)
    | Saving(key: Key, grant: Grant)
    | Done

  type Store = map<Key, Grant>
  type Threads = map<ThreadId, Thread>
  type Results = map<FlightId, Result>
  type Flights = map<Key, FlightId>

  datatype State = State(
    store: Store,
    flights: Flights,
    results: Results,
    nextFlight: FlightId,
    threads: Threads,
    issued: set<Issue>)

  datatype Step =
    | Load(thread: ThreadId, key: Key)
    | Check(thread: ThreadId, now: Time, skew: nat)
    | Enter(thread: ThreadId)
    | CancelWait(thread: ThreadId)
    | Wake(thread: ThreadId)
    | Respond(thread: ThreadId, response: Response)
    | SaveRefreshed(thread: ThreadId, ok: bool)
    | HandleFailure(thread: ThreadId, now: Time)
    | DeleteGrant(thread: ThreadId, ok: bool)
    | Finish(thread: ThreadId)
    | InvalidateLoad(thread: ThreadId, key: Key)
    | CompleteExchange(thread: ThreadId, key: Key, response: Response)
    | SaveOther(thread: ThreadId, ok: bool)
    | Disconnect(key: Key, ok: bool)

  function Init(): State {
    State(map[], map[], map[], 0, map[], {})
  }

  function Find(store: Store, k: Key): Option<Grant> {
    if k in store then Some(store[k]) else None
  }

  /** The store refuses a grant without any token. */
  function Saved(store: Store, k: Key, g: Grant, ok: bool): Store {
    if !ok || (g.access == EMPTY && g.refresh == EMPTY) then store else store[k := g]
  }

  function AfterCheck(k: Key, found: Option<Grant>, now: Time, skew: nat): Thread {
    if found.Some? && found.value.access != EMPTY && found.value.expiresAt > now + skew then
      Returned(Token(found.value.access, found.value.expiresAt, now), None)
    else if found.None? || found.value.refresh == EMPTY then Returned(Error, None)
    else Stale(k, found.value)
  }

  /** A failed refresh falls back to an old access token that is still good, or gives the grant up. */
  function AfterFailure(g: Grant, failure: Failure, now: Time): Phase {
    if g.access != EMPTY && g.expiresAt > now && failure.Endpoint? && failure.transient then
      Finishing(Token(g.access, g.expiresAt, now))
    else if failure.Endpoint? && failure.grantInvalid then Deleting
    else Finishing(Error)
  }

  function SetThread(s: State, t: ThreadId, thread: Thread): State {
    s.(threads := s.threads[t := thread])
  }

  function SetPhase(s: State, t: ThreadId, phase: Phase): State
    requires t in s.threads && s.threads[t].Leading?
  {
    s.(threads := s.threads[t := s.threads[t].(phase := phase)])
  }

  function Issuing(issued: set<Issue>, g: Grant): set<Issue> {
    issued + {Issue(g.access, g.expiresAt)}
  }

  function DoEnter(s: State, t: ThreadId, k: Key, g: Grant): State {
    if k in s.flights then SetThread(s, t, Waiting(s.flights[k]))
    else s.(flights := s.flights[k := s.nextFlight], nextFlight := s.nextFlight + 1,
            threads := s.threads[t := Leading(k, s.nextFlight, g, Requesting)])
  }

  function DoRespond(s: State, t: ThreadId, response: Response): State
    requires t in s.threads && s.threads[t].Leading?
  {
    var parsed := Parse(response, s.threads[t].grant);
    if parsed.None? then SetPhase(s, t, Failing(FailureOf(response)))
    else SetPhase(s, t, Received(parsed.value, response.now)).(issued := Issuing(s.issued, parsed.value))
  }

  function DoFinish(s: State, t: ThreadId): State
    requires t in s.threads && s.threads[t].Leading? && s.threads[t].phase.Finishing?
  {
    var leader := s.threads[t];
    s.(flights := s.flights - {leader.key}, results := s.results[leader.flight := leader.phase.result],
       threads := s.threads[t := Returned(leader.phase.result, Some(leader.flight))])
  }

  function DoComplete(s: State, t: ThreadId, k: Key, response: Response): State {
    var parsed := Parse(response, NO_GRANT);
    if parsed.None? then s
    else if parsed.value.refresh == EMPTY then s.(issued := Issuing(s.issued, parsed.value))
    else SetThread(s, t, Saving(k, parsed.value)).(issued := Issuing(s.issued, parsed.value))
  }

  predicate InPhase(s: State, t: ThreadId) {
    t in s.threads && s.threads[t].Leading?
  }

  function Next(s: State, step: Step): Option<State> {
    match step
    case Load(t, k) =>
      if t in s.threads then None else Some(SetThread(s, t, Loaded(k, Find(s.store, k))))
    case Check(t, now, skew) =>
      if t !in s.threads || !s.threads[t].Loaded? then None
      else Some(SetThread(s, t, AfterCheck(s.threads[t].key, s.threads[t].found, now, skew)))
    case Enter(t) =>
      if t !in s.threads || !s.threads[t].Stale? then None
      else Some(DoEnter(s, t, s.threads[t].key, s.threads[t].grant))
    case CancelWait(t) =>
      if t !in s.threads || !s.threads[t].Waiting? then None else Some(SetThread(s, t, Returned(Error, None)))
    case Wake(t) =>
      if t !in s.threads || !s.threads[t].Waiting? || s.threads[t].flight !in s.results then None
      else Some(SetThread(s, t, Returned(s.results[s.threads[t].flight], Some(s.threads[t].flight))))
    case Respond(t, response) =>
      if !InPhase(s, t) || !s.threads[t].phase.Requesting? then None else Some(DoRespond(s, t, response))
    case SaveRefreshed(t, ok) =>
      if !InPhase(s, t) || !s.threads[t].phase.Received? then None
      else
        var g := s.threads[t].phase.refreshed;
        var phase := if ok then Finishing(Token(g.access, g.expiresAt, s.threads[t].phase.now)) else Failing(Other);
        Some(SetPhase(s, t, phase).(store := Saved(s.store, s.threads[t].key, g, ok)))
    case HandleFailure(t, now) =>
      if !InPhase(s, t) || !s.threads[t].phase.Failing? then None
      else Some(SetPhase(s, t, AfterFailure(s.threads[t].grant, s.threads[t].phase.failure, now)))
    case DeleteGrant(t, ok) =>
      if !InPhase(s, t) || !s.threads[t].phase.Deleting? then None
      else Some(SetPhase(s, t, Finishing(Error)).(store := if ok then s.store - {s.threads[t].key} else s.store))
    case Finish(t) =>
      if !InPhase(s, t) || !s.threads[t].phase.Finishing? then None else Some(DoFinish(s, t))
    case InvalidateLoad(t, k) =>
      if t in s.threads then None
      else if k !in s.store then Some(s)
      else Some(SetThread(s, t, Saving(k, Grant(EMPTY, s.store[k].refresh, 0))))
    case CompleteExchange(t, k, response) =>
      if t in s.threads then None else Some(DoComplete(s, t, k, response))
    case SaveOther(t, ok) =>
      if t !in s.threads || !s.threads[t].Saving? then None
      else Some(SetThread(s, t, Done).(store := Saved(s.store, s.threads[t].key, s.threads[t].grant, ok)))
    case Disconnect(k, ok) =>
      Some(s.(store := if ok then s.store - {k} else s.store))
  }

  // ---------------------------------------------------------------------------
  // The invariant
  // ---------------------------------------------------------------------------

  /** A grant that can be renewed, whose access token, if any, is one the server issued. */
  ghost predicate GrantOk(g: Grant, issued: set<Issue>) {
    g.refresh != EMPTY && (g.access != EMPTY ==> Issue(g.access, g.expiresAt) in issued)
  }

  ghost predicate StoreOk(store: Store, issued: set<Issue>) {
    forall k | k in store :: GrantOk(store[k], issued)
  }

  /** A returned access token was issued by the server and unexpired when it was checked. */
  ghost predicate ResultOk(r: Result, issued: set<Issue>) {
    r.Token? ==> r.access != EMPTY && r.checkedAt < r.expiresAt && Issue(r.access, r.expiresAt) in issued
  }

  ghost predicate ResultsOk(results: Results, issued: set<Issue>) {
    forall f | f in results :: ResultOk(results[f], issued)
  }

  ghost predicate PhaseOk(phase: Phase, issued: set<Issue>) {
    match phase
    case Requesting => true
    case Received(g, now) => GrantOk(g, issued) && g.access != EMPTY && now < g.expiresAt
    case Failing(_) => true
    case Deleting => true
    case Finishing(r) => ResultOk(r, issued)
  }

  ghost predicate ThreadOk(thread: Thread, issued: set<Issue>, results: Results) {
    match thread
    case Loaded(_, found) => found.Some? ==> GrantOk(found.value, issued)
    case Stale(_, g) => GrantOk(g, issued)
    case Waiting(_) => true
    case Leading(_, _, g, phase) => GrantOk(g, issued) && PhaseOk(phase, issued)
    case Returned(r, via) => ResultOk(r, issued) && (via.Some? ==> via.value in results && results[via.value] == r)
    case Saving(_, g) => GrantOk(g, issued)
    case Done => true
  }

  ghost predicate ThreadsOk(threads: Threads, issued: set<Issue>, results: Results) {
    forall t | t in threads :: ThreadOk(threads[t], issued, results)
  }

  ghost predicate Leads(threads: Threads, t: ThreadId, k: Key, f: FlightId) {
    t in threads && threads[t].Leading? && threads[t].key == k && threads[t].flight == f
  }

  /** Each flight has its one leader, and each leader its flight. */
  ghost predicate FlightsOk(flights: Flights, results: Results, nextFlight: FlightId, threads: Threads) {
    && (forall k | k in flights :: flights[k] < nextFlight && flights[k] !in results)
    && (forall f | f in results :: f < nextFlight)
    && (forall k | k in flights :: exists t :: Leads(threads, t, k, flights[k]))
    && (forall t | t in threads && threads[t].Leading? ::
          threads[t].key in flights && flights[threads[t].key] == threads[t].flight)
    && (forall t, u | t in threads && u in threads && threads[t].Leading? && threads[u].Leading? && t != u ::
          threads[t].flight != threads[u].flight)
  }

  /** Whoever waits, waits for a running flight or a result. */
  ghost predicate WaitersOk(flights: Flights, results: Results, threads: Threads) {
    forall t | t in threads && threads[t].Waiting? ::
      threads[t].flight in results || exists k :: k in flights && flights[k] == threads[t].flight
  }

  ghost predicate Inv(s: State) {
    && StoreOk(s.store, s.issued)
    && ResultsOk(s.results, s.issued)
    && ThreadsOk(s.threads, s.issued, s.results)
    && FlightsOk(s.flights, s.results, s.nextFlight, s.threads)
    && WaitersOk(s.flights, s.results, s.threads)
  }

  // --- Lemmas on the components ---

  lemma IssuedGrows(s: State, more: set<Issue>)
    requires Inv(s) && s.issued <= more
    ensures Inv(s.(issued := more))
  {
    forall t | t in s.threads
      ensures ThreadOk(s.threads[t], more, s.results)
    {
      assert ThreadOk(s.threads[t], s.issued, s.results);
    }
  }

  /** `thread` leads the same flight as thread `t` did, or neither leads. */
  ghost predicate SameRole(threads: Threads, t: ThreadId, thread: Thread) {
    if t in threads && threads[t].Leading? then
      thread.Leading? && thread.key == threads[t].key && thread.flight == threads[t].flight
    else !thread.Leading?
  }

  lemma SameRoleKeepsFlights(
      flights: Flights, results: Results, nextFlight: FlightId, threads: Threads, t: ThreadId, thread: Thread)
    requires FlightsOk(flights, results, nextFlight, threads) && SameRole(threads, t, thread)
    ensures FlightsOk(flights, results, nextFlight, threads[t := thread])
  {
    var threads' := threads[t := thread];
    forall k | k in flights
      ensures exists u :: Leads(threads', u, k, flights[k])
    {
      var u :| Leads(threads, u, k, flights[k]);
      assert Leads(threads', u, k, flights[k]);
    }
  }

  lemma MoveKeepsInv(s: State, t: ThreadId, thread: Thread)
    requires Inv(s) && SameRole(s.threads, t, thread) && !thread.Waiting?
    requires ThreadOk(thread, s.issued, s.results)
    ensures Inv(SetThread(s, t, thread))
  {
    SameRoleKeepsFlights(s.flights, s.results, s.nextFlight, s.threads, t, thread);
  }

  lemma StoreMayChange(s: State, store: Store)
    requires Inv(s) && StoreOk(store, s.issued)
    ensures Inv(s.(store := store))
  {
  }

  lemma WaitKeepsInv(s: State, t: ThreadId)
    requires Inv(s) && t in s.threads && s.threads[t].Stale? && s.threads[t].key in s.flights
    ensures Inv(SetThread(s, t, Waiting(s.flights[s.threads[t].key])))
  {
    SameRoleKeepsFlights(s.flights, s.results, s.nextFlight, s.threads, t, Waiting(s.flights[s.threads[t].key]));
  }

  lemma TakeOffKeepsFlights(
      flights: Flights, results: Results, f: FlightId, threads: Threads, t: ThreadId, k: Key, g: Grant)
    requires FlightsOk(flights, results, f, threads) && k !in flights
    requires t in threads && !threads[t].Leading?
    ensures FlightsOk(flights[k := f], results, f + 1, threads[t := Leading(k, f, g, Requesting)])
  {
    var flights', threads' := flights[k := f], threads[t := Leading(k, f, g, Requesting)];
    forall h | h in flights'
      ensures exists u :: Leads(threads', u, h, flights'[h])
    {
      if h == k {
        assert Leads(threads', t, k, f);
      } else {
        var u :| Leads(threads, u, h, flights[h]);
        assert Leads(threads', u, h, flights'[h]);
      }
    }
  }

  lemma TakeOffKeepsInv(s: State, t: ThreadId)
    requires Inv(s) && t in s.threads && s.threads[t].Stale? && s.threads[t].key !in s.flights
    ensures Inv(DoEnter(s, t, s.threads[t].key, s.threads[t].grant))
  {
    var k, g := s.threads[t].key, s.threads[t].grant;
    assert ThreadOk(s.threads[t], s.issued, s.results);
    TakeOffKeepsFlights(s.flights, s.results, s.nextFlight, s.threads, t, k, g);
    TakeOffKeepsWaiters(s.flights, s.results, s.threads, t, k, s.nextFlight, Leading(k, s.nextFlight, g, Requesting));
  }

  lemma TakeOffKeepsWaiters(
      flights: Flights, results: Results, threads: Threads, t: ThreadId, k: Key, f: FlightId, thread: Thread)
    requires WaitersOk(flights, results, threads) && k !in flights && !thread.Waiting?
    ensures WaitersOk(flights[k := f], results, threads[t := thread])
  {
    var flights' := flights[k := f];
    forall u | u in threads && threads[u].Waiting? && threads[u].flight !in results
      ensures exists h :: h in flights' && flights'[h] == threads[u].flight
    {
      var h :| h in flights && flights[h] == threads[u].flight;
      assert h in flights' && flights'[h] == threads[u].flight;
    }
  }

  lemma LandingKeepsFlights(
      flights: Flights, results: Results, nextFlight: FlightId, threads: Threads, t: ThreadId, r: Result)
    requires FlightsOk(flights, results, nextFlight, threads) && t in threads && threads[t].Leading?
    ensures var leader := threads[t];
            FlightsOk(flights - {leader.key}, results[leader.flight := r], nextFlight,
                      threads[t := Returned(r, Some(leader.flight))])
  {
    var leader := threads[t];
    var flights', results', threads' :=
      flights - {leader.key}, results[leader.flight := r], threads[t := Returned(r, Some(leader.flight))];
    assert Leads(threads, t, leader.key, leader.flight);
    forall k | k in flights'
      ensures flights'[k] !in results' && exists u :: Leads(threads', u, k, flights'[k])
    {
      var u :| Leads(threads, u, k, flights[k]);
      assert Leads(threads', u, k, flights'[k]);
    }
    forall u | u in threads' && threads'[u].Leading?
      ensures threads'[u].key in flights' && flights'[threads'[u].key] == threads'[u].flight
    {
      assert threads[u].flight != leader.flight;
    }
  }

  lemma LandingKeepsWaiters(flights: Flights, results: Results, threads: Threads, t: ThreadId, r: Result)
    requires WaitersOk(flights, results, threads) && t in threads && threads[t].Leading?
    requires threads[t].key in flights && flights[threads[t].key] == threads[t].flight
    ensures var leader := threads[t];
            WaitersOk(flights - {leader.key}, results[leader.flight := r],
                      threads[t := Returned(r, Some(leader.flight))])
  {
    var leader := threads[t];
    var flights', results' := flights - {leader.key}, results[leader.flight := r];
    forall u | u in threads && threads[u].Waiting?
      ensures threads[u].flight in results' || exists k :: k in flights' && flights'[k] == threads[u].flight
    {
      if threads[u].flight !in results' {
        var k :| k in flights && flights[k] == threads[u].flight;
        assert k in flights' && flights'[k] == threads[u].flight;
      }
    }
  }

  lemma LandingKeepsThreads(threads: Threads, issued: set<Issue>, results: Results, t: ThreadId, f: FlightId, r: Result)
    requires ThreadsOk(threads, issued, results) && f !in results && ResultOk(r, issued)
    ensures ThreadsOk(threads[t := Returned(r, Some(f))], issued, results[f := r])
  {
    forall u | u in threads
      ensures ThreadOk(threads[u], issued, results[f := r])
    {
      assert ThreadOk(threads[u], issued, results);
    }
  }

  lemma FinishKeepsInv(s: State, t: ThreadId)
    requires Inv(s) && t in s.threads && s.threads[t].Leading? && s.threads[t].phase.Finishing?
    ensures Inv(DoFinish(s, t))
  {
    var leader := s.threads[t];
    var r := leader.phase.result;
    assert ThreadOk(leader, s.issued, s.results);
    LandingKeepsFlights(s.flights, s.results, s.nextFlight, s.threads, t, r);
    LandingKeepsWaiters(s.flights, s.results, s.threads, t, r);
    LandingKeepsThreads(s.threads, s.issued, s.results, t, leader.flight, r);
  }

  lemma PhaseKeepsInv(s: State, t: ThreadId, phase: Phase)
    requires Inv(s) && t in s.threads && s.threads[t].Leading? && PhaseOk(phase, s.issued)
    ensures Inv(SetPhase(s, t, phase))
  {
    assert ThreadOk(s.threads[t], s.issued, s.results);
    MoveKeepsInv(s, t, s.threads[t].(phase := phase));
  }

  lemma RespondKeepsInv(s: State, t: ThreadId, response: Response)
    requires Inv(s) && t in s.threads && s.threads[t].Leading?
    ensures Inv(DoRespond(s, t, response))
  {
    assert ThreadOk(s.threads[t], s.issued, s.results);
    var parsed := Parse(response, s.threads[t].grant);
    if parsed.None? {
      PhaseKeepsInv(s, t, Failing(FailureOf(response)));
    } else {
      IssuedGrows(s, Issuing(s.issued, parsed.value));
      PhaseKeepsInv(s.(issued := Issuing(s.issued, parsed.value)), t, Received(parsed.value, response.now));
    }
  }

  lemma CompleteKeepsInv(s: State, t: ThreadId, k: Key, response: Response)
    requires Inv(s) && t !in s.threads
    ensures Inv(DoComplete(s, t, k, response))
  {
    var parsed := Parse(response, NO_GRANT);
    if parsed.Some? {
      IssuedGrows(s, Issuing(s.issued, parsed.value));
      if parsed.value.refresh != EMPTY {
        MoveKeepsInv(s.(issued := Issuing(s.issued, parsed.value)), t, Saving(k, parsed.value));
      }
    }
  }

  /** Steps of the flight's leader. */
  predicate IsLeaderStep(step: Step) {
    step.Respond? || step.SaveRefreshed? || step.HandleFailure? || step.DeleteGrant? || step.Finish?
  }

  lemma LeaderStepKeepsInv(s: State, step: Step)
    requires Inv(s) && IsLeaderStep(step) && Next(s, step).Some?
    ensures Inv(Next(s, step).value)
  {
    var t := step.thread;
    var leader := s.threads[t];
    assert ThreadOk(leader, s.issued, s.results);
    match step
    case Respond(_, response) => RespondKeepsInv(s, t, response);
    case SaveRefreshed(_, ok) =>
      var g := leader.phase.refreshed;
      var phase := if ok then Finishing(Token(g.access, g.expiresAt, leader.phase.now)) else Failing(Other);
      PhaseKeepsInv(s, t, phase);
      StoreMayChange(SetPhase(s, t, phase), Saved(s.store, leader.key, g, ok));
    case HandleFailure(_, now) => PhaseKeepsInv(s, t, AfterFailure(leader.grant, leader.phase.failure, now));
    case DeleteGrant(_, ok) =>
      PhaseKeepsInv(s, t, Finishing(Error));
      StoreMayChange(SetPhase(s, t, Finishing(Error)), if ok then s.store - {leader.key} else s.store);
    case Finish(_) => FinishKeepsInv(s, t);
  }

  /** The other steps of a token request. */
  predicate IsCallerStep(step: Step) {
    step.Load? || step.Check? || step.Enter? || step.CancelWait? || step.Wake?
  }

  lemma CallerStepKeepsInv(s: State, step: Step)
    requires Inv(s) && IsCallerStep(step) && Next(s, step).Some?
    ensures Inv(Next(s, step).value)
  {
    var t := step.thread;
    match step
    case Load(_, k) => MoveKeepsInv(s, t, Loaded(k, Find(s.store, k)));
    case Check(_, now, skew) =>
      assert ThreadOk(s.threads[t], s.issued, s.results);
      MoveKeepsInv(s, t, AfterCheck(s.threads[t].key, s.threads[t].found, now, skew));
    case Enter(_) =>
      if s.threads[t].key in s.flights {
        WaitKeepsInv(s, t);
      } else {
        TakeOffKeepsInv(s, t);
      }
    case CancelWait(_) => MoveKeepsInv(s, t, Returned(Error, None));
    case Wake(_) => MoveKeepsInv(s, t, Returned(s.results[s.threads[t].flight], Some(s.threads[t].flight)));
  }

  lemma OtherStepKeepsInv(s: State, step: Step)
    requires Inv(s) && !IsLeaderStep(step) && !IsCallerStep(step) && Next(s, step).Some?
    ensures Inv(Next(s, step).value)
  {
    match step
    case InvalidateLoad(t, k) =>
      if k in s.store {
        MoveKeepsInv(s, t, Saving(k, Grant(EMPTY, s.store[k].refresh, 0)));
      }
    case CompleteExchange(t, k, response) => CompleteKeepsInv(s, t, k, response);
    case SaveOther(t, ok) =>
      assert ThreadOk(s.threads[t], s.issued, s.results);
      MoveKeepsInv(s, t, Done);
      StoreMayChange(SetThread(s, t, Done), Saved(s.store, s.threads[t].key, s.threads[t].grant, ok));
    case Disconnect(k, ok) => StoreMayChange(s, if ok then s.store - {k} else s.store);
  }

  lemma StepKeepsInv(s: State, step: Step)
    requires Inv(s) && Next(s, step).Some?
    ensures Inv(Next(s, step).value)
  {
    if IsLeaderStep(step) {
      LeaderStepKeepsInv(s, step);
    } else if IsCallerStep(step) {
      CallerStepKeepsInv(s, step);
    } else {
      OtherStepKeepsInv(s, step);
    }
  }

  // ---------------------------------------------------------------------------
  // Runs from an empty store
  // ---------------------------------------------------------------------------

  ghost predicate IsRun(run: seq<State>, steps: seq<Step>) {
    && |run| == |steps| + 1
    && run[0] == Init()
    && forall k | 0 <= k < |steps| :: Next(run[k], steps[k]) == Some(run[k + 1])
  }

  lemma InitHasInv()
    ensures Inv(Init())
  {
  }

  lemma {:induction false} RunKeepsInv(run: seq<State>, steps: seq<Step>, k: nat)
    requires IsRun(run, steps) && k < |run|
    ensures Inv(run[k])
  {
    if k == 0 {
      InitHasInv();
    } else {
      RunKeepsInv(run, steps, k - 1);
      assert Next(run[k - 1], steps[k - 1]) == Some(run[k - 1 + 1]);
      StepKeepsInv(run[k - 1], steps[k - 1]);
    }
  }

  /** Every stored grant can be renewed, whatever refreshes, responses and invalidations came before. */
  lemma StoredGrantsAreRenewable(run: seq<State>, steps: seq<Step>, k: nat, key: Key)
    requires IsRun(run, steps) && k < |run| && key in run[k].store
    ensures run[k].store[key].refresh != EMPTY
    ensures run[k].store[key].access != EMPTY ==>
              Issue(run[k].store[key].access, run[k].store[key].expiresAt) in run[k].issued
  {
    RunKeepsInv(run, steps, k);
    assert GrantOk(run[k].store[key], run[k].issued);
  }

  /** A key has at most one active refresh, and has one exactly while it is marked as refreshing. */
  lemma OneRefreshPerKey(run: seq<State>, steps: seq<Step>, k: nat, t: ThreadId, u: ThreadId)
    requires IsRun(run, steps) && k < |run|
    requires t in run[k].threads && run[k].threads[t].Leading?
    requires u in run[k].threads && run[k].threads[u].Leading? && run[k].threads[u].key == run[k].threads[t].key
    ensures t == u && run[k].threads[t].key in run[k].flights
  {
    RunKeepsInv(run, steps, k);
  }

  /** A key is marked as refreshing only while it is, and every waiter has a result or an active leader. */
  lemma NoFlightIsLeftBehind(run: seq<State>, steps: seq<Step>, k: nat)
    requires IsRun(run, steps) && k < |run|
    ensures forall h | h in run[k].flights :: exists t :: Leads(run[k].threads, t, h, run[k].flights[h])
    ensures forall t | t in run[k].threads && run[k].threads[t].Waiting? ::
              Next(run[k], Wake(t)).Some? || exists u, h :: Leads(run[k].threads, u, h, run[k].threads[t].flight)
  {
    RunKeepsInv(run, steps, k);
    var s := run[k];
    forall t | t in s.threads && s.threads[t].Waiting? && s.threads[t].flight !in s.results
      ensures exists u, h :: Leads(s.threads, u, h, s.threads[t].flight)
    {
      var h :| h in s.flights && s.flights[h] == s.threads[t].flight;
      var u :| Leads(s.threads, u, h, s.flights[h]);
      assert Leads(s.threads, u, h, s.threads[t].flight);
    }
  }

  /** Every access token returned was issued by the server and unexpired when it was checked. */
  lemma ReturnedTokensAreLive(run: seq<State>, steps: seq<Step>, k: nat, t: ThreadId)
    requires IsRun(run, steps) && k < |run|
    requires t in run[k].threads && run[k].threads[t].Returned? && run[k].threads[t].result.Token?
    ensures var r := run[k].threads[t].result;
            r.access != EMPTY && r.checkedAt < r.expiresAt && Issue(r.access, r.expiresAt) in run[k].issued
  {
    RunKeepsInv(run, steps, k);
    assert ThreadOk(run[k].threads[t], run[k].issued, run[k].results);
  }

  /** Everyone who took part in one refresh and was not cancelled got the same result. */
  lemma WaitersShareTheResult(run: seq<State>, steps: seq<Step>, k: nat, t: ThreadId, u: ThreadId)
    requires IsRun(run, steps) && k < |run|
    requires t in run[k].threads && run[k].threads[t].Returned? && run[k].threads[t].via.Some?
    requires u in run[k].threads && run[k].threads[u].Returned? && run[k].threads[u].via == run[k].threads[t].via
    ensures run[k].threads[t].result == run[k].threads[u].result
  {
    RunKeepsInv(run, steps, k);
    assert ThreadOk(run[k].threads[t], run[k].issued, run[k].results);
    assert ThreadOk(run[k].threads[u], run[k].issued, run[k].results);
  }

  // ---------------------------------------------------------------------------
  // What coalescing does not promise
  // ---------------------------------------------------------------------------

  /** The state after one refresh by `t` that was answered with the grant `g`. */
  function AfterRefresh(s: State, t: ThreadId, k: Key, g: Grant, now: Time): State {
    s.(store := s.store[k := g], flights := s.flights - {k}, nextFlight := s.nextFlight + 1,
       results := s.results[s.nextFlight := Token(g.access, g.expiresAt, now)],
       threads := s.threads[t := Returned(Token(g.access, g.expiresAt, now), Some(s.nextFlight))],
       issued := Issuing(s.issued, g))
  }

  lemma RefreshLands(s: State, t: ThreadId, k: Key, g: Grant, now: Time)
    requires t in s.threads && s.threads[t].Stale? && s.threads[t].key == k && k !in s.flights
    requires g.access != EMPTY && g.refresh != EMPTY && g.expiresAt > now
    ensures var s1 := Next(s, Enter(t));
            s1.Some? &&
            var s2 := Next(s1.value, Respond(t, Tokens(g.access, g.refresh, g.expiresAt, now)));
            s2.Some? &&
            var s3 := Next(s2.value, SaveRefreshed(t, true));
            s3.Some? && Next(s3.value, Finish(t)) == Some(AfterRefresh(s, t, k, g, now))
  {
    var loaded := s.threads[t].grant;
    var s1 := Next(s, Enter(t)).value;
    assert s1.threads[t] == Leading(k, s.nextFlight, loaded, Requesting);
    var s2 := Next(s1, Respond(t, Tokens(g.access, g.refresh, g.expiresAt, now))).value;
    assert s2.threads[t] == Leading(k, s.nextFlight, loaded, Received(g, now));
    var s3 := Next(s2, SaveRefreshed(t, true)).value;
    assert s3.threads[t] == Leading(k, s.nextFlight, loaded, Finishing(Token(g.access, g.expiresAt, now)));
    var s4 := Next(s3, Finish(t)).value;
    assert s4.flights == s.flights - {k};
    assert s4.threads == AfterRefresh(s, t, k, g, now).threads;
  }

  // --- When a token that is no longer stored comes back ---

  ghost predicate Stored(s: State, k: Key, r: Text) {
    k in s.store && s.store[k].refresh == r
  }

  /** The thread has a grant with refresh token `r` for `k` that it may yet present or save. */
  predicate Carries(x: Thread, k: Key, r: Text) {
    match x
    case Loaded(key, found) => key == k && found.Some? && found.value.refresh == r
    case Stale(key, g) => key == k && g.refresh == r
    case Leading(key, _, g, phase) =>
      key == k && ((phase.Requesting? && g.refresh == r) || (phase.Received? && phase.refreshed.refresh == r))
    case Saving(key, g) => key == k && g.refresh == r
    case _ => false
  }

  ghost predicate Carried(s: State, k: Key, r: Text) {
    exists t :: t in s.threads && Carries(s.threads[t], k, r)
  }

  /** The thread is presenting refresh token `r` for `k` to the authorization server. */
  predicate Presents(x: Thread, k: Key, r: Text) {
    x.Leading? && x.key == k && x.phase.Requesting? && x.grant.refresh == r
  }

  /** The token is stored, or being presented. */
  ghost predicate InUse(s: State, k: Key, r: Text) {
    Stored(s, k, r) || exists t :: t in s.threads && Presents(s.threads[t], k, r)
  }

  /** The step is a response that issues refresh token `r` for `k`. */
  predicate Issues(s: State, step: Step, k: Key, r: Text) {
    || (step.Respond? && InPhase(s, step.thread) && s.threads[step.thread].key == k
        && step.response.Tokens? && step.response.refresh == r)
    || (step.CompleteExchange? && step.key == k && step.response.Tokens? && step.response.refresh == r)
  }

  function Exec(s: State, steps: seq<Step>): Option<State>
    decreases |steps|
  {
    if steps == [] then Some(s)
    else
      var next := Next(s, steps[0]);
      if next.None? then None else Exec(next.value, steps[1..])
  }

  /** None of the steps issues `r` for `k`. */
  predicate Quiet(s: State, steps: seq<Step>, k: Key, r: Text)
    decreases |steps|
  {
    || steps == []
    || (!Issues(s, steps[0], k, r) && (Next(s, steps[0]).Some? ==> Quiet(Next(s, steps[0]).value, steps[1..], k, r)))
  }

  ghost predicate BringsBack(s: State, steps: seq<Step>, k: Key, r: Text) {
    Quiet(s, steps, k, r) && Exec(s, steps).Some? && InUse(Exec(s, steps).value, k, r)
  }

  ghost predicate Spent(s: State, k: Key, r: Text) {
    !Stored(s, k, r) && !Carried(s, k, r)
  }

  lemma StepKeepsSpent(s: State, step: Step, k: Key, r: Text)
    requires r != EMPTY && Spent(s, k, r) && !Issues(s, step, k, r) && Next(s, step).Some?
    ensures Spent(Next(s, step).value, k, r)
  {
    var next := Next(s, step).value;
    forall u | u in next.threads
      ensures !Carries(next.threads[u], k, r)
    {
      if u in s.threads {
        assert !Carries(s.threads[u], k, r);
      }
    }
    assert Stored(next, k, r) ==> false by {
      if step.SaveRefreshed? || step.SaveOther? {
        assert !Carries(s.threads[step.thread], k, r);
      }
    }
  }

  lemma {:induction false} SpentStaysSpent(s: State, steps: seq<Step>, k: Key, r: Text)
    requires r != EMPTY && Spent(s, k, r) && Quiet(s, steps, k, r) && Exec(s, steps).Some?
    ensures Spent(Exec(s, steps).value, k, r)
    decreases |steps|
  {
    if steps != [] {
      StepKeepsSpent(s, steps[0], k, r);
      SpentStaysSpent(Next(s, steps[0]).value, steps[1..], k, r);
    }
  }

  // --- A thread that carries the token can always bring it back ---

  function LeaderStep(t: ThreadId, phase: Phase): Step {
    match phase
    case Requesting => Respond(t, Rejected(Other))
    case Received(_, _) => SaveRefreshed(t, false)
    case Failing(_) => HandleFailure(t, 0)
    case Deleting => DeleteGrant(t, false)
    case Finishing(_) => Finish(t)
  }

  function Rank(phase: Phase): nat {
    match phase
    case Requesting => 4
    case Received(_, _) => 4
    case Failing(_) => 3
    case Deleting => 2
    case Finishing(_) => 1
  }

  lemma LeaderMoves(s: State, t: ThreadId, k: Key, r: Text)
    requires InPhase(s, t) && !s.threads[t].phase.Finishing?
    ensures var step := LeaderStep(t, s.threads[t].phase);
            && Next(s, step).Some? && !Issues(s, step, k, r)
            && InPhase(Next(s, step).value, t)
            && Next(s, step).value.threads[t].key == s.threads[t].key
            && Rank(Next(s, step).value.threads[t].phase) < Rank(s.threads[t].phase)
            && forall u | u in s.threads && u != t ::
                 u in Next(s, step).value.threads && Next(s, step).value.threads[u] == s.threads[u]
  {
  }

  lemma ExecCons(s: State, step: Step, rest: seq<Step>, k: Key, r: Text)
    requires Next(s, step).Some? && !Issues(s, step, k, r) && Quiet(Next(s, step).value, rest, k, r)
    ensures Exec(s, [step] + rest) == Exec(Next(s, step).value, rest) && Quiet(s, [step] + rest, k, r)
  {
    assert ([step] + rest)[1..] == rest;
  }

  lemma {:induction false} ExecAppend(s: State, a: seq<Step>, b: seq<Step>, k: Key, r: Text)
    requires Exec(s, a).Some? && Quiet(s, a, k, r) && Quiet(Exec(s, a).value, b, k, r)
    ensures Exec(s, a + b) == Exec(Exec(s, a).value, b) && Quiet(s, a + b, k, r)
    decreases |a|
  {
    if a == [] {
      assert a + b == b;
    } else {
      ExecAppend(Next(s, a[0]).value, a[1..], b, k, r);
      assert (a + b)[1..] == a[1..] + b;
    }
  }

  /** A running refresh can be made to land without any token, leaving every other thread where it is. */
  lemma {:induction false} LandFlight(s: State, t: ThreadId, k: Key, r: Text) returns (steps: seq<Step>)
    requires InPhase(s, t)
    ensures Exec(s, steps).Some? && Quiet(s, steps, k, r)
    ensures s.threads[t].key !in Exec(s, steps).value.flights && forall step | step in steps :: IsLeaderStep(step)
    ensures forall u | u in s.threads && u != t ::
              u in Exec(s, steps).value.threads && Exec(s, steps).value.threads[u] == s.threads[u]
    decreases Rank(s.threads[t].phase)
  {
    var step := LeaderStep(t, s.threads[t].phase);
    var rest := [];
    if !s.threads[t].phase.Finishing? {
      LeaderMoves(s, t, k, r);
      rest := LandFlight(Next(s, step).value, t, k, r);
    }
    ExecCons(s, step, rest, k, r);
    steps := [step] + rest;
  }

  lemma StaleReturns(s: State, t: ThreadId, k: Key, r: Text) returns (steps: seq<Step>)
    requires Inv(s) && t in s.threads && s.threads[t].Stale? && Carries(s.threads[t], k, r)
    ensures BringsBack(s, steps, k, r)
  {
    var land: seq<Step> := [];
    if k in s.flights {
      var leader :| Leads(s.threads, leader, k, s.flights[k]);
      land := LandFlight(s, leader, k, r);
    }
    var landed := Exec(s, land).value;
    ExecCons(landed, Enter(t), [], k, r);
    assert Presents(Next(landed, Enter(t)).value.threads[t], k, r);
    ExecAppend(s, land, [Enter(t)], k, r);
    assert [Enter(t)] + [] == [Enter(t)];
    steps := land + [Enter(t)];
  }

  lemma CarrierReturns(s: State, t: ThreadId, k: Key, r: Text) returns (steps: seq<Step>)
    requires Inv(s) && r != EMPTY && t in s.threads && Carries(s.threads[t], k, r)
    ensures BringsBack(s, steps, k, r)
  {
    match s.threads[t]
    case Loaded(_, found) =>
      var step := Check(t, found.value.expiresAt, 0);
      CallerStepKeepsInv(s, step);
      var rest := StaleReturns(Next(s, step).value, t, k, r);
      ExecCons(s, step, rest, k, r);
      steps := [step] + rest;
    case Stale(_, _) => steps := StaleReturns(s, t, k, r);
    case Leading(_, _, _, Requesting) =>
      assert Presents(s.threads[t], k, r);
      steps := [];
    case Leading(_, _, _, Received(_, _)) =>
      ExecCons(s, SaveRefreshed(t, true), [], k, r);
      steps := [SaveRefreshed(t, true)] + [];
    case Saving(_, _) =>
      ExecCons(s, SaveOther(t, true), [], k, r);
      steps := [SaveOther(t, true)] + [];
  }

  /**
   A refresh token that is no longer stored, because a refresh replaced it or a disconnection
   deleted it, can be stored or presented again without the server issuing it anew if and only if
   some thread still carries a grant with it.
   */
  lemma SpentTokenReturnsIffCarried(s: State, k: Key, r: Text)
    requires Inv(s) && r != EMPTY && !Stored(s, k, r)
    ensures (exists steps :: BringsBack(s, steps, k, r)) <==> Carried(s, k, r)
  {
    if Carried(s, k, r) {
      var t :| t in s.threads && Carries(s.threads[t], k, r);
      var steps := CarrierReturns(s, t, k, r);
    } else {
      forall steps
        ensures !BringsBack(s, steps, k, r)
      {
        if Quiet(s, steps, k, r) && Exec(s, steps).Some? {
          SpentStaysSpent(s, steps, k, r);
          SpentIsUnused(Exec(s, steps).value, k, r);
        }
      }
    }
  }

  lemma SpentIsUnused(s: State, k: Key, r: Text)
    requires Spent(s, k, r)
    ensures !InUse(s, k, r)
  {
    forall t | t in s.threads
      ensures !Presents(s.threads[t], k, r)
    {
      assert !Carries(s.threads[t], k, r);
    }
  }

  /** A response between states `p` and `m` of the run issues `r` for `k`. */
  ghost predicate IssuedBetween(run: seq<State>, steps: seq<Step>, p: nat, m: nat, k: Key, r: Text)
    requires m <= |steps| < |run|
  {
    exists q :: p <= q < m && Issues(run[q], steps[q], k, r)
  }

  lemma {:induction false} RunKeepsSpent(run: seq<State>, steps: seq<Step>, p: nat, m: nat, k: Key, r: Text)
    requires IsRun(run, steps) && p <= m < |run| && r != EMPTY
    requires Spent(run[p], k, r) && !IssuedBetween(run, steps, p, m, k, r)
    ensures Spent(run[m], k, r)
    decreases m
  {
    if p < m {
      assert forall q | p <= q < m - 1 :: !Issues(run[q], steps[q], k, r);
      RunKeepsSpent(run, steps, p, m - 1, k, r);
      assert Next(run[m - 1], steps[m - 1]) == Some(run[m - 1 + 1]);
      assert !Issues(run[m - 1], steps[m - 1], k, r);
      StepKeepsSpent(run[m - 1], steps[m - 1], k, r);
    }
  }

  /**
   Over every run: when `r` is not stored for `k` at state `p`, it can come back from there if and
   only if some thread carries it at `p`; and wherever the run later stores or presents it, some
   thread carried it at `p` or a response in between issued it.
   */
  lemma SpentTokenInRuns(run: seq<State>, steps: seq<Step>, p: nat, k: Key, r: Text)
    requires IsRun(run, steps) && p < |run| && r != EMPTY && !Stored(run[p], k, r)
    ensures (exists more :: BringsBack(run[p], more, k, r)) <==> Carried(run[p], k, r)
    ensures forall m | p <= m < |run| && InUse(run[m], k, r) ::
              Carried(run[p], k, r) || IssuedBetween(run, steps, p, m, k, r)
  {
    RunKeepsInv(run, steps, p);
    SpentTokenReturnsIffCarried(run[p], k, r);
    forall m | p <= m < |run| && !Carried(run[p], k, r) && !IssuedBetween(run, steps, p, m, k, r)
      ensures !InUse(run[m], k, r)
    {
      RunKeepsSpent(run, steps, p, m, k, r);
      SpentIsUnused(run[m], k, r);
    }
  }

  /** A refresh that lands with another refresh token, or a disconnection, leaves the old one unstored. */
  lemma ReplacedOrDeletedIsUnstored(s: State, step: Step, k: Key, r: Text)
    requires Next(s, step).Some?
    requires || (step.SaveRefreshed? && step.ok && InPhase(s, step.thread) && s.threads[step.thread].key == k
                 && s.threads[step.thread].phase.Received? && s.threads[step.thread].phase.refreshed.refresh != r
                 && s.threads[step.thread].phase.refreshed.refresh != EMPTY)
             || step == Disconnect(k, true)
    ensures !Stored(Next(s, step).value, k, r)
  {
  }

  // --- When a key that is empty is filled again ---

  /** The thread may yet save a grant for `k`: it has loaded one, is refreshing one, or is saving one. */
  predicate MayFill(x: Thread, k: Key) {
    match x
    case Loaded(key, found) => key == k && found.Some?
    case Stale(key, _) => key == k
    case Leading(key, _, _, phase) => key == k && (phase.Requesting? || phase.Received?)
    case Saving(key, _) => key == k
    case _ => false
  }

  ghost predicate Busy(s: State, k: Key) {
    exists t :: t in s.threads && MayFill(s.threads[t], k)
  }

  /** None of the steps is the exchange of a new authorization for `k`. */
  predicate NoExchange(steps: seq<Step>, k: Key) {
    forall step | step in steps :: !(step.CompleteExchange? && step.key == k)
  }

  ghost predicate Refills(s: State, steps: seq<Step>, k: Key) {
    NoExchange(steps, k) && Exec(s, steps).Some? && k in Exec(s, steps).value.store
  }

  ghost predicate Forgotten(s: State, k: Key) {
    k !in s.store && !Busy(s, k)
  }

  lemma StepKeepsForgotten(s: State, step: Step, k: Key)
    requires Forgotten(s, k) && Next(s, step).Some? && !(step.CompleteExchange? && step.key == k)
    ensures Forgotten(Next(s, step).value, k)
  {
    var next := Next(s, step).value;
    forall u | u in next.threads
      ensures !MayFill(next.threads[u], k)
    {
      if u in s.threads {
        assert !MayFill(s.threads[u], k);
      }
    }
    if step.SaveRefreshed? || step.SaveOther? {
      assert !MayFill(s.threads[step.thread], k);
    }
  }

  lemma {:induction false} ForgottenStaysForgotten(s: State, steps: seq<Step>, k: Key)
    requires Forgotten(s, k) && NoExchange(steps, k) && Exec(s, steps).Some?
    ensures Forgotten(Exec(s, steps).value, k)
    decreases |steps|
  {
    if steps != [] {
      assert steps[0] in steps;
      StepKeepsForgotten(s, steps[0], k);
      ForgottenStaysForgotten(Next(s, steps[0]).value, steps[1..], k);
    }
  }

  lemma RefillsCons(s: State, step: Step, rest: seq<Step>, k: Key)
    requires Next(s, step).Some? && !step.CompleteExchange? && Refills(Next(s, step).value, rest, k)
    ensures Refills(s, [step] + rest, k)
  {
    assert ([step] + rest)[1..] == rest;
  }

  lemma {:induction false} RefillsAppend(s: State, a: seq<Step>, b: seq<Step>, k: Key)
    requires Exec(s, a).Some? && (forall step | step in a :: IsLeaderStep(step)) && Refills(Exec(s, a).value, b, k)
    ensures Refills(s, a + b, k)
    decreases |a|
  {
    if a == [] {
      assert a + b == b;
    } else {
      assert a[0] in a;
      RefillsAppend(Next(s, a[0]).value, a[1..], b, k);
      assert a + b == [a[0]] + (a[1..] + b);
      RefillsCons(s, a[0], a[1..] + b, k);
    }
  }

  lemma ReceivedRefills(s: State, t: ThreadId, k: Key) returns (steps: seq<Step>)
    requires t in s.threads && s.threads[t].Leading? && s.threads[t].key == k && s.threads[t].phase.Received?
    requires s.threads[t].phase.refreshed.access != EMPTY
    ensures Refills(s, steps, k)
  {
    RefillsCons(s, SaveRefreshed(t, true), [], k);
    steps := [SaveRefreshed(t, true)] + [];
  }

  lemma RequestingRefills(s: State, t: ThreadId, k: Key) returns (steps: seq<Step>)
    requires t in s.threads && s.threads[t].Leading? && s.threads[t].key == k && s.threads[t].phase.Requesting?
    ensures Refills(s, steps, k)
  {
    var step := Respond(t, Tokens(1, EMPTY, 1, 0));
    var rest := ReceivedRefills(Next(s, step).value, t, k);
    RefillsCons(s, step, rest, k);
    steps := [step] + rest;
  }

  lemma StaleRefills(s: State, t: ThreadId, k: Key) returns (steps: seq<Step>)
    requires Inv(s) && t in s.threads && s.threads[t].Stale? && s.threads[t].key == k
    ensures Refills(s, steps, k)
  {
    var land: seq<Step> := [];
    if k in s.flights {
      var leader :| Leads(s.threads, leader, k, s.flights[k]);
      land := LandFlight(s, leader, k, EMPTY);
    }
    var landed := Exec(s, land).value;
    assert landed.threads[t] == s.threads[t] && k !in landed.flights;
    var rest := RequestingRefills(Next(landed, Enter(t)).value, t, k);
    RefillsCons(landed, Enter(t), rest, k);
    RefillsAppend(s, land, [Enter(t)] + rest, k);
    steps := land + ([Enter(t)] + rest);
  }

  lemma BusyRefills(s: State, t: ThreadId, k: Key) returns (steps: seq<Step>)
    requires Inv(s) && t in s.threads && MayFill(s.threads[t], k)
    ensures Refills(s, steps, k)
  {
    assert ThreadOk(s.threads[t], s.issued, s.results);
    match s.threads[t]
    case Loaded(_, found) =>
      var step := Check(t, found.value.expiresAt, 0);
      CallerStepKeepsInv(s, step);
      var rest := StaleRefills(Next(s, step).value, t, k);
      RefillsCons(s, step, rest, k);
      steps := [step] + rest;
    case Stale(_, _) => steps := StaleRefills(s, t, k);
    case Leading(_, _, _, Requesting) => steps := RequestingRefills(s, t, k);
    case Leading(_, _, _, Received(_, _)) => steps := ReceivedRefills(s, t, k);
    case Saving(_, _) =>
      RefillsCons(s, SaveOther(t, true), [], k);
      steps := [SaveOther(t, true)] + [];
  }

  /**
   A key that is empty, as a disconnection leaves it, stays so until a new authorization is
   exchanged for it if and only if no thread has loaded, is refreshing or is saving a grant for it.
   */
  lemma EmptyKeyStaysEmptyIffIdle(run: seq<State>, steps: seq<Step>, p: nat, k: Key)
    requires IsRun(run, steps) && p < |run| && k !in run[p].store
    ensures (forall more :: !Refills(run[p], more, k)) <==> !Busy(run[p], k)
  {
    RunKeepsInv(run, steps, p);
    var s := run[p];
    if t :| t in s.threads && MayFill(s.threads[t], k) {
      var more := BusyRefills(s, t, k);
    } else {
      forall more
        ensures !Refills(s, more, k)
      {
        if NoExchange(more, k) && Exec(s, more).Some? {
          ForgottenStaysForgotten(s, more, k);
        }
      }
    }
  }

  // --- Three runs in which it comes back ---

  lemma Extend(run: seq<State>, steps: seq<Step>, step: Step) returns (run': seq<State>, steps': seq<Step>)
    requires IsRun(run, steps) && Next(run[|steps|], step).Some?
    ensures IsRun(run', steps') && steps' == steps + [step]
    ensures run' == run + [Next(run[|steps|], step).value]
  {
    run', steps' := run + [Next(run[|steps|], step).value], steps + [step];
  }

  /** The first state of every example: one grant with refresh token 2, expiring at time 10. */
  lemma Granted() returns (run: seq<State>, steps: seq<Step>)
    ensures IsRun(run, steps) && |steps| == 2
    ensures var s := run[2];
            && s.store == map[0 := Grant(1, 2, 10)] && s.flights == map[] && s.nextFlight == 0
            && s.threads == map[0 := Done]
  {
    run, steps := [Init()], [];
    run, steps := Extend(run, steps, CompleteExchange(0, 0, Tokens(1, 2, 10, 0)));
    run, steps := Extend(run, steps, SaveOther(0, true));
  }

  /** Thread `t`, which holds the expired grant, refreshes it to the tokens 3 and 4. */
  lemma Refreshed(run0: seq<State>, steps0: seq<Step>, t: ThreadId) returns (run: seq<State>, steps: seq<Step>)
    requires IsRun(run0, steps0)
    requires var s := run0[|steps0|];
             t in s.threads && s.threads[t] == Stale(0, Grant(1, 2, 10)) && 0 !in s.flights
    ensures IsRun(run, steps) && |steps| == |steps0| + 4
    ensures run[|steps|] == AfterRefresh(run0[|steps0|], t, 0, Grant(3, 4, 30), 20)
  {
    RefreshLands(run0[|steps0|], t, 0, Grant(3, 4, 30), 20);
    run, steps := Extend(run0, steps0, Enter(t));
    run, steps := Extend(run, steps, Respond(t, Tokens(3, 4, 30, 20)));
    run, steps := Extend(run, steps, SaveRefreshed(t, true));
    run, steps := Extend(run, steps, Finish(t));
  }

  /** A request that loaded before another's refresh landed leads a refresh of its own with the spent token. */
  lemma LateRequestPresentsSpentToken() returns (run: seq<State>, steps: seq<Step>)
    ensures IsRun(run, steps)
    ensures var s := run[|steps|];
            && 0 in s.store && s.store[0].refresh == 4
            && 2 in s.threads && Presents(s.threads[2], 0, 2)
  {
    run, steps := Granted();
    run, steps := Extend(run, steps, Load(1, 0));
    run, steps := Extend(run, steps, Load(2, 0));
    run, steps := Extend(run, steps, Check(1, 20, 0));
    run, steps := Extend(run, steps, Check(2, 20, 0));
    run, steps := Refreshed(run, steps, 1);
    run, steps := Extend(run, steps, Enter(2));
  }

  /** An invalidation that loaded before the refresh stores the spent token again; a later request presents it. */
  lemma StaleInvalidationStoresSpentToken() returns (run: seq<State>, steps: seq<Step>)
    ensures IsRun(run, steps)
    ensures var s := run[|steps|];
            && 0 in s.store && s.store[0].refresh == 2
            && 3 in s.threads && Presents(s.threads[3], 0, 2)
            && exists p :: && 0 <= p < |steps| && steps[p] == Load(3, 0)
                           && 2 in run[p].threads && run[p].threads[2].Returned?
  {
    run, steps := Granted();
    run, steps := Extend(run, steps, InvalidateLoad(1, 0));
    run, steps := Extend(run, steps, Load(2, 0));
    run, steps := Extend(run, steps, Check(2, 20, 0));
    run, steps := Refreshed(run, steps, 2);
    run, steps := Extend(run, steps, SaveOther(1, true));
    var p := |steps|;
    run, steps := Extend(run, steps, Load(3, 0));
    run, steps := Extend(run, steps, Check(3, 20, 0));
    run, steps := Extend(run, steps, Enter(3));
    assert steps[p] == Load(3, 0) && run[p].threads[2].Returned?;
  }

  /** The same late save brings back a grant that a disconnection has deleted. */
  lemma StaleInvalidationUndoesDisconnect() returns (run: seq<State>, steps: seq<Step>)
    ensures IsRun(run, steps) && |steps| == 5 && steps[3] == Disconnect(0, true) && 0 !in run[4].store
    ensures 0 in run[5].store && run[5].store[0].refresh == 2
  {
    run, steps := Granted();
    run, steps := Extend(run, steps, InvalidateLoad(1, 0));
    run, steps := Extend(run, steps, Disconnect(0, true));
    run, steps := Extend(run, steps, SaveOther(1, true));
  }

  // ---------------------------------------------------------------------------
  // What a token request answers, and when a grant is given up
  // ---------------------------------------------------------------------------

  /**
   The answer to a request that loaded `found`: a stored access token good for longer than the
   skew is returned as it is; without a grant, or a refresh token in it, authorization is required;
   anything else is refreshed.
   */
  lemma RequestAnswers(s: State, t: ThreadId, k: Key, found: Option<Grant>, now: Time, skew: nat)
    requires t in s.threads && s.threads[t] == Loaded(k, found)
    ensures Next(s, Check(t, now, skew)).Some?
    ensures var x := Next(s, Check(t, now, skew)).value.threads[t];
            var good := found.Some? && found.value.access != EMPTY && now + skew < found.value.expiresAt;
            && (good ==> x == Returned(Token(found.value.access, found.value.expiresAt, now), None))
            && (!good && (found.None? || found.value.refresh == EMPTY) ==> x == Returned(Error, None))
            && (!good && found.Some? && found.value.refresh != EMPTY ==> x == Stale(k, found.value))
  {
  }

  /** Loading reads what is stored, and an invalidation stores the same grant without its access token. */
  lemma LoadsReadTheStore(s: State, t: ThreadId, k: Key)
    requires t !in s.threads
    ensures Next(s, Load(t, k)) == Some(SetThread(s, t, Loaded(k, if k in s.store then Some(s.store[k]) else None)))
    ensures k in s.store && s.store[k].refresh != EMPTY ==>
              var loaded := Next(s, InvalidateLoad(t, k));
              loaded.Some? && Next(loaded.value, SaveOther(t, true)).Some? &&
              var stored := Next(loaded.value, SaveOther(t, true)).value.store;
              && k in stored && stored[k].access == EMPTY && stored[k].refresh == s.store[k].refresh
              && forall h | h != k :: h in stored <==> h in s.store
    ensures k !in s.store ==> Next(s, InvalidateLoad(t, k)) == Some(s)
  {
  }

  /** An authorization is saved exactly if its response has an access token, an expiry to come and a refresh token. */
  lemma CompletionSaves(s: State, t: ThreadId, k: Key, response: Response)
    requires t !in s.threads
    ensures Next(s, CompleteExchange(t, k, response)).Some?
    ensures var u := Next(s, CompleteExchange(t, k, response)).value;
            var good := response.Tokens? && response.access != EMPTY && response.now < response.expiresAt
                        && response.refresh != EMPTY;
            if good then
              && t in u.threads && Next(u, SaveOther(t, true)).Some?
              && Next(u, SaveOther(t, true)).value.store
                 == s.store[k := Grant(response.access, response.refresh, response.expiresAt)]
            else t !in u.threads && u.store == s.store
  {
  }

  /** The old access token can stand in for a refresh that failed for a passing reason. */
  predicate FallsBack(g: Grant, failure: Failure, now: Time) {
    failure.Endpoint? && failure.transient && g.access != EMPTY && now < g.expiresAt
  }

  /**
   A rejected refresh: the leader returns the old access token exactly if the reason may pass and
   that token is non-empty and unexpired; otherwise it returns an error, and if the grant is
   invalid, and the deletion succeeds, the key is empty.  In every other case the store is as it was.
   */
  lemma RejectedRefreshEnds(s: State, t: ThreadId, failure: Failure, now: Time, deleted: bool) returns (end: State)
    requires t in s.threads && s.threads[t].Leading? && s.threads[t].phase.Requesting?
    ensures var leader := s.threads[t];
            var answered := Next(s, Respond(t, Rejected(failure)));
            answered.Some? &&
            var handled := Next(answered.value, HandleFailure(t, now));
            handled.Some? &&
            var gone := !FallsBack(leader.grant, failure, now) && failure.Endpoint? && failure.grantInvalid;
            var ready := if gone then Next(handled.value, DeleteGrant(t, deleted)) else handled;
            && ready.Some? && Next(ready.value, Finish(t)) == Some(end)
            && end.threads[t] == Returned(if FallsBack(leader.grant, failure, now)
                                          then Token(leader.grant.access, leader.grant.expiresAt, now) else Error,
                                          Some(leader.flight))
            && end.store == (if gone && deleted then s.store - {leader.key} else s.store)
            && end.flights == s.flights - {leader.key}
  {
    var leader := s.threads[t];
    var s1 := Next(s, Respond(t, Rejected(failure))).value;
    assert s1.threads[t] == leader.(phase := Failing(failure)) && s1.store == s.store && s1.flights == s.flights;
    var s2 := Next(s1, HandleFailure(t, now)).value;
    var gone := !FallsBack(leader.grant, failure, now) && failure.Endpoint? && failure.grantInvalid;
    var s3 := if gone then Next(s2, DeleteGrant(t, deleted)).value else s2;
    assert s3.threads[t].Leading? && s3.threads[t].phase.Finishing?;
    end := Next(s3, Finish(t)).value;
  }

  /** A response that could not be used, or a save that failed, ends the refresh with an error and keeps the store. */
  lemma UnusableRefreshEnds(s: State, t: ThreadId, now: Time) returns (end: State)
    requires t in s.threads && s.threads[t].Leading? && s.threads[t].phase.Received?
    ensures var failed := Next(s, SaveRefreshed(t, false));
            failed.Some? &&
            var handled := Next(failed.value, HandleFailure(t, now));
            && handled.Some? && Next(handled.value, Finish(t)) == Some(end)
            && end.threads[t] == Returned(Error, Some(s.threads[t].flight)) && end.store == s.store
  {
    var s1 := Next(s, SaveRefreshed(t, false)).value;
    assert s1.threads[t] == s.threads[t].(phase := Failing(Other)) && s1.store == s.store;
    var s2 := Next(s1, HandleFailure(t, now)).value;
    assert s2.threads[t] == s.threads[t].(phase := Finishing(Error));
    end := Next(s2, Finish(t)).value;
  }

  // --- Over runs: what a deletion goes back to ---

  /** Before state `m`, thread `t` was told that the grant of `k` is invalid. */
  ghost predicate ToldInvalid(run: seq<State>, steps: seq<Step>, m: nat, t: ThreadId, k: Key)
    requires m <= |steps| < |run|
  {
    exists q :: && 0 <= q < m && steps[q].Respond? && steps[q].thread == t
                && InPhase(run[q], t) && run[q].threads[t].key == k
                && steps[q].response.Rejected? && Invalid(steps[q].response.failure)
  }

  predicate Invalid(failure: Failure) {
    failure.Endpoint? && failure.grantInvalid
  }

  /** The leader is about to give the grant up, or will be when it looks at the failure. */
  predicate MayDelete(phase: Phase) {
    phase.Deleting? || (phase.Failing? && Invalid(phase.failure))
  }

  /** How a thread comes to delete: it did already, or it was just told that the grant is invalid. */
  lemma MayDeleteComesFrom(s: State, step: Step, t: ThreadId)
    requires Next(s, step).Some?
    requires InPhase(Next(s, step).value, t) && MayDelete(Next(s, step).value.threads[t].phase)
    ensures InPhase(s, t) && s.threads[t].key == Next(s, step).value.threads[t].key
    ensures || MayDelete(s.threads[t].phase)
            || (step.Respond? && step.thread == t && step.response.Rejected? && Invalid(step.response.failure))
  {
  }

  lemma {:induction false} DeleterWasTold(run: seq<State>, steps: seq<Step>, m: nat, t: ThreadId)
    requires IsRun(run, steps) && m < |run| && InPhase(run[m], t) && MayDelete(run[m].threads[t].phase)
    ensures ToldInvalid(run, steps, m, t, run[m].threads[t].key)
    decreases m
  {
    if m > 0 {
      assert Next(run[m - 1], steps[m - 1]) == Some(run[m - 1 + 1]);
      MayDeleteComesFrom(run[m - 1], steps[m - 1], t);
      if MayDelete(run[m - 1].threads[t].phase) {
        DeleterWasTold(run, steps, m - 1, t);
      }
    }
  }

  lemma KeyLeavesBy(s: State, step: Step, k: Key)
    requires Next(s, step).Some? && k in s.store && k !in Next(s, step).value.store
    ensures || step == Disconnect(k, true)
            || (step.DeleteGrant? && step.ok && InPhase(s, step.thread) && s.threads[step.thread].key == k
                && s.threads[step.thread].phase.Deleting?)
  {
  }

  /**
   Over every run, a key leaves the store only by a disconnection, or by a refresh of it that the
   server rejected because the grant is invalid.
   */
  lemma GrantsAreGivenUpOnlyWhenInvalid(run: seq<State>, steps: seq<Step>, m: nat, k: Key)
    requires IsRun(run, steps) && m < |steps| && k in run[m].store && k !in run[m + 1].store
    ensures || steps[m] == Disconnect(k, true)
            || (steps[m].DeleteGrant? && ToldInvalid(run, steps, m, steps[m].thread, k))
  {
    assert Next(run[m], steps[m]) == Some(run[m + 1]);
    KeyLeavesBy(run[m], steps[m], k);
    if steps[m].DeleteGrant? {
      DeleterWasTold(run, steps, m, steps[m].thread);
    }
  }
}
