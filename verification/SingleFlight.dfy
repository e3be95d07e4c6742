/**
 `GetOrLoad`: per-key coalescing of loads around the token cache.  The two critical
 sections, the loader call, waking and cancellation are separate steps of any number of
 threads, interleaved with `Invalidate` and `Flush`.
 */
module SingleFlight {
  import opened Options
  import opened TokenCaches

  type CallId = nat
  type ThreadId = nat

  const ZERO := Token("", 0)

  /** What a loader returned, after the empty-or-expired check. */
  datatype Load = Good(token: Token) | Bad(error: string, transient: bool)

  /**
   `seen` is the entry of the key right after the leader's lookup, `loads` counts loader
   runs, and `vouched` is when the returned token was last compared with the clock.
   */
  datatype Call = Call(
    key: Key, leader: ThreadId, seen: Option<Payload>, loads: nat,
    done: bool, token: Token, error: Option<string>, vouched: Time)

  datatype Thread =
    | Waiting(call: CallId)
    | Loading(call: CallId, stale: Token)
    | Loaded(call: CallId, stale: Token, load: Load, at: Time)
    | FromCache(answer: Answer)
    | FromCall(call: CallId, token: Token, error: Option<string>)
    | Cancelled
    | Rejected

  type Calls = map<CallId, Call>
  type Threads = map<ThreadId, Thread>
  type Flights = map<Key, CallId>

  datatype State = State(cache: Recency, flights: Flights, calls: Calls, threads: Threads, nextCall: CallId)

  datatype Step =
    | Enter(thread: ThreadId, key: Key, now: Time)
    | RunLoader(thread: ThreadId, load: Load, now: Time)
    | Finish(thread: ThreadId, now: Time)
    | Wake(thread: ThreadId)
    | Cancel(thread: ThreadId)
    | Drop(key: Key)
    | DropAll

  const INIT := State([], map[], map[], map[], 0)

  /** Unicode white space. */
  predicate IsSpace(c: char) {
    var n := c as int;
    || 0x09 <= n <= 0x0D || n == 0x20 || n == 0x85 || n == 0xA0 || n == 0x1680 || 0x2000 <= n <= 0x200A
    || n == 0x2028 || n == 0x2029 || n == 0x202F || n == 0x205F || n == 0x3000
  }

  predicate Blank(k: Key) {
    forall c | c in k :: IsSpace(c)
  }

  function StaleOf(answer: Answer): Token {
    if answer.Stale? then answer.token else ZERO
  }

  function DoEnter(s: State, t: ThreadId, k: Key, now: Time): State {
    if Blank(k) then s.(threads := s.threads[t := Rejected])
    else
      var answer := Look(s.cache, k, now);
      var cache := AfterLook(s.cache, k, now);
      if answer.Hit? || answer.Refused? then
        s.(cache := cache, threads := s.threads[t := FromCache(answer)])
      else if k in s.flights then
        s.(cache := cache, threads := s.threads[t := Waiting(s.flights[k])])
      else
        var call := Call(k, t, Find(cache, k), 0, false, ZERO, None, 0);
        State(cache, s.flights[k := s.nextCall], s.calls[s.nextCall := call],
              s.threads[t := Loading(s.nextCall, StaleOf(answer))], s.nextCall + 1)
  }

  function Checked(load: Load, now: Time): Load {
    if load.Good? && (load.token.access == "" || load.token.expires <= now)
    then Bad("credential provider returned an empty or expired token", false)
    else load
  }

  /** The leader's second critical section: what it stores and what the call returns. */
  function Outcome(x: Thread, now: Time): (Token, Option<string>)
    requires x.Loaded?
  {
    match x.load
    case Good(token) => (token, None)
    case Bad(error, transient) =>
      if transient && x.stale.access != "" && x.stale.expires > now then (x.stale, None) else (ZERO, Some(error))
  }

  function CacheAfter(config: Config, c: Recency, k: Key, x: Thread, now: Time): Recency
    requires x.Loaded?
  {
    if x.load.Good? then Store(c, k, Fresh(x.load.token, now, config.skew), config.capacity)
    else if x.load.transient && Outcome(x, now).1.Some? && config.negativeTTL > 0 then
      Store(c, k, Negative(x.load.error, now + config.negativeTTL), config.capacity)
    else c
  }

  function Ended(call: Call, x: Thread, now: Time): Call
    requires x.Loaded?
  {
    var (token, error) := Outcome(x, now);
    call.(done := true, token := token, error := error, vouched := if x.load.Good? then x.at else now)
  }

  function DoFinish(config: Config, s: State, t: ThreadId, now: Time): State
    requires t in s.threads && s.threads[t].Loaded? && s.threads[t].call in s.calls
  {
    var x := s.threads[t];
    var call := s.calls[x.call];
    var (token, error) := Outcome(x, now);
    s.(cache := CacheAfter(config, s.cache, call.key, x, now),
       flights := s.flights - {call.key},
       calls := s.calls[x.call := Ended(call, x, now)],
       threads := s.threads[t := FromCall(x.call, token, error)])
  }

  function Next(config: Config, s: State, step: Step): Option<State> {
    match step
    case Enter(t, k, now) => if t in s.threads then None else Some(DoEnter(s, t, k, now))
    case RunLoader(t, load, now) =>
      if t in s.threads && s.threads[t].Loading? && s.threads[t].call in s.calls then
        var x := s.threads[t];
        var call := s.calls[x.call];
        Some(s.(threads := s.threads[t := Loaded(x.call, x.stale, Checked(load, now), now)],
                calls := s.calls[x.call := call.(loads := call.loads + 1)]))
      else None
    case Finish(t, now) =>
      if t in s.threads && s.threads[t].Loaded? && s.threads[t].call in s.calls
      then Some(DoFinish(config, s, t, now)) else None
    case Wake(t) =>
      if t in s.threads && s.threads[t].Waiting? && s.threads[t].call in s.calls
         && s.calls[s.threads[t].call].done then
        var c := s.threads[t].call;
        Some(s.(threads := s.threads[t := FromCall(c, s.calls[c].token, s.calls[c].error)]))
      else None
    case Cancel(t) =>
      if t in s.threads && s.threads[t].Waiting? then Some(s.(threads := s.threads[t := Cancelled])) else None
    case Drop(k) => Some(s.(cache := Without(s.cache, k)))
    case DropAll => Some(s.(cache := []))
  }

  ghost predicate IsRun(config: Config, s: State, steps: seq<Step>)
    decreases |steps|
  {
    steps == []
    || (Next(config, s, steps[0]).Some? && IsRun(config, Next(config, s, steps[0]).value, steps[1..]))
  }

  ghost function Exec(config: Config, s: State, steps: seq<Step>): State
    requires IsRun(config, s, steps)
    decreases |steps|
  {
    if steps == [] then s else Exec(config, Next(config, s, steps[0]).value, steps[1..])
  }

  // ---------------------------------------------------------------------------
  // How operations on one key leave another alone
  // ---------------------------------------------------------------------------

  lemma {:induction false} FindWithout(c: Recency, k: Key, other: Key)
    ensures Find(Without(c, other), k) == if k == other then None else Find(c, k)
  {
    if c != [] {
      FindWithout(c[1..], k, other);
      if c[0].key != other {
        assert Without(c, other)[1..] == Without(c[1..], other);
      } else {
        assert Without(c, other) == Without(c[1..], other);
      }
    }
  }

  lemma {:induction false} FindPrefix(c: Recency, k: Key, n: nat)
    requires n <= |c|
    ensures Find(c[..n], k) == Find(c, k) || Find(c[..n], k).None?
  {
    if n > 0 {
      FindPrefix(c[1..], k, n - 1);
      assert c[..n][1..] == c[1..][..n - 1];
    }
  }

  lemma FindToFront(c: Recency, k: Key, other: Key, payload: Payload)
    ensures Find(ToFront(c, other, payload), k) == if k == other then Some(payload) else Find(c, k)
  {
    FindWithout(c, k, other);
    assert ToFront(c, other, payload)[1..] == Without(c, other);
  }

  lemma FindStore(c: Recency, k: Key, other: Key, payload: Payload, capacity: nat)
    requires k != other
    ensures var found := Find(Store(c, other, payload, capacity), k);
            found == Find(c, k) || found.None?
  {
    FindToFront(c, k, other, payload);
    var d := ToFront(c, other, payload);
    if |d| > capacity {
      FindPrefix(d, k, capacity);
    }
  }

  lemma FindAfterLook(c: Recency, k: Key, other: Key, now: Time)
    ensures var found := Find(AfterLook(c, other, now), k);
            found == Find(c, k) || (k == other && found.None?)
    ensures k == other ==>
              (Look(c, k, now).Miss? ==> Find(AfterLook(c, k, now), k).None?)
  {
    FindWithout(c, k, other);
    if Find(c, other).Some? {
      FindToFront(c, k, other, Find(c, other).value);
    }
  }

  // ---------------------------------------------------------------------------
  // Invariants
  // ---------------------------------------------------------------------------

  predicate Leads(x: Thread) {
    x.Loading? || x.Loaded?
  }

  ghost predicate CallOk(flights: Flights, threads: Threads, c: CallId, call: Call) {
    if call.done then
      && call.loads == 1
      && (call.error.None? ==> call.token.access != "" && call.vouched < call.token.expires)
    else
      && call.key in flights && flights[call.key] == c
      && call.leader in threads && Leads(threads[call.leader]) && threads[call.leader].call == c
  }

  ghost predicate ThreadOk(calls: Calls, t: ThreadId, x: Thread) {
    match x
    case Waiting(c) => c in calls
    case Loading(c, _) => c in calls && calls[c].leader == t && !calls[c].done && calls[c].loads == 0
    case Loaded(c, _, load, at) =>
      && c in calls && calls[c].leader == t && !calls[c].done && calls[c].loads == 1
      && (load.Good? ==> load.token.access != "" && at < load.token.expires)
    case FromCall(c, token, error) =>
      c in calls && calls[c].done && calls[c].token == token && calls[c].error == error
    case _ => true
  }

  ghost predicate FlightsOk(flights: Flights, calls: Calls, threads: Threads, nextCall: CallId) {
    && (forall c | c in calls :: c < nextCall && CallOk(flights, threads, c, calls[c]))
    && (forall t | t in threads :: ThreadOk(calls, t, threads[t]))
    && (forall k | k in flights :: flights[k] in calls && calls[flights[k]].key == k && !calls[flights[k]].done)
  }

  /** During a flight the entry is what the leader saw or gone, and what it saw is its fallback. */
  ghost predicate SeenOk(cache: Recency, call: Call, stale: Token) {
    && (Find(cache, call.key) == call.seen || Find(cache, call.key).None?)
    && (call.seen.None? ==> stale == ZERO)
    && (call.seen.Some? ==>
          call.seen.value.Positive? && call.seen.value.token == stale && stale.access != "")
  }

  ghost predicate EntriesOk(cache: Recency, calls: Calls, threads: Threads) {
    && (forall t | t in threads && Leads(threads[t]) ::
          threads[t].call in calls && SeenOk(cache, calls[threads[t].call], threads[t].stale))
    && (forall t | t in threads && threads[t].Loaded? && threads[t].load.Good? ::
          threads[t].load.token.access != "")
  }

  ghost predicate TokensOk(cache: Recency) {
    forall x | x in cache && x.payload.Positive? :: x.payload.token.access != ""
  }

  ghost predicate Inv(s: State) {
    && FlightsOk(s.flights, s.calls, s.threads, s.nextCall)
    && EntriesOk(s.cache, s.calls, s.threads)
    && TokensOk(s.cache)
  }

  lemma ArriveKeepsFlights(
      flights: Flights, calls: Calls, threads: Threads, nextCall: CallId, t: ThreadId, x: Thread)
    requires FlightsOk(flights, calls, threads, nextCall)
    requires t !in threads && !Leads(x) && ThreadOk(calls, t, x)
    ensures FlightsOk(flights, calls, threads[t := x], nextCall)
  {
    forall d | d in calls
      ensures CallOk(flights, threads[t := x], d, calls[d])
    {
      assert CallOk(flights, threads, d, calls[d]);
    }
  }

  lemma StartKeepsFlights(
      flights: Flights, calls: Calls, threads: Threads, nextCall: CallId, t: ThreadId, call: Call, stale: Token)
    requires FlightsOk(flights, calls, threads, nextCall)
    requires t !in threads && call.key !in flights && call.leader == t && !call.done && call.loads == 0
    ensures FlightsOk(flights[call.key := nextCall], calls[nextCall := call],
                      threads[t := Loading(nextCall, stale)], nextCall + 1)
  {
    var calls', threads' := calls[nextCall := call], threads[t := Loading(nextCall, stale)];
    forall d | d in calls
      ensures d < nextCall && CallOk(flights[call.key := nextCall], threads', d, calls[d])
    {
      assert CallOk(flights, threads, d, calls[d]);
    }
    forall v | v in threads
      ensures ThreadOk(calls', v, threads[v])
    {
      assert ThreadOk(calls, v, threads[v]);
    }
  }

  lemma EnterKeepsFlights(s: State, t: ThreadId, k: Key, now: Time)
    requires FlightsOk(s.flights, s.calls, s.threads, s.nextCall) && t !in s.threads
    ensures var u := DoEnter(s, t, k, now); FlightsOk(u.flights, u.calls, u.threads, u.nextCall)
  {
    var u := DoEnter(s, t, k, now);
    if Leads(u.threads[t]) {
      StartKeepsFlights(s.flights, s.calls, s.threads, s.nextCall, t, u.calls[s.nextCall], u.threads[t].stale);
    } else {
      ArriveKeepsFlights(s.flights, s.calls, s.threads, s.nextCall, t, u.threads[t]);
    }
  }

  lemma LoaderKeepsFlights(
      flights: Flights, calls: Calls, threads: Threads, nextCall: CallId, t: ThreadId, load: Load,
      now: Time)
    requires FlightsOk(flights, calls, threads, nextCall) && Checked(load, now) == load
    requires t in threads && threads[t].Loading? && threads[t].call in calls
    ensures var c := threads[t].call;
            FlightsOk(flights, calls[c := calls[c].(loads := calls[c].loads + 1)],
                      threads[t := Loaded(c, threads[t].stale, load, now)], nextCall)
  {
    assert ThreadOk(calls, t, threads[t]);
    var c := threads[t].call;
    var calls', threads' :=
      calls[c := calls[c].(loads := calls[c].loads + 1)], threads[t := Loaded(c, threads[t].stale, load, now)];
    forall d | d in calls'
      ensures d < nextCall && CallOk(flights, threads', d, calls'[d])
    {
      assert CallOk(flights, threads, d, calls[d]);
    }
    forall v | v in threads'
      ensures ThreadOk(calls', v, threads'[v])
    {
      assert ThreadOk(calls, v, threads[v]);
    }
  }

  lemma FinishKeepsFlights(
      flights: Flights, calls: Calls, threads: Threads, nextCall: CallId, t: ThreadId, now: Time)
    requires FlightsOk(flights, calls, threads, nextCall)
    requires t in threads && threads[t].Loaded? && threads[t].call in calls
    ensures var x := threads[t];
            FlightsOk(flights - {calls[x.call].key}, calls[x.call := Ended(calls[x.call], x, now)],
                      threads[t := FromCall(x.call, Outcome(x, now).0, Outcome(x, now).1)], nextCall)
  {
    assert ThreadOk(calls, t, threads[t]);
    var c := threads[t].call;
    assert CallOk(flights, threads, c, calls[c]);
    var flights' := flights - {calls[c].key};
    var calls' := calls[c := Ended(calls[c], threads[t], now)];
    var threads' := threads[t := FromCall(c, Outcome(threads[t], now).0, Outcome(threads[t], now).1)];
    forall d | d in calls'
      ensures d < nextCall && CallOk(flights', threads', d, calls'[d])
    {
      assert CallOk(flights, threads, d, calls[d]);
    }
    forall v | v in threads'
      ensures ThreadOk(calls', v, threads'[v])
    {
      assert ThreadOk(calls, v, threads[v]);
    }
  }

  lemma ReturnKeepsFlights(
      flights: Flights, calls: Calls, threads: Threads, nextCall: CallId, t: ThreadId, x: Thread)
    requires FlightsOk(flights, calls, threads, nextCall)
    requires t in threads && !Leads(threads[t]) && !Leads(x) && ThreadOk(calls, t, x)
    ensures FlightsOk(flights, calls, threads[t := x], nextCall)
  {
    forall d | d in calls
      ensures CallOk(flights, threads[t := x], d, calls[d])
    {
      assert CallOk(flights, threads, d, calls[d]);
    }
  }

  lemma StepKeepsFlights(config: Config, s: State, step: Step)
    requires Inv(s) && Next(config, s, step).Some?
    ensures var u := Next(config, s, step).value; FlightsOk(u.flights, u.calls, u.threads, u.nextCall)
  {
    match step
    case Enter(t, k, now) => EnterKeepsFlights(s, t, k, now);
    case RunLoader(t, load, now) => RunLoaderKeepsFlights(config, s, t, load, now);
    case Finish(t, now) => LandingKeepsFlights(config, s, t, now);
    case Wake(_) => WaiterKeepsFlights(config, s, step);
    case Cancel(_) => WaiterKeepsFlights(config, s, step);
    case Drop(_) =>
    case DropAll =>
  }

  lemma RunLoaderKeepsFlights(config: Config, s: State, t: ThreadId, load: Load, now: Time)
    requires Inv(s) && Next(config, s, RunLoader(t, load, now)).Some?
    ensures var u := Next(config, s, RunLoader(t, load, now)).value;
            FlightsOk(u.flights, u.calls, u.threads, u.nextCall)
  {
    LoaderKeepsFlights(s.flights, s.calls, s.threads, s.nextCall, t, Checked(load, now), now);
  }

  lemma LandingKeepsFlights(config: Config, s: State, t: ThreadId, now: Time)
    requires Inv(s) && Next(config, s, Finish(t, now)).Some?
    ensures var u := Next(config, s, Finish(t, now)).value; FlightsOk(u.flights, u.calls, u.threads, u.nextCall)
  {
    FinishKeepsFlights(s.flights, s.calls, s.threads, s.nextCall, t, now);
  }

  lemma WaiterKeepsFlights(config: Config, s: State, step: Step)
    requires Inv(s) && (step.Wake? || step.Cancel?) && Next(config, s, step).Some?
    ensures var u := Next(config, s, step).value; FlightsOk(u.flights, u.calls, u.threads, u.nextCall)
  {
    match step
    case Wake(t) =>
      var c := s.threads[t].call;
      ReturnKeepsFlights(s.flights, s.calls, s.threads, s.nextCall, t,
                         FromCall(c, s.calls[c].token, s.calls[c].error));
    case Cancel(t) => ReturnKeepsFlights(s.flights, s.calls, s.threads, s.nextCall, t, Cancelled);
  }

  /** A key's entry is unchanged or removed by any step that does not end its flight. */
  ghost predicate Shrinks(cache: Recency, cache': Recency, k: Key) {
    Find(cache', k) == Find(cache, k) || Find(cache', k).None?
  }

  lemma StepShrinks(config: Config, s: State, step: Step, k: Key)
    requires Next(config, s, step).Some?
    requires step.Finish? ==> s.calls[s.threads[step.thread].call].key != k
    ensures Shrinks(s.cache, Next(config, s, step).value.cache, k)
  {
    match step
    case Enter(_, other, now) => FindAfterLook(s.cache, k, other, now);
    case Finish(t, now) =>
      var x := s.threads[t];
      var other := s.calls[x.call].key;
      if x.load.Good? {
        FindStore(s.cache, k, other, Fresh(x.load.token, now, config.skew), config.capacity);
      } else {
        FindStore(s.cache, k, other, Negative(x.load.error, now + config.negativeTTL), config.capacity);
      }
    case Drop(other) => FindWithout(s.cache, k, other);
    case _ =>
  }

  /** Threads of other flights keep their facts when the cache shrinks on their keys. */
  lemma OthersKeepEntries(
      cache: Recency, cache': Recency, calls: Calls, calls': Calls, threads: Threads, t: ThreadId)
    requires EntriesOk(cache, calls, threads)
    requires forall u | u in threads && u != t && Leads(threads[u]) ::
               && threads[u].call in calls' && calls'[threads[u].call].key == calls[threads[u].call].key
               && calls'[threads[u].call].seen == calls[threads[u].call].seen
               && Shrinks(cache, cache', calls[threads[u].call].key)
    ensures EntriesOk(cache', calls', threads - {t})
  {
  }

  lemma StoredTokensNonEmpty(c: Recency, k: Key, payload: Payload, capacity: nat)
    requires TokensOk(c) && (payload.Positive? ==> payload.token.access != "")
    ensures TokensOk(Store(c, k, payload, capacity)) && TokensOk(Without(c, k)) && TokensOk(ToFront(c, k, payload))
  {
    WithoutIsFilter(c, k);
    var d := ToFront(c, k, payload);
    assert forall x | x in d :: x == Slot(k, payload) || x in Without(c, k);
    assert forall x | x in Trim(d, capacity) :: x in d;
  }

  lemma LookKeepsTokens(c: Recency, k: Key, now: Time)
    requires TokensOk(c)
    ensures TokensOk(AfterLook(c, k, now))
    ensures Look(c, k, now).Stale? ==>
              && Find(AfterLook(c, k, now), k).Some? && Find(AfterLook(c, k, now), k).value.Positive?
              && Find(AfterLook(c, k, now), k).value.token == Look(c, k, now).token
              && Look(c, k, now).token.access != ""
  {
    FindIsSlot(c, k);
    if Find(c, k).Some? {
      StoredTokensNonEmpty(c, k, Find(c, k).value, 0);
      FindToFront(c, k, k, Find(c, k).value);
    }
  }

  lemma StepKeepsTokens(config: Config, s: State, step: Step)
    requires Inv(s) && Next(config, s, step).Some?
    ensures TokensOk(Next(config, s, step).value.cache)
  {
    match step
    case Enter(_, k, now) => LookKeepsTokens(s.cache, k, now);
    case Finish(t, now) =>
      var x := s.threads[t];
      var k := s.calls[x.call].key;
      if x.load.Good? {
        StoredTokensNonEmpty(s.cache, k, Fresh(x.load.token, now, config.skew), config.capacity);
      } else {
        StoredTokensNonEmpty(s.cache, k, Negative(x.load.error, now + config.negativeTTL), config.capacity);
      }
    case Drop(k) => StoredTokensNonEmpty(s.cache, k, Negative("", 0), 0);
    case _ =>
  }

  lemma AddThreadKeepsEntries(cache: Recency, calls: Calls, threads: Threads, t: ThreadId, x: Thread)
    requires EntriesOk(cache, calls, threads - {t}) && !x.Loaded?
    requires Leads(x) ==> x.call in calls && SeenOk(cache, calls[x.call], x.stale)
    ensures EntriesOk(cache, calls, threads[t := x])
  {
    var rest, all := threads - {t}, threads[t := x];
    forall v | v in all && Leads(all[v])
      ensures all[v].call in calls && SeenOk(cache, calls[all[v].call], all[v].stale)
      ensures all[v].Loaded? && all[v].load.Good? ==> all[v].load.token.access != ""
    {
      assert v != t ==> v in rest && rest[v] == all[v];
    }
  }

  lemma EnterShrinks(s: State, t: ThreadId, k: Key, now: Time, v: ThreadId)
    requires Inv(s) && v in s.threads && Leads(s.threads[v])
    ensures s.threads[v].call in s.calls && s.threads[v].call != s.nextCall
    ensures Shrinks(s.cache, DoEnter(s, t, k, now).cache, s.calls[s.threads[v].call].key)
  {
    assert ThreadOk(s.calls, v, s.threads[v]);
    FindAfterLook(s.cache, s.calls[s.threads[v].call].key, k, now);
  }

  lemma EnterKeepsEntries(s: State, t: ThreadId, k: Key, now: Time)
    requires Inv(s) && t !in s.threads
    ensures var u := DoEnter(s, t, k, now); EntriesOk(u.cache, u.calls, u.threads)
  {
    var u := DoEnter(s, t, k, now);
    EnterKeepsOthers(s, t, k, now);
    EnteredThreadIsOk(s, t, k, now);
    AddThreadKeepsEntries(u.cache, u.calls, s.threads, t, u.threads[t]);
  }

  lemma EnterKeepsOthers(s: State, t: ThreadId, k: Key, now: Time)
    requires Inv(s) && t !in s.threads
    ensures var u := DoEnter(s, t, k, now); EntriesOk(u.cache, u.calls, s.threads - {t})
  {
    var u := DoEnter(s, t, k, now);
    forall v | v in s.threads && Leads(s.threads[v])
      ensures s.threads[v].call != s.nextCall
      ensures Shrinks(s.cache, u.cache, s.calls[s.threads[v].call].key)
    {
      EnterShrinks(s, t, k, now, v);
    }
    OthersKeepEntries(s.cache, u.cache, s.calls, u.calls, s.threads, t);
  }

  lemma EnteredThreadIsOk(s: State, t: ThreadId, k: Key, now: Time)
    requires Inv(s) && t !in s.threads
    ensures var u := DoEnter(s, t, k, now);
            && t in u.threads && u.threads == s.threads[t := u.threads[t]] && !u.threads[t].Loaded?
            && (Leads(u.threads[t]) ==>
                  u.threads[t].call in u.calls && SeenOk(u.cache, u.calls[u.threads[t].call], u.threads[t].stale))
  {
    LookKeepsTokens(s.cache, k, now);
    FindAfterLook(s.cache, k, k, now);
  }

  lemma FinishKeepsEntries(config: Config, s: State, t: ThreadId, now: Time)
    requires Inv(s) && t in s.threads && s.threads[t].Loaded? && s.threads[t].call in s.calls
    ensures var u := DoFinish(config, s, t, now); EntriesOk(u.cache, u.calls, u.threads)
  {
    var u := DoFinish(config, s, t, now);
    assert ThreadOk(s.calls, t, s.threads[t]);
    assert CallOk(s.flights, s.threads, s.threads[t].call, s.calls[s.threads[t].call]);
    forall v | v in s.threads && v != t && Leads(s.threads[v])
      ensures Shrinks(s.cache, u.cache, s.calls[s.threads[v].call].key)
      ensures s.threads[v].call != s.threads[t].call
    {
      assert ThreadOk(s.calls, v, s.threads[v]);
      assert CallOk(s.flights, s.threads, s.threads[v].call, s.calls[s.threads[v].call]);
      StepShrinks(config, s, Finish(t, now), s.calls[s.threads[v].call].key);
    }
    OthersKeepEntries(s.cache, u.cache, s.calls, u.calls, s.threads, t);
    assert forall v | v in u.threads && v != t :: v in s.threads - {t} && u.threads[v] == (s.threads - {t})[v];
  }

  lemma StepKeepsEntries(config: Config, s: State, step: Step)
    requires Inv(s) && Next(config, s, step).Some?
    ensures var u := Next(config, s, step).value; EntriesOk(u.cache, u.calls, u.threads)
  {
    match step
    case Enter(t, k, now) => EnterKeepsEntries(s, t, k, now);
    case Finish(t, now) => FinishKeepsEntries(config, s, t, now);
    case Drop(k) =>
      forall v | v in s.threads && Leads(s.threads[v])
        ensures Shrinks(s.cache, Without(s.cache, k), s.calls[s.threads[v].call].key)
      {
        StepShrinks(config, s, step, s.calls[s.threads[v].call].key);
      }
    case _ =>
  }

  lemma StepKeepsInv(config: Config, s: State, step: Step)
    requires Inv(s) && Next(config, s, step).Some?
    ensures Inv(Next(config, s, step).value)
  {
    StepKeepsFlights(config, s, step);
    StepKeepsEntries(config, s, step);
    StepKeepsTokens(config, s, step);
  }

  lemma {:induction false} RunKeepsInv(config: Config, s: State, steps: seq<Step>)
    requires Inv(s) && IsRun(config, s, steps)
    ensures Inv(Exec(config, s, steps))
    decreases |steps|
  {
    if steps != [] {
      StepKeepsInv(config, s, steps[0]);
      RunKeepsInv(config, Next(config, s, steps[0]).value, steps[1..]);
    }
  }

  // ---------------------------------------------------------------------------
  // Main results, over every run from the empty cache
  // ---------------------------------------------------------------------------

  /**
   Single flight: two threads that are loading the same key are the same thread, and a
   finished call ran its loader exactly once.
   */
  lemma OneLoaderPerKey(config: Config, steps: seq<Step>, t: ThreadId, u: ThreadId)
    requires IsRun(config, INIT, steps)
    requires var s := Exec(config, INIT, steps);
             && t in s.threads && Leads(s.threads[t]) && u in s.threads && Leads(s.threads[u])
             && s.threads[t].call in s.calls && s.threads[u].call in s.calls
             && s.calls[s.threads[t].call].key == s.calls[s.threads[u].call].key
    ensures t == u
    ensures var s := Exec(config, INIT, steps);
            forall c | c in s.calls :: s.calls[c].loads <= 1 && (s.calls[c].done ==> s.calls[c].loads == 1)
  {
    RunKeepsInv(config, INIT, steps);
    var s := Exec(config, INIT, steps);
    assert ThreadOk(s.calls, t, s.threads[t]) && ThreadOk(s.calls, u, s.threads[u]);
    assert CallOk(s.flights, s.threads, s.threads[t].call, s.calls[s.threads[t].call]);
    assert CallOk(s.flights, s.threads, s.threads[u].call, s.calls[s.threads[u].call]);
    forall c | c in s.calls
      ensures s.calls[c].loads <= 1 && (s.calls[c].done ==> s.calls[c].loads == 1)
    {
      assert CallOk(s.flights, s.threads, c, s.calls[c]);
      if !s.calls[c].done {
        assert ThreadOk(s.calls, s.calls[c].leader, s.threads[s.calls[c].leader]);
      }
    }
  }

  /** Everyone who returned from one call, leader or waiter, got the same token and error. */
  lemma WaitersGetTheLeadersResult(config: Config, steps: seq<Step>, t: ThreadId, u: ThreadId)
    requires IsRun(config, INIT, steps)
    requires var s := Exec(config, INIT, steps);
             && t in s.threads && s.threads[t].FromCall? && u in s.threads && s.threads[u].FromCall?
             && s.threads[t].call == s.threads[u].call
    ensures var s := Exec(config, INIT, steps);
            s.threads[t].token == s.threads[u].token && s.threads[t].error == s.threads[u].error
  {
    RunKeepsInv(config, INIT, steps);
    var s := Exec(config, INIT, steps);
    assert ThreadOk(s.calls, t, s.threads[t]) && ThreadOk(s.calls, u, s.threads[u]);
  }

  /** A token a flight hands out is non-empty and had not expired when it was last checked. */
  lemma FlightsReturnLiveTokens(config: Config, steps: seq<Step>, t: ThreadId)
    requires IsRun(config, INIT, steps)
    requires var s := Exec(config, INIT, steps);
             t in s.threads && s.threads[t].FromCall? && s.threads[t].error.None?
    ensures var s := Exec(config, INIT, steps);
            && s.threads[t].call in s.calls && s.threads[t].token.access != ""
            && s.calls[s.threads[t].call].vouched < s.threads[t].token.expires
  {
    RunKeepsInv(config, INIT, steps);
    var s := Exec(config, INIT, steps);
    assert ThreadOk(s.calls, t, s.threads[t]);
    assert CallOk(s.flights, s.threads, s.threads[t].call, s.calls[s.threads[t].call]);
  }

  /** A good load is served from the cache until its refresh time, unless it is dropped. */
  lemma LoadedTokenIsServed(config: Config, s: State, t: ThreadId, now: Time, later: Time)
    requires config.Accepted()
    requires t in s.threads && s.threads[t].Loaded? && s.threads[t].call in s.calls && s.threads[t].load.Good?
    requires later < s.threads[t].load.token.expires - config.skew
    ensures var u := DoFinish(config, s, t, now);
            && Look(u.cache, s.calls[s.threads[t].call].key, later) == Hit(s.threads[t].load.token)
            && u.threads[t] == FromCall(s.threads[t].call, s.threads[t].load.token, None)
  {
    var k := s.calls[s.threads[t].call].key;
    var d := ToFront(s.cache, k, Fresh(s.threads[t].load.token, now, config.skew));
    assert Trim(d, config.capacity)[0] == d[0];
  }

  ghost predicate InFlight(config: Config, s: State, steps: seq<Step>, k: Key, c: CallId)
    requires IsRun(config, s, steps)
    decreases |steps|
  {
    k in s.flights && s.flights[k] == c
    && (steps == [] || InFlight(config, Next(config, s, steps[0]).value, steps[1..], k, c))
  }

  /** For as long as a flight lasts, the entry of its key is unchanged or removed, never replaced. */
  lemma {:induction false} FlightFreezesEntry(config: Config, s: State, steps: seq<Step>, k: Key, c: CallId)
    requires Inv(s) && IsRun(config, s, steps) && InFlight(config, s, steps, k, c)
    ensures Shrinks(s.cache, Exec(config, s, steps).cache, k)
    decreases |steps|
  {
    if steps != [] {
      StepKeepsInv(config, s, steps[0]);
      StepShrinks(config, s, steps[0], k);
      FlightFreezesEntry(config, Next(config, s, steps[0]).value, steps[1..], k, c);
    }
  }

  // ---------------------------------------------------------------------------
  // What each critical section answers and stores
  // ---------------------------------------------------------------------------

  /**
   Entering: a fresh token or a live error is answered from the cache; otherwise the thread joins
   the flight of its key or starts one, remembering a token that is stale but not expired.
   */
  lemma EnterAnswers(config: Config, s: State, t: ThreadId, k: Key, now: Time)
    requires t !in s.threads && !Blank(k)
    ensures Next(config, s, Enter(t, k, now)).Some?
    ensures var u := Next(config, s, Enter(t, k, now)).value;
            var found := Find(s.cache, k);
            t in u.threads &&
            var x := u.threads[t];
            if found.Some? && found.value.Positive?
               && now < found.value.token.expires && now < found.value.serveUntil then
              x == FromCache(Hit(found.value.token)) && u.flights == s.flights
            else if found.Some? && found.value.Negative? && now < found.value.until then
              x == FromCache(Refused(found.value.error)) && u.flights == s.flights
            else if k in s.flights then
              x == Waiting(s.flights[k]) && u.flights == s.flights
            else
              && x.Loading? && x.call == s.nextCall && u.flights == s.flights[k := s.nextCall]
              && x.stale == (if found.Some? && found.value.Positive? && now < found.value.token.expires
                             then found.value.token else ZERO)
  {
  }

  /** A blank key is rejected and changes nothing else. */
  lemma BlankKeyIsRejected(config: Config, s: State, t: ThreadId, k: Key, now: Time)
    requires t !in s.threads && Blank(k)
    ensures Next(config, s, Enter(t, k, now)) == Some(s.(threads := s.threads[t := Rejected]))
  {
  }

  /** A loaded token counts exactly if it is non-empty and unexpired; otherwise the load has failed for good. */
  lemma LoadIsChecked(config: Config, s: State, t: ThreadId, load: Load, now: Time)
    requires t in s.threads && s.threads[t].Loading? && s.threads[t].call in s.calls
    ensures Next(config, s, RunLoader(t, load, now)).Some?
    ensures var x := Next(config, s, RunLoader(t, load, now)).value.threads[t];
            && x.Loaded? && x.call == s.threads[t].call && x.stale == s.threads[t].stale && x.at == now
            && (load.Good? && load.token.access != "" && now < load.token.expires ==> x.load == load)
            && (load.Good? && (load.token.access == "" || load.token.expires <= now) ==>
                  x.load.Bad? && !x.load.transient)
            && (load.Bad? ==> x.load == load)
  {
  }

  /** A transient failure falls back to the token remembered at entry, if that has not expired. */
  predicate FallsBack(x: Thread, now: Time)
    requires x.Loaded?
  {
    x.load.Bad? && x.load.transient && x.stale.access != "" && now < x.stale.expires
  }

  /**
   What a failed load returns and does to the cache: a permanent failure and a fallback leave it
   alone; a transient failure without fallback makes lookups answer its error for the lifetime of
   negative entries, if there is one.
   */
  lemma FailedLoadEffect(config: Config, s: State, t: ThreadId, now: Time, later: Time)
    requires config.Accepted()
    requires t in s.threads && s.threads[t].Loaded? && s.threads[t].call in s.calls && s.threads[t].load.Bad?
    ensures Next(config, s, Finish(t, now)).Some?
    ensures var u := Next(config, s, Finish(t, now)).value;
            var x, k := s.threads[t], s.calls[s.threads[t].call].key;
            && k !in u.flights
            && u.threads[t] == (if FallsBack(x, now) then FromCall(x.call, x.stale, None)
                                else FromCall(x.call, ZERO, Some(x.load.error)))
            && (if x.load.transient && !FallsBack(x, now) && config.negativeTTL > 0 then
                  && (later < now + config.negativeTTL ==> Look(u.cache, k, later) == Refused(x.load.error))
                  && (now + config.negativeTTL <= later ==> Look(u.cache, k, later) == Miss)
                else u.cache == s.cache)
  {
    var x, k := s.threads[t], s.calls[s.threads[t].call].key;
    var d := ToFront(s.cache, k, Negative(x.load.error, now + config.negativeTTL));
    assert Trim(d, config.capacity)[0] == d[0];
  }

  /** An entry turns negative only when a transient load fails, and never displaces a live token. */
  lemma NegativeNeverDisplacesLiveToken(config: Config, steps: seq<Step>, t: ThreadId, now: Time)
    requires IsRun(config, INIT, steps)
    requires var s := Exec(config, INIT, steps);
             t in s.threads && s.threads[t].Loaded? && s.threads[t].call in s.calls
    ensures var s := Exec(config, INIT, steps);
            var k := s.calls[s.threads[t].call].key;
            Next(config, s, Finish(t, now)).Some? &&
            var before, after := Find(s.cache, k), Find(Next(config, s, Finish(t, now)).value.cache, k);
            after != before && after.Some? && after.value.Negative? ==>
              && s.threads[t].load.Bad? && s.threads[t].load.transient && config.negativeTTL > 0
              && (before.None? || (before.value.Positive? && before.value.token.expires <= now))
  {
    RunKeepsInv(config, INIT, steps);
    var s := Exec(config, INIT, steps);
    var x := s.threads[t];
    var k := s.calls[x.call].key;
    assert SeenOk(s.cache, s.calls[x.call], x.stale);
    if x.load.Good? {
      FindStored(s.cache, k, Fresh(x.load.token, now, config.skew), config.capacity);
    }
  }

  lemma FindStored(c: Recency, k: Key, payload: Payload, capacity: nat)
    ensures Find(Store(c, k, payload, capacity), k) == if capacity > 0 then Some(payload) else None
  {
    var d := ToFront(c, k, payload);
    assert capacity > 0 ==> Trim(d, capacity)[0] == d[0];
  }

  /** Invalidation forgets its key and nothing else; a flush forgets everything. */
  lemma DropsForget(config: Config, s: State, k: Key, other: Key)
    ensures Next(config, s, Drop(k)).Some? && Next(config, s, DropAll).Some?
    ensures Find(Next(config, s, Drop(k)).value.cache, other) == if other == k then None else Find(s.cache, other)
    ensures Find(Next(config, s, DropAll).value.cache, other) == None
  {
    FindWithout(s.cache, other, k);
  }

  /** A waiter can return as soon as its call is done, and until then the call has a leader who can go on. */
  lemma WaiterIsNotStranded(config: Config, steps: seq<Step>, t: ThreadId, load: Load, now: Time)
    requires IsRun(config, INIT, steps)
    requires t in Exec(config, INIT, steps).threads && Exec(config, INIT, steps).threads[t].Waiting?
    ensures var s := Exec(config, INIT, steps);
            s.threads[t].call in s.calls &&
            var call := s.calls[s.threads[t].call];
            if call.done then Next(config, s, Wake(t)).Some?
            else
              || Next(config, s, RunLoader(call.leader, load, now)).Some?
              || Next(config, s, Finish(call.leader, now)).Some?
  {
    RunKeepsInv(config, INIT, steps);
    var s := Exec(config, INIT, steps);
    assert ThreadOk(s.calls, t, s.threads[t]);
    assert CallOk(s.flights, s.threads, s.threads[t].call, s.calls[s.threads[t].call]);
  }
}
