/**
 Whole runs of `Begin` and `Complete`, with any number of completions in progress at once.
 The log records what an outsider sees; the theorems read nothing else.
 */
module AuthorizationRuns {
  import opened Options
  import opened Authorization

  type ThreadId = nat
  type Principal = nat
  type KeyOf = Principal -> Key

  datatype Event =
    | Began(state: StateId, principal: Principal, attempt: Attempt)
    | Consumed(state: StateId, now: Time)
    | Exchanged(state: StateId, verifier: nat, redirect: nat, granted: bool)
    | Saved(state: StateId, key: Key)

  type Log = seq<Event>

  /** A call of `Complete` after its critical section: before the exchange, then before the save. */
  datatype Completion =
    | Holding(state: StateId, attempt: Attempt, since: nat)
    | Granted(state: StateId, attempt: Attempt, exchange: nat)

  /** `seen` are all states ever drawn; `began` gives the log position of each accepted `Begin`. */
  datatype State = State(
    table: Table,
    seen: set<StateId>,
    began: map<StateId, nat>,
    threads: map<ThreadId, Completion>,
    log: Log)

  datatype Step =
    | Begin(principal: Principal, state: StateId, verifier: nat, redirect: nat, expiresAt: Time, now: Time)
    | Consume(thread: ThreadId, state: StateId, now: Time)
    | Abandon(thread: ThreadId)
    | Exchange(thread: ThreadId, granted: bool)
    | Save(thread: ThreadId, ok: bool)

  function Init(): State {
    State(Table(map[], map[]), {}, map[], map[], [])
  }

  function DoBegin(s: State, p: Principal, r: StateId, a: Attempt, now: Time): State {
    var table := AfterBegin(s.table, r, a, now);
    if Refuses(s.table, a.key, now) then s.(table := table, seen := s.seen + {r})
    else State(table, s.seen + {r}, s.began[r := |s.log|], s.threads, s.log + [Began(r, p, a)])
  }

  function DoConsume(s: State, t: ThreadId, r: StateId, now: Time): State {
    var table := AfterComplete(s.table, r, now);
    if !Finds(s.table, r, now) then s.(table := table)
    else s.(table := table, threads := s.threads[t := Holding(r, s.table.pending[r], |s.log|)],
            log := s.log + [Consumed(r, now)])
  }

  function DoExchange(s: State, t: ThreadId, granted: bool): State
    requires t in s.threads
  {
    var c := s.threads[t];
    s.(threads := if granted then s.threads[t := Granted(c.state, c.attempt, |s.log|)] else s.threads - {t},
       log := s.log + [Exchanged(c.state, c.attempt.verifier, c.attempt.redirect, granted)])
  }

  /** States are drawn at random: the model takes every draw to be new. */
  function Next(keyOf: KeyOf, s: State, step: Step): Option<State> {
    match step
    case Begin(p, r, verifier, redirect, expiresAt, now) =>
      if r in s.seen then None
      else Some(DoBegin(s, p, r, Attempt(keyOf(p), verifier, redirect, expiresAt), now))
    case Consume(t, r, now) =>
      if t in s.threads then None else Some(DoConsume(s, t, r, now))
    case Abandon(t) =>
      if t !in s.threads || !s.threads[t].Holding? then None else Some(s.(threads := s.threads - {t}))
    case Exchange(t, granted) =>
      if t !in s.threads || !s.threads[t].Holding? then None else Some(DoExchange(s, t, granted))
    case Save(t, ok) =>
      if t !in s.threads || !s.threads[t].Granted? then None
      else Some(s.(threads := s.threads - {t},
                   log := if ok then s.log + [Saved(s.threads[t].state, s.threads[t].attempt.key)] else s.log))
  }

  // ---------------------------------------------------------------------------
  // What the log must look like
  // ---------------------------------------------------------------------------

  predicate IsBegin(log: Log, a: nat, r: StateId) {
    a < |log| && log[a].Began? && log[a].state == r
  }

  predicate IsConsume(log: Log, b: nat, r: StateId) {
    b < |log| && log[b].Consumed? && log[b].state == r
  }

  predicate IsExchange(log: Log, i: nat, r: StateId) {
    i < |log| && log[i].Exchanged? && log[i].state == r
  }

  predicate IsGranted(log: Log, i: nat, r: StateId) {
    IsExchange(log, i, r) && log[i].granted
  }

  /** No `Begin` for the key of the one at `a` between `a` and `b`. */
  ghost predicate NotSuperseded(log: Log, a: nat, b: nat)
    requires a < b <= |log| && log[a].Began?
  {
    forall c | a < c < b :: !(log[c].Began? && log[c].attempt.key == log[a].attempt.key)
  }

  /** `Began` at `a` and its consumption at `b`, in time and before any newer attempt of the same user. */
  ghost predicate Chain(log: Log, a: nat, b: nat, r: StateId) {
    && IsBegin(log, a, r) && IsConsume(log, b, r) && a < b
    && log[b].now < log[a].attempt.expiresAt
    && NotSuperseded(log, a, b)
  }

  ghost predicate NoExchangeBefore(log: Log, i: nat, r: StateId) {
    forall j | 0 <= j < i :: !IsExchange(log, j, r)
  }

  /** An exchange uses the verifier and redirect URI of its own `Begin`, in time, and for the first time. */
  ghost predicate ExchangeOk(log: Log, i: nat)
    requires i < |log| && log[i].Exchanged?
  {
    && NoExchangeBefore(log, i, log[i].state)
    && exists a: nat, b: nat :: b < i && Chain(log, a, b, log[i].state)
                      && log[a].attempt.verifier == log[i].verifier && log[a].attempt.redirect == log[i].redirect
  }

  /** A grant is saved under the record key of the principal who began it, after the exchange. */
  ghost predicate SaveOk(keyOf: KeyOf, log: Log, i: nat)
    requires i < |log| && log[i].Saved?
  {
    exists a: nat, e: nat :: a < e < i && IsBegin(log, a, log[i].state) && IsGranted(log, e, log[i].state)
                   && log[i].key == log[a].attempt.key == keyOf(log[a].principal)
  }

  ghost predicate EventOk(keyOf: KeyOf, log: Log, i: nat)
    requires i < |log|
  {
    (log[i].Exchanged? ==> ExchangeOk(log, i)) && (log[i].Saved? ==> SaveOk(keyOf, log, i))
  }

  ghost predicate LogOk(keyOf: KeyOf, log: Log) {
    forall i | 0 <= i < |log| :: EventOk(keyOf, log, i)
  }

  lemma ChainGrows(log: Log, e: Event, a: nat, b: nat, r: StateId)
    requires Chain(log, a, b, r)
    ensures Chain(log + [e], a, b, r)
  {
  }

  lemma EventStaysOk(keyOf: KeyOf, log: Log, e: Event, i: nat)
    requires i < |log| && EventOk(keyOf, log, i)
    ensures EventOk(keyOf, log + [e], i)
  {
    var more := log + [e];
    if log[i].Exchanged? {
      var a: nat, b: nat :| b < i && Chain(log, a, b, log[i].state)
                  && log[a].attempt.verifier == log[i].verifier && log[a].attempt.redirect == log[i].redirect;
      ChainGrows(log, e, a, b, log[i].state);
      forall j | 0 <= j < i
        ensures !IsExchange(more, j, more[i].state)
      {
        assert !IsExchange(log, j, log[i].state);
      }
    }
    if log[i].Saved? {
      var a: nat, x: nat :| a < x < i && IsBegin(log, a, log[i].state) && IsGranted(log, x, log[i].state)
                  && log[i].key == log[a].attempt.key == keyOf(log[a].principal);
      assert IsBegin(more, a, more[i].state) && IsGranted(more, x, more[i].state);
    }
  }

  lemma LogGrows(keyOf: KeyOf, log: Log, e: Event)
    requires LogOk(keyOf, log) && EventOk(keyOf, log + [e], |log|)
    ensures LogOk(keyOf, log + [e])
  {
    forall i | 0 <= i < |log + [e]|
      ensures EventOk(keyOf, log + [e], i)
    {
      if i < |log| {
        EventStaysOk(keyOf, log, e, i);
      }
    }
  }

  // ---------------------------------------------------------------------------
  // The invariant
  // ---------------------------------------------------------------------------

  /** The accepted `Begin` of `r` is at `a`, for the attempt `x`. */
  ghost predicate BeganAs(keyOf: KeyOf, log: Log, a: nat, r: StateId, x: Attempt) {
    IsBegin(log, a, r) && log[a].attempt == x && x.key == keyOf(log[a].principal)
  }

  /** Only new states appear in new events. */
  ghost predicate SeenOk(seen: set<StateId>, log: Log, began: map<StateId, nat>, threads: map<ThreadId, Completion>) {
    && (forall i | 0 <= i < |log| :: log[i].state in seen)
    && (forall r | r in began :: r in seen)
    && (forall t | t in threads :: threads[t].state in seen)
  }

  /** A pending state began, was not superseded, and has not been consumed. */
  ghost predicate PendingOk(keyOf: KeyOf, log: Log, began: map<StateId, nat>, r: StateId, x: Attempt) {
    && r in began && BeganAs(keyOf, log, began[r], r, x)
    && NotSuperseded(log, began[r], |log|)
    && (forall b | 0 <= b < |log| :: !IsConsume(log, b, r))
  }

  ghost predicate AllPendingOk(keyOf: KeyOf, log: Log, began: map<StateId, nat>, pending: map<StateId, Attempt>) {
    forall r | r in pending :: PendingOk(keyOf, log, began, r, pending[r])
  }

  ghost predicate ThreadOk(keyOf: KeyOf, log: Log, began: map<StateId, nat>, c: Completion) {
    && c.state in began && BeganAs(keyOf, log, began[c.state], c.state, c.attempt)
    && match c
       case Holding(r, _, since) => Chain(log, began[r], since, r) && NoExchangeBefore(log, |log|, r)
       case Granted(r, _, exchange) => IsGranted(log, exchange, r) && began[r] < exchange
  }

  ghost predicate ThreadsOk(keyOf: KeyOf, log: Log, began: map<StateId, nat>, threads: map<ThreadId, Completion>) {
    && (forall t | t in threads :: ThreadOk(keyOf, log, began, threads[t]))
    && (forall t, u | t in threads && u in threads && t != u && threads[t].Holding? && threads[u].Holding? ::
          threads[t].state != threads[u].state)
  }


  ghost predicate Inv(keyOf: KeyOf, s: State) {
    && TableOk(s.table)
    && LogOk(keyOf, s.log)
    && SeenOk(s.seen, s.log, s.began, s.threads)
    && AllPendingOk(keyOf, s.log, s.began, s.table.pending)
    && ThreadsOk(keyOf, s.log, s.began, s.threads)
  }

  // --- Appending an event that is not about a given state ---

  lemma BeganAsGrows(keyOf: KeyOf, log: Log, e: Event, a: nat, r: StateId, x: Attempt)
    requires BeganAs(keyOf, log, a, r, x)
    ensures BeganAs(keyOf, log + [e], a, r, x)
  {
  }

  lemma PendingGrows(
      keyOf: KeyOf, log: Log, e: Event, began: map<StateId, nat>, began': map<StateId, nat>, r: StateId, x: Attempt)
    requires PendingOk(keyOf, log, began, r, x) && r in began' && began'[r] == began[r]
    requires e.Began? ==> e.attempt.key != x.key
    requires e.Consumed? ==> e.state != r
    ensures PendingOk(keyOf, log + [e], began', r, x)
  {
    var more := log + [e];
    forall b | 0 <= b < |more|
      ensures !IsConsume(more, b, r)
    {
      assert b < |log| ==> !IsConsume(log, b, r);
    }
  }

  lemma ThreadGrows(
      keyOf: KeyOf, log: Log, e: Event, began: map<StateId, nat>, began': map<StateId, nat>, c: Completion)
    requires ThreadOk(keyOf, log, began, c) && c.state in began' && began'[c.state] == began[c.state]
    requires e.Exchanged? && c.Holding? ==> e.state != c.state
    ensures ThreadOk(keyOf, log + [e], began', c)
  {
    var more := log + [e];
    if c.Holding? {
      ChainGrows(log, e, began[c.state], c.since, c.state);
      forall j | 0 <= j < |more|
        ensures !IsExchange(more, j, c.state)
      {
        assert j < |log| ==> !IsExchange(log, j, c.state);
      }
    }
  }

  lemma BeginKeepsInv(keyOf: KeyOf, s: State, p: Principal, r: StateId, a: Attempt, now: Time)
    requires Inv(keyOf, s) && r !in s.seen && a.key == keyOf(p)
    ensures Inv(keyOf, DoBegin(s, p, r, a, now))
  {
    PendingIsSeen(keyOf, s);
    BeginKeepsTable(s.table, r, a, now);
    if !Refuses(s.table, a.key, now) {
      LogGrows(keyOf, s.log, Began(r, p, a));
      BeginKeepsPending(keyOf, s, p, r, a, now);
      BeginKeepsSeen(s.seen, s.log, s.began, s.threads, p, r, a);
      BeginKeepsThreads(keyOf, s.seen, s.log, s.began, s.threads, p, r, a);
    }
  }

  lemma BeginKeepsSeen(seen: set<StateId>, log: Log, began: map<StateId, nat>, threads: map<ThreadId, Completion>,
                       p: Principal, r: StateId, a: Attempt)
    requires SeenOk(seen, log, began, threads)
    ensures SeenOk(seen + {r}, log + [Began(r, p, a)], began[r := |log|], threads)
  {
  }

  lemma BeginKeepsThreads(keyOf: KeyOf, seen: set<StateId>, log: Log, began: map<StateId, nat>,
                          threads: map<ThreadId, Completion>, p: Principal, r: StateId, a: Attempt)
    requires ThreadsOk(keyOf, log, began, threads) && r !in seen && forall t | t in threads :: threads[t].state in seen
    ensures ThreadsOk(keyOf, log + [Began(r, p, a)], began[r := |log|], threads)
  {
    ThreadsGrow(keyOf, log, Began(r, p, a), began, began[r := |log|], threads);
  }

  lemma PendingIsSeen(keyOf: KeyOf, s: State)
    requires AllPendingOk(keyOf, s.log, s.began, s.table.pending) && forall r | r in s.began :: r in s.seen
    ensures s.table.pending.Keys <= s.seen
  {
    forall q | q in s.table.pending
      ensures q in s.seen
    {
      assert PendingOk(keyOf, s.log, s.began, q, s.table.pending[q]);
    }
  }

  lemma ThreadsGrow(keyOf: KeyOf, log: Log, e: Event, began: map<StateId, nat>, began': map<StateId, nat>,
                    threads: map<ThreadId, Completion>)
    requires ThreadsOk(keyOf, log, began, threads)
    requires forall t | t in threads :: threads[t].state in began ==>
               threads[t].state in began' && began'[threads[t].state] == began[threads[t].state]
    requires !e.Exchanged?
    ensures ThreadsOk(keyOf, log + [e], began', threads)
  {
    forall t | t in threads
      ensures ThreadOk(keyOf, log + [e], began', threads[t])
    {
      ThreadGrows(keyOf, log, e, began, began', threads[t]);
    }
  }

  lemma BeginKeepsPending(keyOf: KeyOf, s: State, p: Principal, r: StateId, a: Attempt, now: Time)
    requires TableOk(s.table) && AllPendingOk(keyOf, s.log, s.began, s.table.pending)
    requires (forall i | 0 <= i < |s.log| :: s.log[i].state in s.seen) && r !in s.seen && a.key == keyOf(p)
    requires r !in s.table.pending && !Refuses(s.table, a.key, now)
    ensures AllPendingOk(keyOf, s.log + [Began(r, p, a)], s.began[r := |s.log|], AfterBegin(s.table, r, a, now).pending)
  {
    var pending := AfterBegin(s.table, r, a, now).pending;
    var began := s.began[r := |s.log|];
    forall q | q in pending
      ensures PendingOk(keyOf, s.log + [Began(r, p, a)], began, q, pending[q])
    {
      if q == r {
        BeginIsPending(keyOf, s, p, r, a);
      } else {
        OthersHaveOtherKeys(s.table, r, a, now, q);
        PendingGrows(keyOf, s.log, Began(r, p, a), s.began, began, q, s.table.pending[q]);
      }
    }
  }

  lemma BeginIsPending(keyOf: KeyOf, s: State, p: Principal, r: StateId, a: Attempt)
    requires (forall i | 0 <= i < |s.log| :: s.log[i].state in s.seen) && r !in s.seen && a.key == keyOf(p)
    ensures PendingOk(keyOf, s.log + [Began(r, p, a)], s.began[r := |s.log|], r, a)
  {
  }

  /** After an accepted `Begin`, every other pending attempt is of another user. */
  lemma OthersHaveOtherKeys(t: Table, r: StateId, a: Attempt, now: Time, q: StateId)
    requires TableOk(t) && r !in t.pending && !Refuses(t, a.key, now)
    requires q in AfterBegin(t, r, a, now).pending && q != r
    ensures q in t.pending && AfterBegin(t, r, a, now).pending[q] == t.pending[q] && t.pending[q].key != a.key
  {
    assert Indexed(t, q);
    PurgeKeepsTable(t, now);
  }

  lemma ConsumeKeepsInv(keyOf: KeyOf, s: State, t: ThreadId, r: StateId, now: Time)
    requires Inv(keyOf, s) && t !in s.threads
    ensures Inv(keyOf, DoConsume(s, t, r, now))
  {
    if Finds(s.table, r, now) {
      FoundKeepsInv(keyOf, s, t, r, now);
    } else {
      CompleteKeepsTable(s.table, r, now);
    }
  }

  lemma FoundKeepsInv(keyOf: KeyOf, s: State, t: ThreadId, r: StateId, now: Time)
    requires Inv(keyOf, s) && t !in s.threads && Finds(s.table, r, now)
    ensures Inv(keyOf, DoConsume(s, t, r, now))
  {
    var e := Consumed(r, now);
    assert PendingOk(keyOf, s.log, s.began, r, s.table.pending[r]);
    LogGrows(keyOf, s.log, e);
    ConsumeKeepsPending(keyOf, s, r, now);
    ConsumeKeepsSeen(s, t, r, s.table.pending[r], now);
    ConsumeKeepsThreads(keyOf, s.log, s.began, s.threads, t, r, s.table.pending[r], now);
  }

  lemma ConsumeKeepsPending(keyOf: KeyOf, s: State, r: StateId, now: Time)
    requires TableOk(s.table) && AllPendingOk(keyOf, s.log, s.began, s.table.pending)
    ensures TableOk(AfterComplete(s.table, r, now))
    ensures AllPendingOk(keyOf, s.log + [Consumed(r, now)], s.began, AfterComplete(s.table, r, now).pending)
  {
    CompleteKeepsTable(s.table, r, now);
    PendingSurvives(keyOf, s.log, Consumed(r, now), s.began, s.table.pending, AfterComplete(s.table, r, now).pending);
  }

  lemma ConsumeKeepsSeen(s: State, t: ThreadId, r: StateId, x: Attempt, now: Time)
    requires SeenOk(s.seen, s.log, s.began, s.threads) && r in s.began
    ensures SeenOk(s.seen, s.log + [Consumed(r, now)], s.began, s.threads[t := Holding(r, x, |s.log|)])
  {
  }

  lemma ConsumeKeepsThreads(keyOf: KeyOf, log: Log, began: map<StateId, nat>, threads: map<ThreadId, Completion>,
                            t: ThreadId, r: StateId, x: Attempt, now: Time)
    requires LogOk(keyOf, log) && ThreadsOk(keyOf, log, began, threads) && PendingOk(keyOf, log, began, r, x)
    requires now < x.expiresAt && t !in threads
    ensures ThreadsOk(keyOf, log + [Consumed(r, now)], began, threads[t := Holding(r, x, |log|)])
  {
    PendingNotExchanged(keyOf, log, began, r, x);
    PendingNotHeld(keyOf, log, began, threads, r, x);
    ThreadsGrow(keyOf, log, Consumed(r, now), began, began, threads);
    ConsumedIsHolding(keyOf, log, began, r, x, now);
  }

  lemma PendingSurvives(keyOf: KeyOf, log: Log, e: Event, began: map<StateId, nat>,
                        pending: map<StateId, Attempt>, pending': map<StateId, Attempt>)
    requires AllPendingOk(keyOf, log, began, pending) && !e.Began?
    requires forall r | r in pending' :: r in pending && pending'[r] == pending[r]
    requires e.Consumed? ==> e.state !in pending'
    ensures AllPendingOk(keyOf, log + [e], began, pending')
  {
    forall q | q in pending'
      ensures PendingOk(keyOf, log + [e], began, q, pending'[q])
    {
      PendingGrows(keyOf, log, e, began, began, q, pending[q]);
    }
  }

  lemma ConsumedIsHolding(keyOf: KeyOf, log: Log, began: map<StateId, nat>, r: StateId, x: Attempt, now: Time)
    requires PendingOk(keyOf, log, began, r, x) && now < x.expiresAt && NoExchangeBefore(log, |log|, r)
    ensures ThreadOk(keyOf, log + [Consumed(r, now)], began, Holding(r, x, |log|))
  {
    var more := log + [Consumed(r, now)];
    forall j | 0 <= j < |more|
      ensures !IsExchange(more, j, r)
    {
      assert j < |log| ==> !IsExchange(log, j, r);
    }
  }

  lemma ExchangedWasConsumed(keyOf: KeyOf, log: Log, j: nat) returns (b: nat)
    requires j < |log| && log[j].Exchanged? && EventOk(keyOf, log, j)
    ensures IsConsume(log, b, log[j].state)
  {
    var a: nat, c: nat :| c < j && Chain(log, a, c, log[j].state);
    b := c;
  }

  /** A pending state was never exchanged. */
  lemma PendingNotExchanged(keyOf: KeyOf, log: Log, began: map<StateId, nat>, r: StateId, x: Attempt)
    requires LogOk(keyOf, log) && PendingOk(keyOf, log, began, r, x)
    ensures NoExchangeBefore(log, |log|, r)
  {
    forall j | 0 <= j < |log|
      ensures !IsExchange(log, j, r)
    {
      if log[j].Exchanged? {
        assert EventOk(keyOf, log, j);
        var b := ExchangedWasConsumed(keyOf, log, j);
        assert !IsConsume(log, b, r);
      }
    }
  }

  /** A pending state is held by no completion. */
  lemma PendingNotHeld(keyOf: KeyOf, log: Log, began: map<StateId, nat>, threads: map<ThreadId, Completion>,
                       r: StateId, x: Attempt)
    requires ThreadsOk(keyOf, log, began, threads) && PendingOk(keyOf, log, began, r, x)
    ensures forall t | t in threads && threads[t].Holding? :: threads[t].state != r
  {
    forall t | t in threads && threads[t].Holding?
      ensures threads[t].state != r
    {
      assert ThreadOk(keyOf, log, began, threads[t]);
      assert IsConsume(log, threads[t].since, threads[t].state);
    }
  }

  lemma ExchangeKeepsInv(keyOf: KeyOf, s: State, t: ThreadId, granted: bool)
    requires Inv(keyOf, s) && t in s.threads && s.threads[t].Holding?
    ensures Inv(keyOf, DoExchange(s, t, granted))
  {
    var c := s.threads[t];
    var e := Exchanged(c.state, c.attempt.verifier, c.attempt.redirect, granted);
    var next := DoExchange(s, t, granted);
    assert ThreadOk(keyOf, s.log, s.began, c);
    HolderMayExchange(keyOf, s.log, s.began, c, granted);
    LogGrows(keyOf, s.log, e);
    PendingSurvives(keyOf, s.log, e, s.began, s.table.pending, s.table.pending);
    forall u | u in next.threads
      ensures ThreadOk(keyOf, next.log, s.began, next.threads[u])
    {
      if u == t {
        BeganAsGrows(keyOf, s.log, e, s.began[c.state], c.state, c.attempt);
      } else {
        ThreadGrows(keyOf, s.log, e, s.began, s.began, s.threads[u]);
      }
    }
  }

  lemma HolderMayExchange(keyOf: KeyOf, log: Log, began: map<StateId, nat>, c: Completion, granted: bool)
    requires c.Holding? && ThreadOk(keyOf, log, began, c)
    ensures EventOk(keyOf, log + [Exchanged(c.state, c.attempt.verifier, c.attempt.redirect, granted)], |log|)
  {
    var e := Exchanged(c.state, c.attempt.verifier, c.attempt.redirect, granted);
    var more := log + [e];
    ChainGrows(log, e, began[c.state], c.since, c.state);
    forall j | 0 <= j < |log|
      ensures !IsExchange(more, j, c.state)
    {
      assert !IsExchange(log, j, c.state);
    }
    assert Chain(more, began[c.state], c.since, more[|log|].state);
  }

  lemma SaveKeepsInv(keyOf: KeyOf, s: State, t: ThreadId)
    requires Inv(keyOf, s) && t in s.threads && s.threads[t].Granted?
    ensures var c := s.threads[t];
            Inv(keyOf, s.(threads := s.threads - {t}, log := s.log + [Saved(c.state, c.attempt.key)]))
  {
    var c := s.threads[t];
    var e := Saved(c.state, c.attempt.key);
    var more := s.log + [e];
    assert ThreadOk(keyOf, s.log, s.began, c);
    assert IsBegin(more, s.began[c.state], more[|s.log|].state) && IsGranted(more, c.exchange, more[|s.log|].state);
    LogGrows(keyOf, s.log, e);
    PendingSurvives(keyOf, s.log, e, s.began, s.table.pending, s.table.pending);
    ThreadsGrow(keyOf, s.log, e, s.began, s.began, s.threads);
  }

  lemma StepKeepsInv(keyOf: KeyOf, s: State, step: Step)
    requires Inv(keyOf, s) && Next(keyOf, s, step).Some?
    ensures Inv(keyOf, Next(keyOf, s, step).value)
  {
    match step
    case Begin(p, r, verifier, redirect, expiresAt, now) =>
      BeginKeepsInv(keyOf, s, p, r, Attempt(keyOf(p), verifier, redirect, expiresAt), now);
    case Consume(t, r, now) => ConsumeKeepsInv(keyOf, s, t, r, now);
    case Abandon(t) =>
    case Exchange(t, granted) => ExchangeKeepsInv(keyOf, s, t, granted);
    case Save(t, ok) =>
      if ok {
        SaveKeepsInv(keyOf, s, t);
      }
  }

  // ---------------------------------------------------------------------------
  // Runs
  // ---------------------------------------------------------------------------

  ghost predicate IsRun(keyOf: KeyOf, run: seq<State>, steps: seq<Step>) {
    && |run| == |steps| + 1
    && run[0] == Init()
    && forall k | 0 <= k < |steps| :: Next(keyOf, run[k], steps[k]) == Some(run[k + 1])
  }

  lemma InitHasInv(keyOf: KeyOf)
    ensures Inv(keyOf, Init())
  {
  }

  lemma {:induction false} RunKeepsInv(keyOf: KeyOf, run: seq<State>, steps: seq<Step>, k: nat)
    requires IsRun(keyOf, run, steps) && k < |run|
    ensures Inv(keyOf, run[k])
  {
    if k == 0 {
      InitHasInv(keyOf);
    } else {
      RunKeepsInv(keyOf, run, steps, k - 1);
      assert Next(keyOf, run[k - 1], steps[k - 1]) == Some(run[k - 1 + 1]);
      StepKeepsInv(keyOf, run[k - 1], steps[k - 1]);
    }
  }

  /** The indexes stay inverse, and a user with a pending attempt is never refused, in every reachable state. */
  lemma IndexesStayInverse(keyOf: KeyOf, run: seq<State>, steps: seq<Step>, k: nat, p: Principal, now: Time)
    requires IsRun(keyOf, run, steps) && k < |run|
    ensures Inverse(run[k].table) && |run[k].table.pending| <= MAX_PENDING
    ensures keyOf(p) in run[k].table.byKey ==> !Refuses(run[k].table, keyOf(p), now)
  {
    RunKeepsInv(keyOf, run, steps, k);
    if keyOf(p) in run[k].table.byKey {
      OwnerIsNeverRefused(run[k].table, keyOf(p), now);
    }
  }

  /**
   Every exchange follows, with the verifier and redirect URI of its own `Begin`, a
   consumption in time of an attempt not superseded by then.
   */
  lemma ExchangesAreJustified(keyOf: KeyOf, run: seq<State>, steps: seq<Step>, i: nat) returns (a: nat, b: nat)
    requires IsRun(keyOf, run, steps) && i < |run[|steps|].log| && run[|steps|].log[i].Exchanged?
    ensures var log := run[|steps|].log;
            && a < b < i && log[a].Began? && log[b].Consumed?
            && log[a].state == log[b].state == log[i].state
            && log[i].verifier == log[a].attempt.verifier && log[i].redirect == log[a].attempt.redirect
            && log[b].now < log[a].attempt.expiresAt
            && forall c | a < c < b :: log[c].Began? ==> log[c].attempt.key != log[a].attempt.key
  {
    RunKeepsInv(keyOf, run, steps, |steps|);
    var log := run[|steps|].log;
    assert EventOk(keyOf, log, i);
    a, b :| b < i && Chain(log, a, b, log[i].state)
            && log[a].attempt.verifier == log[i].verifier && log[a].attempt.redirect == log[i].redirect;
  }

  /** No state reaches the code exchange twice. */
  lemma StateIsExchangedOnce(keyOf: KeyOf, run: seq<State>, steps: seq<Step>, i: nat, j: nat)
    requires IsRun(keyOf, run, steps)
    requires i < |run[|steps|].log| && run[|steps|].log[i].Exchanged?
    requires j < |run[|steps|].log| && run[|steps|].log[j].Exchanged?
    requires run[|steps|].log[i].state == run[|steps|].log[j].state
    ensures i == j
  {
    RunKeepsInv(keyOf, run, steps, |steps|);
    var log := run[|steps|].log;
    assert EventOk(keyOf, log, i) && EventOk(keyOf, log, j);
    assert IsExchange(log, i, log[j].state) && IsExchange(log, j, log[i].state);
  }

  /** A grant is saved only after an exchange the server granted, under the record key of the principal who began it. */
  lemma GrantGoesToItsBeginner(keyOf: KeyOf, run: seq<State>, steps: seq<Step>, i: nat) returns (a: nat, e: nat)
    requires IsRun(keyOf, run, steps) && i < |run[|steps|].log| && run[|steps|].log[i].Saved?
    ensures var log := run[|steps|].log;
            && a < e < i && log[a].Began? && log[e].Exchanged? && log[e].granted
            && log[a].state == log[e].state == log[i].state
            && log[i].key == keyOf(log[a].principal)
  {
    RunKeepsInv(keyOf, run, steps, |steps|);
    var log := run[|steps|].log;
    assert EventOk(keyOf, log, i);
    a, e :| a < e < i && IsBegin(log, a, log[i].state) && IsGranted(log, e, log[i].state)
            && log[i].key == log[a].attempt.key == keyOf(log[a].principal);
  }

  // ---------------------------------------------------------------------------
  // What a completion leads to
  // ---------------------------------------------------------------------------

  /** The step, with clock reading before `expiresAt`, neither supersedes the attempt of `k` nor consumes `r`. */
  predicate Spares(keyOf: KeyOf, step: Step, k: Key, r: StateId, expiresAt: Time) {
    match step
    case Begin(p, _, _, _, _, now) => keyOf(p) != k && now < expiresAt
    case Consume(_, q, now) => q != r && now < expiresAt
    case _ => true
  }

  lemma SparedStaysPending(keyOf: KeyOf, s: State, step: Step, r: StateId, a: Attempt)
    requires Inv(keyOf, s) && r in s.table.pending && s.table.pending[r] == a
    requires Next(keyOf, s, step).Some? && Spares(keyOf, step, a.key, r, a.expiresAt)
    ensures var t := Next(keyOf, s, step).value.table; r in t.pending && t.pending[r] == a
  {
    match step
    case Begin(p, q, verifier, redirect, expiresAt, now) =>
      PendingIsSeen(keyOf, s);
      BeginSpares(s.table, q, Attempt(keyOf(p), verifier, redirect, expiresAt), now, r);
    case Consume(t, q, now) =>
    case Abandon(t) =>
    case Exchange(t, granted) =>
    case Save(t, ok) =>
  }

  lemma BeginSpares(t: Table, q: StateId, a: Attempt, now: Time, r: StateId)
    requires TableOk(t) && q !in t.pending && r in t.pending && !Expired(t.pending[r], now) && t.pending[r].key != a.key
    ensures var next := AfterBegin(t, q, a, now); r in next.pending && next.pending[r] == t.pending[r]
  {
    PurgeKeepsTable(t, now);
    var purged := Purged(t, now);
    if a.key in purged.byKey {
      assert PointsBack(purged, a.key);
    }
  }

  lemma {:induction false} SparedOverRun(
      keyOf: KeyOf, run: seq<State>, steps: seq<Step>, p: nat, m: nat, r: StateId, a: Attempt)
    requires IsRun(keyOf, run, steps) && p <= m < |run|
    requires r in run[p].table.pending && run[p].table.pending[r] == a
    requires forall q | p <= q < m :: Spares(keyOf, steps[q], a.key, r, a.expiresAt)
    ensures r in run[m].table.pending && run[m].table.pending[r] == a
    decreases m
  {
    if p < m {
      SparedOverRun(keyOf, run, steps, p, m - 1, r, a);
      RunKeepsInv(keyOf, run, steps, m - 1);
      assert Next(keyOf, run[m - 1], steps[m - 1]) == Some(run[m - 1 + 1]);
      SparedStaysPending(keyOf, run[m - 1], steps[m - 1], r, a);
    }
  }

  /**
   An accepted attempt that is neither superseded nor consumed by the time `now`, before its
   expiry, is found by the next completion, which can then exchange its code with the attempt's
   own verifier and redirect URI.  The clock has not passed the expiry in between.
   */
  lemma LiveStateLeadsToExchange(
      keyOf: KeyOf, run: seq<State>, steps: seq<Step>, p: nat, m: nat, t: ThreadId, now: Time, granted: bool)
    requires IsRun(keyOf, run, steps) && p < m < |run| && steps[p].Begin?
    requires !Refuses(run[p].table, keyOf(steps[p].principal), steps[p].now)
    requires forall q | p < q < m ::
               Spares(keyOf, steps[q], keyOf(steps[p].principal), steps[p].state, steps[p].expiresAt)
    requires now < steps[p].expiresAt && t !in run[m].threads
    ensures var b := steps[p];
            var consumed := Next(keyOf, run[m], Consume(t, b.state, now));
            consumed.Some? &&
            var exchanged := Next(keyOf, consumed.value, Exchange(t, granted));
            && exchanged.Some?
            && exchanged.value.log
               == run[m].log + [Consumed(b.state, now), Exchanged(b.state, b.verifier, b.redirect, granted)]
  {
    var b := steps[p];
    var a := Attempt(keyOf(b.principal), b.verifier, b.redirect, b.expiresAt);
    assert Next(keyOf, run[p], b) == Some(run[p + 1]);
    assert run[p + 1].table.pending[b.state] == a;
    SparedOverRun(keyOf, run, steps, p + 1, m, b.state, a);
    var consumed := Next(keyOf, run[m], Consume(t, b.state, now)).value;
    assert consumed.threads[t] == Holding(b.state, a, |run[m].log|);
    var x, y := Consumed(b.state, now), Exchanged(b.state, b.verifier, b.redirect, granted);
    assert run[m].log + [x] + [y] == run[m].log + [x, y];
  }

  /**
   A granted exchange leaves a completion whose only further step is to save the grant, and a
   successful save is logged; a refused exchange ends the completion.
   */
  lemma GrantedExchangeIsSaved(keyOf: KeyOf, s: State, t: ThreadId, granted: bool, ok: bool)
    requires t in s.threads && s.threads[t].Holding?
    ensures Next(keyOf, s, Exchange(t, granted)).Some?
    ensures var u := Next(keyOf, s, Exchange(t, granted)).value;
            if !granted then t !in u.threads
            else
              && t in u.threads && Next(keyOf, u, Save(t, ok)).Some?
              && Next(keyOf, u, Abandon(t)).None? && Next(keyOf, u, Exchange(t, true)).None?
              && t !in Next(keyOf, u, Save(t, ok)).value.threads
              && Next(keyOf, u, Save(t, ok)).value.log
                 == u.log + (if ok then [Saved(s.threads[t].state, s.threads[t].attempt.key)] else [])
  {
  }

  /** A completion that the provider refused, or that has no code, ends without an exchange or a save. */
  lemma AbandonedCompletionEnds(keyOf: KeyOf, s: State, t: ThreadId)
    requires t in s.threads && s.threads[t].Holding?
    ensures Next(keyOf, s, Abandon(t)) == Some(s.(threads := s.threads - {t}))
  {
  }

  /** Nobody else moves a completion, so that a granted one stays ready to save until it does. */
  lemma OthersLeaveCompletion(keyOf: KeyOf, s: State, step: Step, t: ThreadId)
    requires t in s.threads && Next(keyOf, s, step).Some? && (step.Begin? || step.thread != t)
    ensures t in Next(keyOf, s, step).value.threads && Next(keyOf, s, step).value.threads[t] == s.threads[t]
    ensures s.threads[t].Granted? ==> Next(keyOf, s, Save(t, true)).Some?
  {
  }
}
