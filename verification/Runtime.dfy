/**
 The runtime manager as a state machine.  Every atomic operation or critical
 section of `Acquire`, `Reload`, the drain goroutines and `Close` is one step, so
 that a run is an arbitrary interleaving of any number of callers.
 */
module Runtime {
  import opened Options
  import opened Generations

  type GenId = nat
  type LeaseId = nat
  type ThreadId = nat

  datatype LeaseRecord = LeaseRecord(gen: GenId, closed: bool)

  /**
   A call of `Acquire` between two atomic operations.  `fails` counts tries that met
   a retired generation; `since` is the number of publications when the call began;
   `at` is the position in the publication order of the generation it loaded.
   */
  datatype Acquirer =
    | Loading(fails: nat, since: nat)
    | Loaded(gen: GenId, at: nat, fails: nat, since: nat)

  /** The holder of the reload lock. */
  datatype ReloadStage =
    | Idle
    | Checked
    | Read(previous: Option<GenId>)
    | Built(previous: Option<GenId>, next: GenId)
    | Stored(previous: Option<GenId>, next: GenId)

  datatype CloseStage = NotClosing | Swapping | Swapped

  datatype WaitStage = Retiring | Waiting | Closing

  /** A drain goroutine, or the tail of `Manager.Close`: retire, wait, close. */
  datatype Waiter = Waiter(gen: GenId, stage: WaitStage)

  datatype State = State(
    gens: map<GenId, Life>,
    leases: map<LeaseId, LeaseRecord>,
    nextLease: LeaseId,
    current: Option<GenId>,
    nextID: GenId,
    closed: bool,
    closing: CloseStage,
    reload: ReloadStage,
    waiters: map<nat, Waiter>,
    nextWaiter: nat,
    acquirers: map<ThreadId, Acquirer>,
    published: seq<GenId>,
    forced: set<GenId>)

  datatype Step =
    | StartAcquire(thread: ThreadId)
    | LoadCurrent(thread: ThreadId)
    | TryAcquire(thread: ThreadId)
    | Retain(gen: GenId)
    | CloseLease(lease: LeaseId)
    | ReloadLock
    | ReloadRead
    | ReloadAbort
    | ReloadBuild(ok: bool)
    | ReloadPublish
    | ReloadSpawn
    | CloseCas
    | CloseSwap
    | WaiterRetire(waiter: nat)
    | WaiterDrained(waiter: nat)
    | WaiterTimeout(waiter: nat)
    | WaiterClose(waiter: nat)

  function Init(): State {
    State(map[1 := FRESH], map[], 0, Some(1), 1, false, NotClosing, Idle, map[], 0, map[], [1], {})
  }

  /** One successful `acquire` on generation `g`, returning a new lease. */
  function Mint(s: State, g: GenId): State
    requires g in s.gens
  {
    s.(gens := s.gens[g := Acquired(s.gens[g])],
       leases := s.leases[s.nextLease := LeaseRecord(g, false)],
       nextLease := s.nextLease + 1)
  }

  function WithLife(s: State, g: GenId, life: Life): State {
    s.(gens := s.gens[g := life])
  }

  function DoCloseLease(s: State, l: LeaseId): State
    requires l in s.leases && s.leases[l].gen in s.gens
  {
    var lease := s.leases[l];
    if lease.closed then s
    else s.(gens := s.gens[lease.gen := Released(s.gens[lease.gen])],
            leases := s.leases[l := lease.(closed := true)])
  }

  function AddWaiter(s: State, g: Option<GenId>): State {
    if g.None? then s
    else s.(waiters := s.waiters[s.nextWaiter := Waiter(g.value, Retiring)], nextWaiter := s.nextWaiter + 1)
  }

  function SetStage(s: State, w: nat, stage: WaitStage): State
    requires w in s.waiters
  {
    s.(waiters := s.waiters[w := s.waiters[w].(stage := stage)])
  }

  function DoStartAcquire(s: State, t: ThreadId): State {
    if s.closed then s else s.(acquirers := s.acquirers[t := Loading(0, |s.published|)])
  }

  function DoLoadCurrent(s: State, t: ThreadId): State
    requires t in s.acquirers && s.acquirers[t].Loading?
  {
    if s.current.None? || |s.published| == 0 then s.(acquirers := s.acquirers - {t})
    else s.(acquirers := s.acquirers[t := Loaded(s.current.value, |s.published| - 1,
                                                 s.acquirers[t].fails, s.acquirers[t].since)])
  }

  function DoTryAcquire(s: State, t: ThreadId): State
    requires t in s.acquirers && s.acquirers[t].Loaded? && s.acquirers[t].gen in s.gens
  {
    var a := s.acquirers[t];
    if s.gens[a.gen].retired then s.(acquirers := s.acquirers[t := Loading(a.fails + 1, a.since)])
    else Mint(s.(acquirers := s.acquirers - {t}), a.gen)
  }

  function DoRetain(s: State, g: GenId): State
    requires g in s.gens
  {
    if s.gens[g].retired then s else Mint(s, g)
  }

  function DoReloadBuild(s: State, ok: bool): State
    requires s.reload.Read?
  {
    var id := s.nextID + 1;
    if ok then s.(nextID := id, gens := s.gens[id := FRESH], reload := Built(s.reload.previous, id))
    else s.(nextID := id, reload := Idle)
  }

  function DoReloadPublish(s: State): State
    requires s.reload.Built?
  {
    s.(current := Some(s.reload.next), published := s.published + [s.reload.next],
       reload := Stored(s.reload.previous, s.reload.next))
  }

  function DoReloadSpawn(s: State): State
    requires s.reload.Stored?
  {
    AddWaiter(s.(reload := Idle), s.reload.previous)
  }

  function DoCloseSwap(s: State): State {
    AddWaiter(s.(current := None, closing := Swapped), s.current)
  }

  function DoWaiterRetire(s: State, w: nat): State
    requires w in s.waiters && s.waiters[w].stage.Retiring? && s.waiters[w].gen in s.gens
  {
    var g := s.waiters[w].gen;
    SetStage(WithLife(s, g, Retired(s.gens[g])), w, Waiting)
  }

  function DoWaiterClose(s: State, w: nat): State
    requires w in s.waiters && s.waiters[w].stage.Closing? && s.waiters[w].gen in s.gens
  {
    var g := s.waiters[w].gen;
    WithLife(s, g, Closed(s.gens[g])).(waiters := s.waiters - {w})
  }

  /** The effect of one step, or nothing if the step is not possible in `s`. */
  function Next(s: State, step: Step): Option<State> {
    match step
    case StartAcquire(t) => if t in s.acquirers then None else Some(DoStartAcquire(s, t))
    case LoadCurrent(t) =>
      if t in s.acquirers && s.acquirers[t].Loading? then Some(DoLoadCurrent(s, t)) else None
    case TryAcquire(t) =>
      if t in s.acquirers && s.acquirers[t].Loaded? && s.acquirers[t].gen in s.gens
      then Some(DoTryAcquire(s, t)) else None
    case Retain(g) => if g in s.published && g in s.gens then Some(DoRetain(s, g)) else None
    case CloseLease(l) =>
      if l in s.leases && s.leases[l].gen in s.gens then Some(DoCloseLease(s, l)) else None
    case ReloadLock => if s.reload.Idle? then Some(if s.closed then s else s.(reload := Checked)) else None
    case ReloadRead => if s.reload.Checked? then Some(s.(reload := Read(s.current))) else None
    case ReloadAbort => if s.reload.Checked? || s.reload.Read? then Some(s.(reload := Idle)) else None
    case ReloadBuild(ok) => if s.reload.Read? then Some(DoReloadBuild(s, ok)) else None
    case ReloadPublish => if s.reload.Built? then Some(DoReloadPublish(s)) else None
    case ReloadSpawn => if s.reload.Stored? then Some(DoReloadSpawn(s)) else None
    case CloseCas => Some(if s.closed then s else s.(closed := true, closing := Swapping))
    case CloseSwap => if s.closing.Swapping? then Some(DoCloseSwap(s)) else None
    case WaiterRetire(w) =>
      if w in s.waiters && s.waiters[w].stage.Retiring? && s.waiters[w].gen in s.gens
      then Some(DoWaiterRetire(s, w)) else None
    case WaiterDrained(w) =>
      if w in s.waiters && s.waiters[w].stage.Waiting? && s.waiters[w].gen in s.gens
         && s.gens[s.waiters[w].gen].drained > 0
      then Some(SetStage(s, w, Closing)) else None
    case WaiterTimeout(w) =>
      if w in s.waiters && s.waiters[w].stage.Waiting?
      then Some(SetStage(s.(forced := s.forced + {s.waiters[w].gen}), w, Closing)) else None
    case WaiterClose(w) =>
      if w in s.waiters && s.waiters[w].stage.Closing? && s.waiters[w].gen in s.gens
      then Some(DoWaiterClose(s, w)) else None
  }

  ghost predicate IsRun(s: State, steps: seq<Step>)
    decreases |steps|
  {
    steps == [] || (Next(s, steps[0]).Some? && IsRun(Next(s, steps[0]).value, steps[1..]))
  }

  ghost function Exec(s: State, steps: seq<Step>): State
    requires IsRun(s, steps)
    decreases |steps|
  {
    if steps == [] then s else Exec(Next(s, steps[0]).value, steps[1..])
  }

  /** The leases on `g` that nobody has closed yet. */
  function Live(s: State, g: GenId): set<LeaseId> {
    set l | l in s.leases && s.leases[l].gen == g && !s.leases[l].closed
  }

  // ---------------------------------------------------------------------------
  // Invariants
  // ---------------------------------------------------------------------------

  /** Reference counting: what one generation's fields say about its leases. */
  ghost predicate LifeOk(s: State, g: GenId)
    requires g in s.gens
  {
    var life := s.gens[g];
    && life.active == |Live(s, g)|
    && !life.panicked
    && life.drained == (if life.retired && life.active == 0 then 1 else 0)
    && life.closeRuns == (if life.closeOnce then 1 else 0)
    && (life.closeOnce && g !in s.forced ==> life.retired && life.active == 0)
  }

  ghost predicate LivesOk(s: State) {
    && (forall g | g in s.gens :: LifeOk(s, g))
    && (forall l | l in s.leases :: s.leases[l].gen in s.gens && l < s.nextLease)
  }

  predicate Increasing(ids: seq<GenId>) {
    forall i, j | 0 <= i < j < |ids| :: ids[i] < ids[j]
  }

  function Last(ids: seq<GenId>): GenId {
    if ids == [] then 0 else ids[|ids| - 1]
  }

  /** Publication: what is current, what was retired, and where a reload stands. */
  ghost predicate PublicationOk(s: State) {
    && s.published != [] && Increasing(s.published)
    && (forall g | g in s.published :: g in s.gens && g <= s.nextID)
    && (forall g | g in s.gens :: g <= s.nextID)
    && (s.current.Some? ==> s.current.value == Last(s.published))
    && (s.current.None? ==> s.closed)
    && (forall g | g in s.gens && s.gens[g].retired :: g in s.published && s.current != Some(g))
  }

  ghost predicate ReloadOk(s: State) {
    match s.reload
    case Idle => true
    case Checked => true
    case Read(p) => (p.Some? ==> p.value in s.published) && (s.current == p || s.current.None?)
    case Built(p, n) =>
      && (p.Some? ==> p.value in s.published) && (s.current == p || s.current.None?)
      && n == s.nextID && n in s.gens && Last(s.published) < n
    case Stored(p, n) =>
      && n == Last(s.published)
      && (p.Some? ==> p.value in s.published && p.value < n)
  }

  ghost predicate WaiterOk(s: State, w: nat)
    requires w in s.waiters
  {
    var x := s.waiters[w];
    && w < s.nextWaiter
    && x.gen in s.gens && x.gen in s.published && s.current != Some(x.gen)
    && (!x.stage.Retiring? ==> s.gens[x.gen].retired)
    && (x.stage.Closing? ==> x.gen in s.forced || s.gens[x.gen].drained > 0)
  }

  ghost predicate AcquirerOk(s: State, t: ThreadId)
    requires t in s.acquirers
  {
    match s.acquirers[t]
    case Loading(fails, since) =>
      && since <= |s.published|
      && since + fails <= |s.published| + 1
      && (s.current.Some? ==> since + fails <= |s.published|)
    case Loaded(g, at, fails, since) =>
      && at < |s.published| && s.published[at] == g
      && since + fails <= at + 1
  }

  ghost predicate Inv(s: State) {
    && LivesOk(s)
    && PublicationOk(s)
    && ReloadOk(s)
    && (forall w | w in s.waiters :: WaiterOk(s, w))
    && (forall t | t in s.acquirers :: AcquirerOk(s, t))
    && (s.closing.Swapping? ==> s.closed)
  }

  // ---------------------------------------------------------------------------
  // Preservation, one lemma for each kind of step
  // ---------------------------------------------------------------------------

  lemma LiveAfterMint(s: State, g: GenId, h: GenId)
    requires g in s.gens && s.nextLease !in s.leases
    ensures Live(Mint(s, g), h) == if h == g then Live(s, h) + {s.nextLease} else Live(s, h)
  {
  }

  lemma MintKeepsLives(s: State, g: GenId)
    requires LivesOk(s) && g in s.gens && !s.gens[g].retired
    ensures LivesOk(Mint(s, g))
  {
    var t := Mint(s, g);
    assert s.nextLease !in s.leases;
    forall h | h in t.gens
      ensures LifeOk(t, h)
    {
      assert LifeOk(s, h);
      LiveAfterMint(s, g, h);
    }
  }

  lemma MintKeepsInv(s: State, g: GenId)
    requires Inv(s) && g in s.gens && !s.gens[g].retired
    ensures Inv(Mint(s, g))
  {
    MintKeepsLives(s, g);
    KeepOthers(s, Mint(s, g));
  }

  /** Steps that change leases and counts only. */
  lemma KeepOthers(s: State, t: State)
    requires Inv(s) && t == s.(gens := t.gens, leases := t.leases, nextLease := t.nextLease)
    requires t.gens.Keys == s.gens.Keys && FlagsRaised(s, t)
    requires forall g | g in s.gens :: t.gens[g].retired == s.gens[g].retired
    requires LivesOk(t)
    ensures Inv(t)
  {
    KeepPublication(s, t);
    KeepWaiters(s, t);
    KeepAcquirers(s, t);
  }

  lemma CloseLeaseKeepsLives(s: State, l: LeaseId)
    requires LivesOk(s) && l in s.leases && s.leases[l].gen in s.gens && !s.leases[l].closed
    ensures LivesOk(DoCloseLease(s, l))
  {
    var t := DoCloseLease(s, l);
    var g := s.leases[l].gen;
    forall h | h in t.gens
      ensures LifeOk(t, h)
    {
      assert LifeOk(s, h);
      if h == g {
        assert l in Live(s, g);
        assert Live(t, g) == Live(s, g) - {l};
      } else {
        assert Live(t, h) == Live(s, h);
      }
    }
  }

  lemma CloseLeaseKeepsInv(s: State, l: LeaseId)
    requires Inv(s) && l in s.leases && s.leases[l].gen in s.gens
    ensures Inv(DoCloseLease(s, l))
  {
    if !s.leases[l].closed {
      CloseLeaseKeepsLives(s, l);
      KeepOthers(s, DoCloseLease(s, l));
    }
  }

  /** Steps that leave leases and generations alone, except for building a fresh one. */
  lemma KeepLives(s: State, t: State)
    requires LivesOk(s) && t.leases == s.leases && t.nextLease == s.nextLease && s.forced <= t.forced
    requires s.gens.Keys <= t.gens.Keys
    requires forall g | g in t.gens :: t.gens[g] == if g in s.gens then s.gens[g] else FRESH
    ensures LivesOk(t)
  {
    forall g | g in t.gens
      ensures LifeOk(t, g)
    {
      assert Live(t, g) == Live(s, g);
      if g in s.gens {
        assert LifeOk(s, g);
      } else {
        assert Live(s, g) == {};
      }
    }
  }

  lemma RetireOrCloseKeepsLives(s: State, g: GenId, life: Life)
    requires LivesOk(s) && g in s.gens
    requires || life == Retired(s.gens[g])
             || (life == Closed(s.gens[g]) && (g in s.forced || s.gens[g].drained > 0))
    ensures LivesOk(WithLife(s, g, life))
  {
    var t := WithLife(s, g, life);
    forall h | h in t.gens
      ensures LifeOk(t, h)
    {
      assert Live(t, h) == Live(s, h);
      assert LifeOk(s, h);
    }
  }

  lemma KeepPublication(s: State, t: State)
    requires PublicationOk(s) && ReloadOk(s)
    requires t.published == s.published && t.current == s.current && t.closed == s.closed
    requires t.nextID == s.nextID && t.reload == s.reload && t.gens.Keys == s.gens.Keys
    requires forall g | g in s.gens :: t.gens[g].retired == s.gens[g].retired
    ensures PublicationOk(t) && ReloadOk(t)
  {
  }

  /** `t` is `s` with flags of generations only ever raised. */
  ghost predicate FlagsRaised(s: State, t: State) {
    && s.forced <= t.forced
    && forall g | g in s.gens ::
         && g in t.gens
         && (s.gens[g].retired ==> t.gens[g].retired)
         && s.gens[g].drained <= t.gens[g].drained
  }

  lemma KeepWaiters(s: State, t: State)
    requires forall w | w in s.waiters :: WaiterOk(s, w)
    requires forall w | w in t.waiters :: w in s.waiters && t.waiters[w] == s.waiters[w]
    requires t.nextWaiter == s.nextWaiter && t.published == s.published && FlagsRaised(s, t)
    requires t.current == s.current || t.current.None?
    ensures forall w | w in t.waiters :: WaiterOk(t, w)
  {
    forall w | w in t.waiters
      ensures WaiterOk(t, w)
    {
      assert WaiterOk(s, w);
    }
  }

  lemma KeepAcquirers(s: State, t: State)
    requires forall u | u in s.acquirers :: AcquirerOk(s, u)
    requires t.acquirers == s.acquirers && t.published == s.published
    requires t.current == s.current || t.current.None?
    ensures forall u | u in t.acquirers :: AcquirerOk(t, u)
  {
    forall u | u in t.acquirers
      ensures AcquirerOk(t, u)
    {
      assert AcquirerOk(s, u);
    }
  }

  /** A step that only moves the callers of `Acquire`. */
  lemma OnlyAcquirersChange(s: State, t: State)
    requires Inv(s) && t == s.(acquirers := t.acquirers)
    requires forall u | u in t.acquirers :: AcquirerOk(t, u)
    ensures Inv(t)
  {
    KeepLives(s, t);
    KeepPublication(s, t);
    KeepWaiters(s, t);
  }

  lemma StartAcquireKeepsInv(s: State, v: ThreadId)
    requires Inv(s)
    ensures Inv(DoStartAcquire(s, v))
  {
    var t := DoStartAcquire(s, v);
    if !s.closed {
      forall u | u in t.acquirers
        ensures AcquirerOk(t, u)
      {
        if u != v {
          assert AcquirerOk(s, u);
        }
      }
      OnlyAcquirersChange(s, t);
    }
  }

  lemma LoadCurrentKeepsInv(s: State, v: ThreadId)
    requires Inv(s) && v in s.acquirers && s.acquirers[v].Loading?
    ensures Inv(DoLoadCurrent(s, v))
  {
    LoadKeepsAcquirers(s, v);
    OnlyAcquirersChange(s, DoLoadCurrent(s, v));
  }

  lemma LoadKeepsAcquirers(s: State, v: ThreadId)
    requires PublicationOk(s) && forall u | u in s.acquirers :: AcquirerOk(s, u)
    requires v in s.acquirers && s.acquirers[v].Loading?
    ensures var t := DoLoadCurrent(s, v); forall u | u in t.acquirers :: AcquirerOk(t, u)
  {
    var t := DoLoadCurrent(s, v);
    assert AcquirerOk(s, v);
    forall u | u in t.acquirers
      ensures AcquirerOk(t, u)
    {
      assert AcquirerOk(s, u);
    }
  }

  lemma FailedTryKeepsInv(s: State, v: ThreadId)
    requires Inv(s) && v in s.acquirers && s.acquirers[v].Loaded?
    requires s.acquirers[v].gen in s.gens && s.gens[s.acquirers[v].gen].retired
    ensures Inv(DoTryAcquire(s, v))
  {
    var t := DoTryAcquire(s, v);
    assert AcquirerOk(s, v);
    forall u | u in t.acquirers
      ensures AcquirerOk(t, u)
    {
      assert AcquirerOk(s, u);
    }
    OnlyAcquirersChange(s, t);
  }

  lemma TryAcquireKeepsInv(s: State, u: ThreadId)
    requires Inv(s) && u in s.acquirers && s.acquirers[u].Loaded? && s.acquirers[u].gen in s.gens
    ensures Inv(DoTryAcquire(s, u))
  {
    if s.gens[s.acquirers[u].gen].retired {
      FailedTryKeepsInv(s, u);
    } else {
      var t := s.(acquirers := s.acquirers - {u});
      forall v | v in t.acquirers
        ensures AcquirerOk(t, v)
      {
        assert AcquirerOk(s, v);
      }
      OnlyAcquirersChange(s, t);
      MintKeepsInv(t, s.acquirers[u].gen);
    }
  }

  /** A step that only moves the reload lock holder or raises the closed flag. */
  lemma ReloadMoveKeepsInv(s: State, t: State)
    requires Inv(s) && ReloadOk(t)
    requires t == s.(reload := t.reload) || t == s.(closed := true, closing := Swapping)
    ensures Inv(t)
  {
    KeepLives(s, t);
    KeepWaiters(s, t);
    KeepAcquirers(s, t);
  }

  lemma ReloadBuildKeepsInv(s: State, ok: bool)
    requires Inv(s) && s.reload.Read?
    ensures Inv(DoReloadBuild(s, ok))
  {
    KeepLives(s, DoReloadBuild(s, ok));
    KeepWaiters(s, DoReloadBuild(s, ok));
    KeepAcquirers(s, DoReloadBuild(s, ok));
    assert Last(s.published) in s.published;
  }

  lemma UpToLast(ids: seq<GenId>, g: GenId)
    requires Increasing(ids) && g in ids
    ensures g <= Last(ids)
  {
  }

  lemma ReloadPublishKeepsInv(s: State)
    requires Inv(s) && s.reload.Built?
    ensures Inv(DoReloadPublish(s))
  {
    KeepLives(s, DoReloadPublish(s));
    NextIsHighest(s);
    PublishKeepsPublication(s);
    PublishKeepsWaiters(s);
    PublishKeepsAcquirers(s);
  }

  lemma NextIsHighest(s: State)
    requires PublicationOk(s) && ReloadOk(s) && s.reload.Built?
    ensures forall g | g in s.published :: g < s.reload.next
    ensures forall g :: g in DoReloadPublish(s).published <==> g in s.published || g == s.reload.next
  {
    forall g | g in s.published
      ensures g < s.reload.next
    {
      UpToLast(s.published, g);
    }
  }

  lemma PublishKeepsPublication(s: State)
    requires PublicationOk(s) && ReloadOk(s) && s.reload.Built?
    ensures PublicationOk(DoReloadPublish(s)) && ReloadOk(DoReloadPublish(s))
  {
    NextIsHighest(s);
    var t := DoReloadPublish(s);
    assert forall i | 0 <= i < |s.published| :: t.published[i] == s.published[i] && s.published[i] in s.published;
  }

  lemma PublishKeepsWaiters(s: State)
    requires forall g | g in s.published :: s.reload.Built? && g < s.reload.next
    requires s.reload.Built? && forall w | w in s.waiters :: WaiterOk(s, w)
    ensures var t := DoReloadPublish(s); forall w | w in t.waiters :: WaiterOk(t, w)
  {
    var t := DoReloadPublish(s);
    forall w | w in t.waiters
      ensures WaiterOk(t, w)
    {
      assert WaiterOk(s, w);
    }
  }

  lemma PublishKeepsAcquirers(s: State)
    requires s.reload.Built? && forall u | u in s.acquirers :: AcquirerOk(s, u)
    ensures var t := DoReloadPublish(s); forall u | u in t.acquirers :: AcquirerOk(t, u)
  {
    var t := DoReloadPublish(s);
    forall u | u in t.acquirers
      ensures AcquirerOk(t, u)
    {
      assert AcquirerOk(s, u);
    }
  }

  lemma AddWaiterKeepsInv(s: State, g: Option<GenId>)
    requires Inv(s)
    requires g.Some? ==> g.value in s.published && s.current != g
    ensures Inv(AddWaiter(s, g))
  {
    var t := AddWaiter(s, g);
    KeepLives(s, t);
    KeepAcquirers(s, t);
    KeepPublication(s, t);
    forall w | w in t.waiters
      ensures WaiterOk(t, w)
    {
      if w in s.waiters {
        assert WaiterOk(s, w);
      }
    }
  }

  lemma ReloadSpawnKeepsInv(s: State)
    requires Inv(s) && s.reload.Stored?
    ensures Inv(DoReloadSpawn(s))
  {
    var t := s.(reload := Idle);
    ReloadMoveKeepsInv(s, t);
    AddWaiterKeepsInv(t, s.reload.previous);
  }

  lemma CloseSwapKeepsInv(s: State)
    requires Inv(s) && s.closed
    ensures Inv(DoCloseSwap(s))
  {
    var t := s.(current := None, closing := Swapped);
    KeepLives(s, t);
    KeepWaiters(s, t);
    KeepAcquirers(s, t);
    assert Last(s.published) in s.published;
    AddWaiterKeepsInv(t, s.current);
  }

  lemma SetStageKeepsInv(s: State, v: nat, stage: WaitStage)
    requires Inv(s) && v in s.waiters && s.waiters[v].gen in s.gens
    requires !stage.Retiring? ==> s.gens[s.waiters[v].gen].retired
    requires stage.Closing? ==> s.waiters[v].gen in s.forced || s.gens[s.waiters[v].gen].drained > 0
    ensures Inv(SetStage(s, v, stage))
  {
    var t := SetStage(s, v, stage);
    KeepLives(s, t);
    KeepPublication(s, t);
    KeepAcquirers(s, t);
    forall w | w in t.waiters
      ensures WaiterOk(t, w)
    {
      assert WaiterOk(s, w);
    }
  }

  lemma WaiterRetireKeepsInv(s: State, v: nat)
    requires Inv(s) && v in s.waiters && s.waiters[v].stage.Retiring? && s.waiters[v].gen in s.gens
    ensures Inv(DoWaiterRetire(s, v))
  {
    var g := s.waiters[v].gen;
    var t := WithLife(s, g, Retired(s.gens[g]));
    assert WaiterOk(s, v);
    RetireOrCloseKeepsLives(s, g, Retired(s.gens[g]));
    KeepWaiters(s, t);
    KeepAcquirers(s, t);
    SetStageKeepsInv(t, v, Waiting);
  }

  lemma WaiterChooseKeepsInv(s: State, v: nat, t: State)
    requires Inv(s) && v in s.waiters && s.waiters[v].stage.Waiting?
    requires t == s || t == s.(forced := s.forced + {s.waiters[v].gen})
    requires s.waiters[v].gen in s.gens
    requires s.waiters[v].gen in t.forced || s.gens[s.waiters[v].gen].drained > 0
    ensures Inv(SetStage(t, v, Closing))
  {
    assert WaiterOk(s, v);
    KeepLives(s, t);
    KeepWaiters(s, t);
    KeepPublication(s, t);
    KeepAcquirers(s, t);
    SetStageKeepsInv(t, v, Closing);
  }

  lemma WaiterCloseKeepsInv(s: State, v: nat)
    requires Inv(s) && v in s.waiters && s.waiters[v].stage.Closing? && s.waiters[v].gen in s.gens
    ensures Inv(DoWaiterClose(s, v))
  {
    var g := s.waiters[v].gen;
    var t := WithLife(s, g, Closed(s.gens[g]));
    assert WaiterOk(s, v);
    RetireOrCloseKeepsLives(s, g, Closed(s.gens[g]));
    KeepPublication(s, t);
    KeepWaiters(s, t);
    KeepAcquirers(s, t);
    DropWaiterKeepsInv(t, v);
  }

  lemma DropWaiterKeepsInv(s: State, v: nat)
    requires Inv(s)
    ensures Inv(s.(waiters := s.waiters - {v}))
  {
    var t := s.(waiters := s.waiters - {v});
    KeepLives(s, t);
    KeepPublication(s, t);
    KeepWaiters(s, t);
    KeepAcquirers(s, t);
  }

  /** The steps of `Acquire` and of leases. */
  predicate IsLeaseStep(step: Step) {
    step.StartAcquire? || step.LoadCurrent? || step.TryAcquire? || step.Retain? || step.CloseLease?
  }

  lemma LeaseStepKeepsInv(s: State, step: Step)
    requires Inv(s) && IsLeaseStep(step) && Next(s, step).Some?
    ensures Inv(Next(s, step).value)
  {
    match step
    case StartAcquire(u) => StartAcquireKeepsInv(s, u);
    case LoadCurrent(u) => LoadCurrentKeepsInv(s, u);
    case TryAcquire(u) => TryAcquireKeepsInv(s, u);
    case Retain(g) =>
      if !s.gens[g].retired {
        MintKeepsInv(s, g);
      }
    case CloseLease(l) => CloseLeaseKeepsInv(s, l);
  }

  lemma StepKeepsInv(s: State, step: Step)
    requires Inv(s) && Next(s, step).Some?
    ensures Inv(Next(s, step).value)
  {
    if IsLeaseStep(step) {
      LeaseStepKeepsInv(s, step);
    } else {
      LifecycleStepKeepsInv(s, step);
    }
  }

  /** The steps of reload, shutdown and drain. */
  lemma LifecycleStepKeepsInv(s: State, step: Step)
    requires Inv(s) && !IsLeaseStep(step) && Next(s, step).Some?
    ensures Inv(Next(s, step).value)
  {
    match step
    case ReloadBuild(ok) => ReloadBuildKeepsInv(s, ok);
    case ReloadPublish => ReloadPublishKeepsInv(s);
    case ReloadSpawn => ReloadSpawnKeepsInv(s);
    case CloseSwap => CloseSwapKeepsInv(s);
    case WaiterRetire(w) => WaiterRetireKeepsInv(s, w);
    case WaiterDrained(w) => WaiterChooseKeepsInv(s, w, s);
    case WaiterTimeout(w) =>
      assert WaiterOk(s, w);
      WaiterChooseKeepsInv(s, w, s.(forced := s.forced + {s.waiters[w].gen}));
    case WaiterClose(w) => WaiterCloseKeepsInv(s, w);
    case ReloadLock => ReloadStageKeepsInv(s, step);
    case ReloadRead => ReloadStageKeepsInv(s, step);
    case ReloadAbort => ReloadStageKeepsInv(s, step);
    case CloseCas => ReloadStageKeepsInv(s, step);
  }

  lemma ReloadStageKeepsInv(s: State, step: Step)
    requires step.ReloadLock? || step.ReloadRead? || step.ReloadAbort? || step.CloseCas?
    requires Inv(s) && Next(s, step).Some?
    ensures Inv(Next(s, step).value)
  {
    assert Last(s.published) in s.published;
    ReloadMoveKeepsInv(s, Next(s, step).value);
  }

  lemma InitInv()
    ensures Inv(Init())
  {
    assert Live(Init(), 1) == {};
  }

  lemma {:induction false} RunKeepsInv(s: State, steps: seq<Step>)
    requires Inv(s) && IsRun(s, steps)
    ensures Inv(Exec(s, steps))
    decreases |steps|
  {
    if steps != [] {
      StepKeepsInv(s, steps[0]);
      RunKeepsInv(Next(s, steps[0]).value, steps[1..]);
    }
  }

  /** What a step does to the lease table, which is all a client of the manager can see. */
  lemma LeaseEffects(s: State, step: Step)
    requires Next(s, step).Some?
    ensures var t := Next(s, step).value;
            match step
            case CloseLease(l) =>
              && t.leases == s.leases[l := s.leases[l].(closed := true)]
              && t.nextLease == s.nextLease
            case TryAcquire(u) =>
              if s.gens[s.acquirers[u].gen].retired then
                t.leases == s.leases && t.nextLease == s.nextLease
              else
                && t.leases == s.leases[s.nextLease := LeaseRecord(s.acquirers[u].gen, false)]
                && t.nextLease == s.nextLease + 1
            case Retain(g) =>
              if s.gens[g].retired then
                t.leases == s.leases && t.nextLease == s.nextLease
              else
                && t.leases == s.leases[s.nextLease := LeaseRecord(g, false)]
                && t.nextLease == s.nextLease + 1
            case _ => t.leases == s.leases && t.nextLease == s.nextLease
  {
  }

  lemma PublishedGrows(s: State, step: Step)
    requires Next(s, step).Some?
    ensures s.published <= Next(s, step).value.published
  {
  }

  // ---------------------------------------------------------------------------
  // Main results, over every run from the initial state
  // ---------------------------------------------------------------------------

  /**
   Reference counting is exact: `active` is the number of unclosed leases, the drain
   channel has been closed exactly when the generation is retired and unused (and so
   never twice), no release ever panics, and the close function runs at most once and,
   unless a drain timeout or shutdown deadline fired, only with no live lease.
   */
  lemma ReferenceCounting(steps: seq<Step>, g: GenId)
    requires IsRun(Init(), steps)
    requires g in Exec(Init(), steps).gens
    ensures var s := Exec(Init(), steps);
            var life := s.gens[g];
            && life.active == |Live(s, g)|
            && !life.panicked
            && life.drained <= 1
            && (life.drained == 1 <==> life.retired && Live(s, g) == {})
            && life.closeRuns <= 1
            && (life.closeRuns == 1 && g !in s.forced ==> Live(s, g) == {} && life.retired)
  {
    InitInv();
    RunKeepsInv(Init(), steps);
    assert LifeOk(Exec(Init(), steps), g);
  }

  /** The current generation is never retired, and published identifiers strictly increase. */
  lemma CurrentIsNeverRetired(steps: seq<Step>)
    requires IsRun(Init(), steps)
    ensures var s := Exec(Init(), steps);
            && Increasing(s.published)
            && (s.current.Some? ==>
                  && s.current.value in s.gens && !s.gens[s.current.value].retired
                  && s.current.value == Last(s.published))
  {
    InitInv();
    RunKeepsInv(Init(), steps);
    var s := Exec(Init(), steps);
    if s.current.Some? {
      assert Last(s.published) in s.published;
    }
  }

  lemma StepKeepsRetired(s: State, step: Step, g: GenId)
    requires Next(s, step).Some? && g <= s.nextID
    requires g in s.gens && s.gens[g].retired
    ensures var t := Next(s, step).value;
            && g in t.gens && t.gens[g].retired
            && |s.published| <= |t.published|
  {
    if IsLeaseStep(step) {
      LeaseStepKeepsRetired(s, step, g);
    } else {
      OtherStepKeepsRetired(s, step, g);
    }
  }

  lemma LeaseStepKeepsRetired(s: State, step: Step, g: GenId)
    requires IsLeaseStep(step) && Next(s, step).Some? && g in s.gens && s.gens[g].retired
    ensures var t := Next(s, step).value; g in t.gens && t.gens[g].retired && t.published == s.published
  {
  }

  lemma OtherStepKeepsRetired(s: State, step: Step, g: GenId)
    requires !IsLeaseStep(step) && Next(s, step).Some? && g in s.gens && s.gens[g].retired && g <= s.nextID
    ensures var t := Next(s, step).value; g in t.gens && t.gens[g].retired && |s.published| <= |t.published|
  {
  }

  /** Retirement is permanent: a retired generation is never current again. */
  lemma {:induction false} RetiredStaysRetired(s: State, steps: seq<Step>, g: GenId)
    requires Inv(s) && IsRun(s, steps)
    requires g in s.gens && s.gens[g].retired
    ensures var t := Exec(s, steps);
            && g in t.gens && t.gens[g].retired
            && t.current != Some(g)
            && |s.published| <= |t.published|
    decreases |steps|
  {
    if steps != [] {
      StepKeepsInv(s, steps[0]);
      StepKeepsRetired(s, steps[0], g);
      RetiredStaysRetired(Next(s, steps[0]).value, steps[1..], g);
    }
  }

  /**
   The retry loop of `Acquire` terminates: every failed try is paid for by a distinct
   publication made during the call, with one more allowed once shutdown has begun.
   */
  lemma FailedTriesArePaidFor(steps: seq<Step>, t: ThreadId)
    requires IsRun(Init(), steps)
    requires t in Exec(Init(), steps).acquirers
    ensures var s := Exec(Init(), steps);
            var a := s.acquirers[t];
            a.since + a.fails <= |s.published| + (if s.current.None? then 1 else 0)
    ensures Exec(Init(), steps).current.None? ==> Exec(Init(), steps).closed
  {
    InitInv();
    RunKeepsInv(Init(), steps);
    assert AcquirerOk(Exec(Init(), steps), t);
  }

  /** A try on the generation that is still current succeeds and yields a live lease on it. */
  lemma TryOnCurrentSucceeds(s: State, t: ThreadId)
    requires Inv(s) && t in s.acquirers && s.acquirers[t].Loaded?
    requires s.acquirers[t].gen in s.gens && s.current == Some(s.acquirers[t].gen)
    ensures var s' := DoTryAcquire(s, t);
            && t !in s'.acquirers
            && Live(s', s.acquirers[t].gen) == Live(s, s.acquirers[t].gen) + {s.nextLease}
            && s.nextLease !in s.leases
  {
    var g := s.acquirers[t].gen;
    CurrentIsLive(s, g);
    LiveAfterMint(s, g, g);
  }

  lemma CurrentIsLive(s: State, g: GenId)
    requires Inv(s) && g in s.gens && s.current == Some(g)
    ensures !s.gens[g].retired && s.nextLease !in s.leases
  {
  }

  // ---------------------------------------------------------------------------
  // What an open manager does, and a closed one refuses
  // ---------------------------------------------------------------------------

  /** An open manager grants a lease on the current generation to whoever asks undisturbed. */
  lemma OpenManagerGrantsLeases(s: State, t: ThreadId)
    requires Inv(s) && !s.closed && t !in s.acquirers
    ensures s.current.Some? && Next(s, StartAcquire(t)).Some?
    ensures var started := Next(s, StartAcquire(t)).value;
            Next(started, LoadCurrent(t)).Some? &&
            var loaded := Next(started, LoadCurrent(t)).value;
            Next(loaded, TryAcquire(t)).Some? &&
            var end := Next(loaded, TryAcquire(t)).value;
            && t !in end.acquirers && s.nextLease !in s.leases
            && end.leases == s.leases[s.nextLease := LeaseRecord(s.current.value, false)]
  {
    var g := s.current.value;
    assert Last(s.published) in s.published;
    CurrentIsLive(s, g);
    var started := Next(s, StartAcquire(t)).value;
    assert started == s.(acquirers := s.acquirers[t := Loading(0, |s.published|)]);
    var loaded := Next(started, LoadCurrent(t)).value;
    assert loaded.acquirers[t].Loaded? && loaded.acquirers[t].gen == g && loaded.gens == s.gens;
  }

  /** An undisturbed reload of an open manager publishes a new generation and hands the old one to a drain. */
  lemma OpenManagerReloads(s: State)
    requires Inv(s) && !s.closed && s.reload.Idle?
    ensures s.current.Some? && Next(s, ReloadLock).Some?
    ensures var locked := Next(s, ReloadLock).value;
            Next(locked, ReloadRead).Some? &&
            var read := Next(locked, ReloadRead).value;
            Next(read, ReloadBuild(true)).Some? &&
            var built := Next(read, ReloadBuild(true)).value;
            Next(built, ReloadPublish).Some? &&
            var published := Next(built, ReloadPublish).value;
            Next(published, ReloadSpawn).Some? &&
            var end := Next(published, ReloadSpawn).value;
            && end.current == Some(s.nextID + 1) && end.published == s.published + [s.nextID + 1]
            && end.gens == s.gens[s.nextID + 1 := FRESH] && end.reload.Idle?
            && end.waiters == s.waiters[s.nextWaiter := Waiter(s.current.value, Retiring)]
  {
    var read := s.(reload := Read(s.current));
    assert Next(Next(s, ReloadLock).value, ReloadRead) == Some(read);
    var id := s.nextID + 1;
    var built := read.(nextID := id, gens := s.gens[id := FRESH], reload := Built(s.current, id));
    assert Next(read, ReloadBuild(true)) == Some(built);
    var published := built.(current := Some(id), published := s.published + [id], reload := Stored(s.current, id));
    assert Next(built, ReloadPublish) == Some(published);
  }

  /** A reload that fails on the way gives the lock back and publishes nothing. */
  lemma FailedReloadPublishesNothing(s: State)
    requires s.reload.Checked? || s.reload.Read?
    ensures Next(s, ReloadAbort) == Some(s.(reload := Idle))
    ensures s.reload.Read? ==>
              var failed := Next(s, ReloadBuild(false));
              && failed.Some? && failed.value.reload.Idle? && failed.value.published == s.published
              && failed.value.current == s.current && failed.value.gens == s.gens
  {
  }

  /** A closed manager refuses new reloads and new acquisitions, and closing it again does nothing. */
  lemma ClosedManagerRefuses(s: State, t: ThreadId)
    requires s.closed && t !in s.acquirers
    ensures s.reload.Idle? ==> Next(s, ReloadLock) == Some(s)
    ensures Next(s, StartAcquire(t)) == Some(s)
    ensures Next(s, CloseCas) == Some(s)
  {
  }

  /** One for a reload that holds the lock and has not published yet. */
  function Underway(s: State): nat {
    if s.reload.Checked? || s.reload.Read? || s.reload.Built? then 1 else 0
  }

  lemma ClosedLeaseStep(s: State, step: Step)
    requires s.closed && IsLeaseStep(step) && Next(s, step).Some?
    ensures var t := Next(s, step).value;
            && t.closed && t.published == s.published && t.reload == s.reload && t.acquirers.Keys <= s.acquirers.Keys
  {
  }

  lemma ClosedLifecycleStep(s: State, step: Step)
    requires s.closed && !IsLeaseStep(step) && Next(s, step).Some?
    ensures var t := Next(s, step).value;
            && t.closed && t.acquirers == s.acquirers && |s.published| <= |t.published|
            && |t.published| + Underway(t) <= |s.published| + Underway(s)
  {
  }

  /**
   From when the manager is closed, over every run: a generation is published only by a reload
   that holds the lock already, so at most one, and none if the lock is free; and no acquisition
   is under way that was not before.
   */
  lemma {:induction false} ClosedManagerWindsDown(s: State, steps: seq<Step>)
    requires s.closed && IsRun(s, steps)
    ensures var t := Exec(s, steps);
            && t.closed && t.acquirers.Keys <= s.acquirers.Keys
            && |s.published| <= |t.published| <= |s.published| + Underway(s)
            && |t.published| + Underway(t) <= |s.published| + Underway(s)
    decreases |steps|
  {
    if steps != [] {
      if IsLeaseStep(steps[0]) {
        ClosedLeaseStep(s, steps[0]);
      } else {
        ClosedLifecycleStep(s, steps[0]);
      }
      ClosedManagerWindsDown(Next(s, steps[0]).value, steps[1..]);
    }
  }

  /**
   A drain never gets stuck: it can retire its generation, then give up waiting, or stop waiting
   without a timeout once no lease is left, and then close.
   */
  lemma DrainsCanGoOn(steps: seq<Step>, w: nat)
    requires IsRun(Init(), steps) && w in Exec(Init(), steps).waiters
    ensures CanGoOn(Exec(Init(), steps), w)
  {
    InitInv();
    RunKeepsInv(Init(), steps);
    DrainCanGoOn(Exec(Init(), steps), w);
  }

  ghost predicate CanGoOn(s: State, w: nat)
    requires w in s.waiters
  {
    match s.waiters[w].stage
    case Retiring => Next(s, WaiterRetire(w)).Some?
    case Waiting =>
      && Next(s, WaiterTimeout(w)).Some?
      && (Next(s, WaiterDrained(w)).Some? <==> Live(s, s.waiters[w].gen) == {})
    case Closing => Next(s, WaiterClose(w)).Some?
  }

  lemma DrainCanGoOn(s: State, w: nat)
    requires Inv(s) && w in s.waiters
    ensures CanGoOn(s, w)
  {
    assert WaiterOk(s, w);
    assert LifeOk(s, s.waiters[w].gen);
    WaiterCanGoOn(s, w);
  }

  lemma WaiterCanGoOn(s: State, w: nat)
    requires w in s.waiters && WaiterOk(s, w) && LifeOk(s, s.waiters[w].gen)
    ensures CanGoOn(s, w)
  {
  }
}
