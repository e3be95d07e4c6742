/**
 The MCP adapter on top of the runtime manager.  Requests, tool calls, reload
 callbacks, session release and shutdown are threads whose critical sections are
 steps; every lease they take comes from the runtime machine embedded in the state.
 */
module Mcp {
  import opened Options
  import R = Runtime

  type Bundle = nat
  type SessionId = nat
  type ThreadId = nat

  /**
   A thread of the adapter between two atomic operations.
   - `Serving`: inside the SDK, with the request state's two fields;
   - `Minted`: the factory holds a new bundle not yet stored anywhere;
   - `Parked`: a stateless bundle is registered but not yet in the request state;
   - `Finishing`: `ServeHTTP` after it emptied the request state;
   - `Closing`: closing bundles one by one, possibly with a lease in hand;
   - `Notified`, `Migrating`, `Holding`, `Dropping`: the reload callback;
   - `Calling`: a tool call; `Shutting`: `Close` before it empties the tables.
   */
  datatype Worker =
    | Serving(pending: Option<Bundle>, transient: Option<Bundle>)
    | Minted(bundle: Bundle, stateless: bool, pending: Option<Bundle>, transient: Option<Bundle>)
    | Parked(bundle: Bundle, pending: Option<Bundle>, transient: Option<Bundle>)
    | Finishing(pending: Option<Bundle>, transient: Option<Bundle>)
    | Closing(todo: set<Bundle>, held: Option<R.LeaseId>)
    | Notified(next: R.GenId)
    | Migrating(next: R.GenId, todo: set<Bundle>)
    | Holding(next: R.GenId, todo: set<Bundle>, bundle: Bundle, lease: R.LeaseId)
    | Dropping(next: R.GenId, todo: set<Bundle>, lease: R.LeaseId)
    | Calling(lease: R.LeaseId)
    | Shutting

  datatype Phase = Open | Grabbing(closer: ThreadId) | Closed

  datatype Holder = OfBundle(bundle: Bundle) | OfWorker(worker: ThreadId)

  /**
   Where a bundle lives: reached only by one thread, in a session, among the
   transients, removed and being closed by a thread, or overwritten.
   */
  datatype Home =
    | Mine(worker: ThreadId)
    | InSession(session: SessionId)
    | InTransients
    | Kept(closer: ThreadId)
    | Stray

  /**
   `mine` are the leases the adapter ever acquired, `owner` is an auxiliary record of
   the one variable that holds each unclosed one, `home` an auxiliary record of where
   each bundle lives, and `lost` are bundles a second factory call overwrote in the
   request state.
   */
  datatype State = State(
    rt: R.State,
    mine: set<R.LeaseId>,
    owner: map<R.LeaseId, Holder>,
    phase: Phase,
    sessions: map<SessionId, Bundle>,
    transients: set<Bundle>,
    bundles: map<Bundle, Option<R.LeaseId>>,
    home: map<Bundle, Home>,
    workers: map<ThreadId, Worker>,
    lost: set<Bundle>,
    nextBundle: Bundle)

  datatype Step =
    | Env(step: R.Step)
    | Arrive(thread: ThreadId)
    | FactoryAcquire(thread: ThreadId, acquirer: R.ThreadId, stateless: bool)
    | SetPending(thread: ThreadId)
    | StoreTransient(thread: ThreadId)
    | SetTransient(thread: ThreadId)
    | DropMinted(thread: ThreadId)
    | EndStream(thread: ThreadId)
    | StorePending(thread: ThreadId, session: SessionId)
    | DropPending(thread: ThreadId)
    | FinishRequest(thread: ThreadId)
    | Release(thread: ThreadId, session: SessionId)
    | Take(thread: ThreadId, bundle: Bundle)
    | CloseHeld(thread: ThreadId)
    | EndClosing(thread: ThreadId)
    | Notify(thread: ThreadId, next: R.GenId)
    | Snapshot(thread: ThreadId)
    | RetainNext(thread: ThreadId, bundle: Bundle)
    | Migrate(thread: ThreadId)
    | DropLease(thread: ThreadId)
    | EndMigration(thread: ThreadId)
    | CallTool(thread: ThreadId, gen: R.GenId)
    | EndCall(thread: ThreadId)
    | BeginClose(thread: ThreadId)
    | Grab(thread: ThreadId)

  function Init(): State {
    State(R.Init(), {}, map[], Open, map[], {}, map[], map[], map[], {}, 0)
  }

  function SetOf<T>(o: Option<T>): set<T> {
    if o.None? then {} else {o.value}
  }

  /** The lease a thread has in hand. */
  function Held(w: Worker): Option<R.LeaseId> {
    match w
    case Closing(_, held) => held
    case Holding(_, _, _, lease) => Some(lease)
    case Dropping(_, _, lease) => Some(lease)
    case Calling(lease) => Some(lease)
    case _ => None
  }

  /** Bundles only this thread can reach. */
  function Private(w: Worker): set<Bundle> {
    match w
    case Serving(pending, _) => SetOf(pending)
    case Minted(b, _, pending, _) => {b} + SetOf(pending)
    case Parked(_, pending, _) => SetOf(pending)
    case Finishing(pending, _) => SetOf(pending)
    case _ => {}
  }

  /** Stateless bundles a request still refers to. */
  function Passing(w: Worker): set<Bundle> {
    match w
    case Serving(_, transient) => SetOf(transient)
    case Minted(_, _, _, transient) => SetOf(transient)
    case Parked(b, _, transient) => {b} + SetOf(transient)
    case Finishing(_, transient) => SetOf(transient)
    case _ => {}
  }

  /** Bundles a reload callback refers to. */
  function Visiting(w: Worker): set<Bundle> {
    match w
    case Migrating(_, todo) => todo
    case Holding(_, todo, b, _) => {b} + todo
    case Dropping(_, todo, _) => todo
    case _ => {}
  }

  /** Bundles a thread has taken out of the tables to close them. */
  function Doomed(w: Worker): set<Bundle> {
    if w.Closing? then w.todo else {}
  }

  predicate IsOpen(s: State, l: R.LeaseId) {
    l in s.rt.leases && !s.rt.leases[l].closed
  }

  predicate CanClose(s: State, l: R.LeaseId) {
    l in s.rt.leases && s.rt.leases[l].gen in s.rt.gens
  }

  predicate CanRetain(s: State, g: R.GenId) {
    g in s.rt.published && g in s.rt.gens
  }

  predicate CanAcquire(s: State, a: R.ThreadId) {
    && a in s.rt.acquirers && s.rt.acquirers[a].Loaded? && s.rt.acquirers[a].gen in s.rt.gens
    && !s.rt.gens[s.rt.acquirers[a].gen].retired
  }

  predicate LeaseOfBundle(s: State, b: Bundle) {
    b in s.bundles && s.bundles[b].Some? && CanClose(s, s.bundles[b].value)
  }

  // ---------------------------------------------------------------------------
  // Effects on leases
  // ---------------------------------------------------------------------------

  function Put(s: State, w: ThreadId, x: Worker): State {
    s.(workers := s.workers[w := x])
  }

  function End(s: State, w: ThreadId): State {
    s.(workers := s.workers - {w})
  }

  /** The runtime grants a lease to thread `w`, which moves to `x`. */
  function MintToWorker(s: State, g: R.GenId, w: ThreadId, x: Worker): State
    requires CanRetain(s, g)
  {
    var l := s.rt.nextLease;
    s.(rt := R.DoRetain(s.rt, g), mine := s.mine + {l}, owner := s.owner[l := OfWorker(w)],
       workers := s.workers[w := x])
  }

  /** The runtime grants a lease to a new bundle, reached only by thread `w`. */
  function MintToBundle(s: State, a: R.ThreadId, w: ThreadId, x: Worker): State
    requires CanAcquire(s, a)
  {
    var l := s.rt.nextLease;
    var b := s.nextBundle;
    s.(rt := R.DoTryAcquire(s.rt, a), mine := s.mine + {l}, owner := s.owner[l := OfBundle(b)],
       bundles := s.bundles[b := Some(l)], home := s.home[b := Mine(w)], nextBundle := b + 1,
       workers := s.workers[w := x])
  }

  /** Thread `w` closes the lease in its hand and moves to `x`, or ends. */
  function CloseInHand(s: State, l: R.LeaseId, w: ThreadId, x: Option<Worker>): State
    requires CanClose(s, l)
  {
    s.(rt := R.DoCloseLease(s.rt, l), owner := s.owner - {l},
       workers := if x.Some? then s.workers[w := x.value] else s.workers - {w})
  }

  /** Thread `w` closes the lease of bundle `b`, which nobody else reaches, and forgets `b`. */
  function Discard(s: State, b: Bundle, w: ThreadId, x: Worker): State
    requires LeaseOfBundle(s, b)
  {
    var l := s.bundles[b].value;
    s.(rt := R.DoCloseLease(s.rt, l), owner := s.owner - {l}, bundles := s.bundles - {b},
       home := s.home - {b}, workers := s.workers[w := x])
  }

  /** `closeBundle` takes the lease out of the bundle. */
  function TakeOut(s: State, w: ThreadId, b: Bundle): State
    requires w in s.workers && s.workers[w].Closing? && s.workers[w].held.None?
             && b in s.workers[w].todo && b in s.bundles
  {
    var lease := s.bundles[b];
    s.(bundles := s.bundles[b := None],
       owner := if lease.Some? then s.owner[lease.value := OfWorker(w)] else s.owner,
       workers := s.workers[w := Closing(s.workers[w].todo - {b}, lease)])
  }

  /** `onReload` swaps the lease in hand with the bundle's, unless the bundle is closed. */
  function SwapIn(s: State, w: ThreadId): State
    requires w in s.workers && s.workers[w].Holding? && s.workers[w].bundle in s.bundles
  {
    var x := s.workers[w];
    var before := s.bundles[x.bundle];
    if !s.phase.Open? || before.None? then
      Put(s, w, Dropping(x.next, x.todo, x.lease))
    else
      s.(bundles := s.bundles[x.bundle := Some(x.lease)],
         owner := s.owner[x.lease := OfBundle(x.bundle)][before.value := OfWorker(w)],
         workers := s.workers[w := Dropping(x.next, x.todo, before.value)])
  }

  // ---------------------------------------------------------------------------
  // Steps
  // ---------------------------------------------------------------------------

  function DoSetPending(s: State, w: ThreadId): State
    requires w in s.workers && s.workers[w].Minted?
  {
    var x := s.workers[w];
    var t := Put(s, w, Serving(Some(x.bundle), x.transient));
    if x.pending.None? then t
    else t.(lost := s.lost + {x.pending.value}, home := s.home[x.pending.value := Stray])
  }

  function DoStoreTransient(s: State, w: ThreadId): State
    requires w in s.workers && s.workers[w].Minted?
  {
    var x := s.workers[w];
    Put(s, w, Parked(x.bundle, x.pending, x.transient)).(
      transients := s.transients + {x.bundle}, home := s.home[x.bundle := InTransients])
  }

  function DoStorePending(s: State, w: ThreadId, sid: SessionId): State
    requires w in s.workers && s.workers[w].Finishing? && s.workers[w].pending.Some?
             && sid !in s.sessions
  {
    var x := s.workers[w];
    Put(s, w, Finishing(None, x.transient)).(
      sessions := s.sessions[sid := x.pending.value], home := s.home[x.pending.value := InSession(sid)])
  }

  function DoFinishRequest(s: State, w: ThreadId): State
    requires w in s.workers && s.workers[w].Finishing? && s.workers[w].pending.None?
  {
    var b := s.workers[w].transient;
    if b.None? then End(s, w)
    else Put(s, w, Closing({b.value}, None)).(
           transients := s.transients - {b.value}, home := s.home[b.value := Kept(w)])
  }

  function DoRelease(s: State, w: ThreadId, sid: SessionId): State
    requires w !in s.workers && sid in s.sessions
  {
    var b := s.sessions[sid];
    Put(s, w, Closing({b}, None)).(sessions := s.sessions - {sid}, home := s.home[b := Kept(w)])
  }

  function DoRetainNext(s: State, w: ThreadId, b: Bundle): State
    requires w in s.workers && s.workers[w].Migrating? && b in s.workers[w].todo
             && CanRetain(s, s.workers[w].next)
  {
    var x := s.workers[w];
    if s.rt.gens[x.next].retired then Put(s, w, Migrating(x.next, x.todo - {b}))
    else MintToWorker(s, x.next, w, Holding(x.next, x.todo - {b}, b, s.rt.nextLease))
  }

  function GrabHomes(home: Homes, todo: set<Bundle>, w: ThreadId): Homes {
    map b | b in home :: if b in todo then Kept(w) else home[b]
  }

  function DoGrab(s: State, w: ThreadId): State {
    var todo := s.sessions.Values + s.transients;
    Put(s, w, Closing(todo, None)).(
      sessions := map[], transients := {}, phase := Closed,
      home := GrabHomes(s.home, todo, w))
  }

  function DoFactoryAcquire(s: State, w: ThreadId, a: R.ThreadId, stateless: bool): State
    requires w in s.workers && s.workers[w].Serving? && CanAcquire(s, a)
  {
    MintToBundle(s, a, w, Minted(s.nextBundle, stateless, s.workers[w].pending, s.workers[w].transient))
  }

  function DoDropMinted(s: State, w: ThreadId): State
    requires w in s.workers && s.workers[w].Minted? && LeaseOfBundle(s, s.workers[w].bundle)
  {
    Discard(s, s.workers[w].bundle, w, Serving(s.workers[w].pending, s.workers[w].transient))
  }

  function DoDropPending(s: State, w: ThreadId): State
    requires w in s.workers && s.workers[w].Finishing? && s.workers[w].pending.Some?
             && LeaseOfBundle(s, s.workers[w].pending.value)
  {
    Discard(s, s.workers[w].pending.value, w, Finishing(None, s.workers[w].transient))
  }

  function DoCloseHeld(s: State, w: ThreadId): State
    requires w in s.workers && s.workers[w].Closing? && s.workers[w].held.Some?
             && CanClose(s, s.workers[w].held.value)
  {
    CloseInHand(s, s.workers[w].held.value, w, Some(Closing(s.workers[w].todo, None)))
  }

  function DoDropLease(s: State, w: ThreadId): State
    requires w in s.workers && s.workers[w].Dropping? && CanClose(s, s.workers[w].lease)
  {
    CloseInHand(s, s.workers[w].lease, w, Some(Migrating(s.workers[w].next, s.workers[w].todo)))
  }

  function DoCallTool(s: State, w: ThreadId, g: R.GenId): State
    requires CanRetain(s, g)
  {
    if s.rt.gens[g].retired then s else MintToWorker(s, g, w, Calling(s.rt.nextLease))
  }

  /** A step of a request, or nothing if it is not possible in `s`. */
  function NextOfRequest(s: State, step: Step): Option<State> {
    match step
    case Arrive(w) =>
      if w in s.workers then None
      else Some(if s.phase.Open? then Put(s, w, Serving(None, None)) else s)
    case FactoryAcquire(w, a, stateless) =>
      if w in s.workers && s.workers[w].Serving? && CanAcquire(s, a)
      then Some(DoFactoryAcquire(s, w, a, stateless)) else None
    case SetPending(w) =>
      if w in s.workers && s.workers[w].Minted? && !s.workers[w].stateless
      then Some(DoSetPending(s, w)) else None
    case StoreTransient(w) =>
      if w in s.workers && s.workers[w].Minted? && s.workers[w].stateless && s.phase.Open?
      then Some(DoStoreTransient(s, w)) else None
    case SetTransient(w) =>
      if w in s.workers && s.workers[w].Parked?
      then Some(Put(s, w, Serving(s.workers[w].pending, Some(s.workers[w].bundle)))) else None
    case DropMinted(w) =>
      if w in s.workers && s.workers[w].Minted? && LeaseOfBundle(s, s.workers[w].bundle)
      then Some(DoDropMinted(s, w)) else None
    case EndStream(w) =>
      if w in s.workers && s.workers[w].Serving?
      then Some(Put(s, w, Finishing(s.workers[w].pending, s.workers[w].transient))) else None
    case StorePending(w, sid) =>
      if w in s.workers && s.workers[w].Finishing? && s.workers[w].pending.Some? && s.phase.Open?
         && sid !in s.sessions
      then Some(DoStorePending(s, w, sid)) else None
    case DropPending(w) =>
      if w in s.workers && s.workers[w].Finishing? && s.workers[w].pending.Some?
         && LeaseOfBundle(s, s.workers[w].pending.value)
      then Some(DoDropPending(s, w)) else None
    case FinishRequest(w) =>
      if w in s.workers && s.workers[w].Finishing? && s.workers[w].pending.None?
      then Some(DoFinishRequest(s, w)) else None
    case _ => None
  }

  /** A step of release, reaping, tool calls or shutdown. */
  function NextOfClosing(s: State, step: Step): Option<State> {
    match step
    case Release(w, sid) => if w !in s.workers && sid in s.sessions then Some(DoRelease(s, w, sid)) else None
    case Take(w, b) =>
      if w in s.workers && s.workers[w].Closing? && s.workers[w].held.None? && b in s.workers[w].todo
         && b in s.bundles
      then Some(TakeOut(s, w, b)) else None
    case CloseHeld(w) =>
      if w in s.workers && s.workers[w].Closing? && s.workers[w].held.Some?
         && CanClose(s, s.workers[w].held.value)
      then Some(DoCloseHeld(s, w)) else None
    case EndClosing(w) => if w in s.workers && s.workers[w] == Closing({}, None) then Some(End(s, w)) else None
    case CallTool(w, g) => if w !in s.workers && CanRetain(s, g) then Some(DoCallTool(s, w, g)) else None
    case EndCall(w) =>
      if w in s.workers && s.workers[w].Calling? && CanClose(s, s.workers[w].lease)
      then Some(CloseInHand(s, s.workers[w].lease, w, None)) else None
    case BeginClose(w) =>
      if w in s.workers then None
      else Some(if s.phase.Open? then Put(s, w, Shutting).(phase := Grabbing(w)) else s)
    case Grab(w) => if w in s.workers && s.workers[w].Shutting? then Some(DoGrab(s, w)) else None
    case _ => None
  }

  /** A step of a reload callback. */
  function NextOfReload(s: State, step: Step): Option<State> {
    match step
    case Notify(w, next) =>
      if w in s.workers || next !in s.rt.published then None
      else Some(if s.phase.Open? then Put(s, w, Notified(next)) else s)
    case Snapshot(w) =>
      if w in s.workers && s.workers[w].Notified?
      then Some(Put(s, w, Migrating(s.workers[w].next, s.sessions.Values + s.transients))) else None
    case RetainNext(w, b) =>
      if w in s.workers && s.workers[w].Migrating? && b in s.workers[w].todo
         && CanRetain(s, s.workers[w].next)
      then Some(DoRetainNext(s, w, b)) else None
    case Migrate(w) =>
      if w in s.workers && s.workers[w].Holding? && s.workers[w].bundle in s.bundles
      then Some(SwapIn(s, w)) else None
    case DropLease(w) =>
      if w in s.workers && s.workers[w].Dropping? && CanClose(s, s.workers[w].lease)
      then Some(DoDropLease(s, w)) else None
    case EndMigration(w) =>
      if w in s.workers && s.workers[w].Migrating? && s.workers[w].todo == {} then Some(End(s, w)) else None
    case _ => None
  }

  /** Any runtime step of other clients, which never close the adapter's leases. */
  function NextOfEnv(s: State, rs: R.Step): Option<State> {
    if rs.CloseLease? && rs.lease in s.mine then None
    else
      var rt := R.Next(s.rt, rs);
      if rt.None? then None else Some(s.(rt := rt.value))
  }

  predicate IsRequestStep(step: Step) {
    || step.Arrive? || step.FactoryAcquire? || step.SetPending? || step.StoreTransient?
    || step.SetTransient? || step.DropMinted? || step.EndStream? || step.StorePending?
    || step.DropPending? || step.FinishRequest?
  }

  /** The request steps of the server factory. */
  predicate IsFactoryStep(step: Step) {
    step.FactoryAcquire? || step.SetPending? || step.StoreTransient? || step.SetTransient? || step.DropMinted?
  }

  predicate IsReloadStep(step: Step) {
    || step.Notify? || step.Snapshot? || step.RetainNext? || step.Migrate? || step.DropLease?
    || step.EndMigration?
  }

  function Next(s: State, step: Step): Option<State> {
    if step.Env? then NextOfEnv(s, step.step)
    else if IsRequestStep(step) then NextOfRequest(s, step)
    else if IsReloadStep(step) then NextOfReload(s, step)
    else NextOfClosing(s, step)
  }

  ghost predicate IsRun(s: State, steps: seq<Step>)
    decreases |steps|
  {
    steps == [] || (Next(s, steps[0]).Some? && IsRun(Next(s, steps[0]).value, steps[1..]))
  }

  ghost function Exec(s: State, steps: seq<Step>): State
    requires IsRun(s, steps)
    decreases |steps|
  {
    if steps == [] then s else Exec(Next(s, steps[0]).value, steps[1..])
  }

  // ---------------------------------------------------------------------------
  // Every lease has exactly one holder
  // ---------------------------------------------------------------------------

  type Leases = map<R.LeaseId, R.LeaseRecord>
  type Owners = map<R.LeaseId, Holder>
  type Bundles = map<Bundle, Option<R.LeaseId>>
  type Workers = map<ThreadId, Worker>

  /** `owner` lists exactly the adapter's unclosed leases. */
  ghost predicate Tabled(leases: Leases, next: R.LeaseId, mine: set<R.LeaseId>, owner: Owners) {
    && (forall l | l in leases :: l < next)
    && (forall l | l in mine :: l in leases)
    && (forall l | l in owner :: l in mine && !leases[l].closed)
    && (forall l | l in mine && !leases[l].closed :: l in owner)
  }

  ghost predicate HolderOk(bundles: Bundles, workers: Workers, l: R.LeaseId, h: Holder) {
    match h
    case OfBundle(b) => b in bundles && bundles[b] == Some(l)
    case OfWorker(w) => w in workers && Held(workers[w]) == Some(l)
  }

  /** `owner` and the variables that hold leases say the same. */
  ghost predicate Owned(owner: Owners, bundles: Bundles, workers: Workers) {
    && (forall l | l in owner :: HolderOk(bundles, workers, l, owner[l]))
    && (forall b | b in bundles && bundles[b].Some? ::
          bundles[b].value in owner && owner[bundles[b].value] == OfBundle(b))
    && (forall w | w in workers && Held(workers[w]).Some? ::
          Held(workers[w]).value in owner && owner[Held(workers[w]).value] == OfWorker(w))
  }

  ghost predicate LeaseInv(s: State) {
    && Tabled(s.rt.leases, s.rt.nextLease, s.mine, s.owner)
    && Owned(s.owner, s.bundles, s.workers)
    && (forall b | b in s.bundles :: b < s.nextBundle)
  }

  lemma OwnedMove(owner: Owners, bundles: Bundles, workers: Workers, w: ThreadId, x: Worker)
    requires Owned(owner, bundles, workers)
    requires w in workers ==> Held(workers[w]).None?
    ensures Owned(owner, bundles, workers - {w})
    ensures Held(x).None? ==> Owned(owner, bundles, workers[w := x])
  {
  }

  lemma OwnedMintToWorker(
      owner: Owners, bundles: Bundles, workers: Workers, l: R.LeaseId, w: ThreadId, x: Worker)
    requires Owned(owner, bundles, workers) && l !in owner
    requires w in workers ==> Held(workers[w]).None?
    requires Held(x) == Some(l)
    ensures Owned(owner[l := OfWorker(w)], bundles, workers[w := x])
  {
  }

  lemma OwnedMintToBundle(
      owner: Owners, bundles: Bundles, workers: Workers, l: R.LeaseId, b: Bundle)
    requires Owned(owner, bundles, workers) && l !in owner && b !in bundles
    ensures Owned(owner[l := OfBundle(b)], bundles[b := Some(l)], workers)
  {
  }

  lemma OwnedCloseInHand(
      owner: Owners, bundles: Bundles, workers: Workers, l: R.LeaseId, w: ThreadId, x: Worker)
    requires Owned(owner, bundles, workers)
    requires w in workers && Held(workers[w]) == Some(l)
    ensures Owned(owner - {l}, bundles, workers - {w})
    ensures Held(x).None? ==> Owned(owner - {l}, bundles, workers[w := x])
  {
  }

  lemma OwnedDiscard(owner: Owners, bundles: Bundles, workers: Workers, l: R.LeaseId, b: Bundle)
    requires Owned(owner, bundles, workers)
    requires b in bundles && bundles[b] == Some(l)
    ensures Owned(owner - {l}, bundles - {b}, workers)
  {
  }

  lemma OwnedTake(
      owner: Owners, bundles: Bundles, workers: Workers, l: R.LeaseId, b: Bundle, w: ThreadId, x: Worker)
    requires Owned(owner, bundles, workers)
    requires b in bundles && bundles[b] == Some(l)
    requires w in workers && Held(workers[w]).None? && Held(x) == Some(l)
    ensures Owned(owner[l := OfWorker(w)], bundles[b := None], workers[w := x])
  {
  }

  lemma OwnedSwap(
      owner: Owners, bundles: Bundles, workers: Workers,
      l: R.LeaseId, k: R.LeaseId, b: Bundle, w: ThreadId, x: Worker)
    requires Owned(owner, bundles, workers)
    requires b in bundles && bundles[b] == Some(k)
    requires w in workers && Held(workers[w]) == Some(l) && Held(x) == Some(k)
    ensures Owned(owner[l := OfBundle(b)][k := OfWorker(w)], bundles[b := Some(l)], workers[w := x])
  {
  }

  lemma TabledMint(leases: Leases, next: R.LeaseId, mine: set<R.LeaseId>, owner: Owners, g: R.GenId, h: Holder)
    requires Tabled(leases, next, mine, owner)
    ensures next !in owner
    ensures Tabled(leases[next := R.LeaseRecord(g, false)], next + 1, mine + {next}, owner[next := h])
  {
  }

  lemma TabledClose(leases: Leases, next: R.LeaseId, mine: set<R.LeaseId>, owner: Owners, l: R.LeaseId)
    requires Tabled(leases, next, mine, owner) && l in leases
    ensures Tabled(leases[l := leases[l].(closed := true)], next, mine, owner - {l})
  {
  }

  lemma EnvKeepsLeases(s: State, rs: R.Step)
    requires LeaseInv(s) && NextOfEnv(s, rs).Some?
    ensures LeaseInv(NextOfEnv(s, rs).value)
  {
    R.LeaseEffects(s.rt, rs);
  }

  lemma MintToWorkerKeepsLeases(s: State, g: R.GenId, w: ThreadId, x: Worker)
    requires LeaseInv(s) && CanRetain(s, g) && !s.rt.gens[g].retired
    requires Held(x) == Some(s.rt.nextLease)
    requires w in s.workers ==> Held(s.workers[w]).None?
    ensures LeaseInv(MintToWorker(s, g, w, x))
  {
    R.LeaseEffects(s.rt, R.Retain(g));
    TabledMint(s.rt.leases, s.rt.nextLease, s.mine, s.owner, g, OfWorker(w));
    OwnedMintToWorker(s.owner, s.bundles, s.workers, s.rt.nextLease, w, x);
  }

  lemma MintToBundleKeepsLeases(s: State, a: R.ThreadId, w: ThreadId, x: Worker)
    requires LeaseInv(s) && CanAcquire(s, a)
    requires Held(x).None?
    requires w in s.workers ==> Held(s.workers[w]).None?
    ensures LeaseInv(MintToBundle(s, a, w, x))
  {
    R.LeaseEffects(s.rt, R.TryAcquire(a));
    TabledMint(s.rt.leases, s.rt.nextLease, s.mine, s.owner, s.rt.acquirers[a].gen, OfBundle(s.nextBundle));
    OwnedMove(s.owner, s.bundles, s.workers, w, x);
    OwnedMintToBundle(s.owner, s.bundles, s.workers[w := x], s.rt.nextLease, s.nextBundle);
  }

  lemma CloseInHandKeepsLeases(s: State, l: R.LeaseId, w: ThreadId, x: Option<Worker>)
    requires LeaseInv(s) && CanClose(s, l)
    requires w in s.workers && Held(s.workers[w]) == Some(l)
    requires x.Some? ==> Held(x.value).None?
    ensures LeaseInv(CloseInHand(s, l, w, x))
  {
    R.LeaseEffects(s.rt, R.CloseLease(l));
    TabledClose(s.rt.leases, s.rt.nextLease, s.mine, s.owner, l);
    OwnedCloseInHand(s.owner, s.bundles, s.workers, l, w, if x.Some? then x.value else Shutting);
  }

  lemma DiscardKeepsLeases(s: State, b: Bundle, w: ThreadId, x: Worker)
    requires LeaseInv(s) && LeaseOfBundle(s, b)
    requires w in s.workers && Held(s.workers[w]).None? && Held(x).None?
    ensures LeaseInv(Discard(s, b, w, x))
  {
    var l := s.bundles[b].value;
    R.LeaseEffects(s.rt, R.CloseLease(l));
    TabledClose(s.rt.leases, s.rt.nextLease, s.mine, s.owner, l);
    OwnedMove(s.owner, s.bundles, s.workers, w, x);
    OwnedDiscard(s.owner, s.bundles, s.workers[w := x], l, b);
  }

  lemma TakeOutKeepsLeases(s: State, w: ThreadId, b: Bundle)
    requires LeaseInv(s) && w in s.workers && s.workers[w].Closing? && s.workers[w].held.None?
             && b in s.workers[w].todo && b in s.bundles
    ensures LeaseInv(TakeOut(s, w, b))
  {
    var x := Closing(s.workers[w].todo - {b}, s.bundles[b]);
    if s.bundles[b].Some? {
      OwnedTake(s.owner, s.bundles, s.workers, s.bundles[b].value, b, w, x);
    } else {
      OwnedMove(s.owner, s.bundles, s.workers, w, x);
      assert s.bundles[b := None] == s.bundles;
    }
  }

  lemma SwapInKeepsLeases(s: State, w: ThreadId)
    requires LeaseInv(s) && w in s.workers && s.workers[w].Holding? && s.workers[w].bundle in s.bundles
    ensures LeaseInv(SwapIn(s, w))
  {
    var x := s.workers[w];
    var before := s.bundles[x.bundle];
    if s.phase.Open? && before.Some? {
      OwnedSwap(s.owner, s.bundles, s.workers, x.lease, before.value, x.bundle, w,
                Dropping(x.next, x.todo, before.value));
    }
  }

  /** A step that touches no lease: thread `w`, with nothing in hand, moves or ends. */
  lemma MoveKeepsLeases(s: State, t: State, w: ThreadId, x: Worker)
    requires LeaseInv(s)
    requires t.rt == s.rt && t.mine == s.mine && t.owner == s.owner
    requires t.bundles == s.bundles && t.nextBundle == s.nextBundle
    requires w in s.workers ==> Held(s.workers[w]).None?
    requires t.workers == s.workers - {w} || (t.workers == s.workers[w := x] && Held(x).None?)
    ensures LeaseInv(t)
  {
    OwnedMove(s.owner, s.bundles, s.workers, w, x);
  }

  lemma RequestKeepsLeases(s: State, step: Step)
    requires LeaseInv(s) && NextOfRequest(s, step).Some?
    ensures LeaseInv(NextOfRequest(s, step).value)
  {
    if IsFactoryStep(step) {
      FactoryKeepsLeases(s, step);
    } else {
      ServingKeepsLeases(s, step);
    }
  }

  lemma ServingKeepsLeases(s: State, step: Step)
    requires LeaseInv(s) && !IsFactoryStep(step) && NextOfRequest(s, step).Some?
    ensures LeaseInv(NextOfRequest(s, step).value)
  {
    var w := step.thread;
    match step
    case Arrive(_) =>
      if s.phase.Open? {
        MoveKeepsLeases(s, Put(s, w, Serving(None, None)), w, Serving(None, None));
      }
    case EndStream(_) =>
      var x := Finishing(s.workers[w].pending, s.workers[w].transient);
      MoveKeepsLeases(s, Put(s, w, x), w, x);
    case StorePending(_, sid) =>
      MoveKeepsLeases(s, DoStorePending(s, w, sid), w, Finishing(None, s.workers[w].transient));
    case DropPending(_) =>
      DiscardKeepsLeases(s, s.workers[w].pending.value, w, Finishing(None, s.workers[w].transient));
    case FinishRequest(_) => FinishRequestKeepsLeases(s, w);
  }

  lemma FactoryKeepsLeases(s: State, step: Step)
    requires LeaseInv(s) && IsFactoryStep(step) && NextOfRequest(s, step).Some?
    ensures LeaseInv(NextOfRequest(s, step).value)
  {
    var w := step.thread;
    match step
    case FactoryAcquire(_, a, stateless) =>
      MintToBundleKeepsLeases(
        s, a, w, Minted(s.nextBundle, stateless, s.workers[w].pending, s.workers[w].transient));
    case DropMinted(_) =>
      DiscardKeepsLeases(s, s.workers[w].bundle, w, Serving(s.workers[w].pending, s.workers[w].transient));
    case SetPending(_) => SetPendingKeepsLeases(s, w);
    case StoreTransient(_) => StoreTransientKeepsLeases(s, w);
    case SetTransient(_) => SetTransientKeepsLeases(s, w);
  }

  lemma SetPendingKeepsLeases(s: State, w: ThreadId)
    requires LeaseInv(s) && w in s.workers && s.workers[w].Minted?
    ensures LeaseInv(DoSetPending(s, w))
  {
    MoveKeepsLeases(s, DoSetPending(s, w), w, Serving(Some(s.workers[w].bundle), s.workers[w].transient));
  }

  lemma StoreTransientKeepsLeases(s: State, w: ThreadId)
    requires LeaseInv(s) && w in s.workers && s.workers[w].Minted?
    ensures LeaseInv(DoStoreTransient(s, w))
  {
    var x := s.workers[w];
    MoveKeepsLeases(s, DoStoreTransient(s, w), w, Parked(x.bundle, x.pending, x.transient));
  }

  lemma SetTransientKeepsLeases(s: State, w: ThreadId)
    requires LeaseInv(s) && w in s.workers && s.workers[w].Parked?
    ensures LeaseInv(Put(s, w, Serving(s.workers[w].pending, Some(s.workers[w].bundle))))
  {
    var x := Serving(s.workers[w].pending, Some(s.workers[w].bundle));
    MoveKeepsLeases(s, Put(s, w, x), w, x);
  }

  lemma FinishRequestKeepsLeases(s: State, w: ThreadId)
    requires LeaseInv(s) && w in s.workers && s.workers[w].Finishing? && s.workers[w].pending.None?
    ensures LeaseInv(DoFinishRequest(s, w))
  {
    var b := s.workers[w].transient;
    MoveKeepsLeases(s, DoFinishRequest(s, w), w, Closing(SetOf(b), None));
  }

  lemma ClosingKeepsLeases(s: State, step: Step)
    requires LeaseInv(s) && NextOfClosing(s, step).Some?
    ensures LeaseInv(NextOfClosing(s, step).value)
  {
    var w := step.thread;
    match step
    case Take(_, b) => TakeOutKeepsLeases(s, w, b);
    case CloseHeld(_) =>
      CloseInHandKeepsLeases(s, s.workers[w].held.value, w, Some(Closing(s.workers[w].todo, None)));
    case CallTool(_, g) =>
      if !s.rt.gens[g].retired {
        MintToWorkerKeepsLeases(s, g, w, Calling(s.rt.nextLease));
      }
    case EndCall(_) => CloseInHandKeepsLeases(s, s.workers[w].lease, w, None);
    case Release(_, sid) => ReleaseKeepsLeases(s, w, sid);
    case EndClosing(_) => MoveKeepsLeases(s, End(s, w), w, Shutting);
    case BeginClose(_) =>
      if s.phase.Open? {
        MoveKeepsLeases(s, Put(s, w, Shutting).(phase := Grabbing(w)), w, Shutting);
      }
    case Grab(_) => GrabKeepsLeases(s, w);
  }

  lemma ReleaseKeepsLeases(s: State, w: ThreadId, sid: SessionId)
    requires LeaseInv(s) && w !in s.workers && sid in s.sessions
    ensures LeaseInv(DoRelease(s, w, sid))
  {
    MoveKeepsLeases(s, DoRelease(s, w, sid), w, Closing({s.sessions[sid]}, None));
  }

  lemma GrabKeepsLeases(s: State, w: ThreadId)
    requires LeaseInv(s) && w in s.workers && s.workers[w].Shutting?
    ensures LeaseInv(DoGrab(s, w))
  {
    MoveKeepsLeases(s, DoGrab(s, w), w, Closing(s.sessions.Values + s.transients, None));
  }

  lemma ReloadKeepsLeases(s: State, step: Step)
    requires LeaseInv(s) && NextOfReload(s, step).Some?
    ensures LeaseInv(NextOfReload(s, step).value)
  {
    var w := step.thread;
    match step
    case RetainNext(_, b) =>
      var x := s.workers[w];
      if s.rt.gens[x.next].retired {
        MoveKeepsLeases(s, DoRetainNext(s, w, b), w, Migrating(x.next, x.todo - {b}));
      } else {
        MintToWorkerKeepsLeases(s, x.next, w, Holding(x.next, x.todo - {b}, b, s.rt.nextLease));
      }
    case Migrate(_) => SwapInKeepsLeases(s, w);
    case DropLease(_) =>
      CloseInHandKeepsLeases(s, s.workers[w].lease, w, Some(Migrating(s.workers[w].next, s.workers[w].todo)));
    case Notify(_, next) =>
      if s.phase.Open? {
        MoveKeepsLeases(s, Put(s, w, Notified(next)), w, Notified(next));
      }
    case Snapshot(_) =>
      var x := Migrating(s.workers[w].next, s.sessions.Values + s.transients);
      MoveKeepsLeases(s, Put(s, w, x), w, x);
    case EndMigration(_) => MoveKeepsLeases(s, End(s, w), w, Shutting);
  }

  lemma StepKeepsLeases(s: State, step: Step)
    requires LeaseInv(s) && Next(s, step).Some?
    ensures LeaseInv(Next(s, step).value)
  {
    if step.Env? {
      EnvKeepsLeases(s, step.step);
    } else if IsRequestStep(step) {
      RequestKeepsLeases(s, step);
    } else if IsReloadStep(step) {
      ReloadKeepsLeases(s, step);
    } else {
      ClosingKeepsLeases(s, step);
    }
  }

  // ---------------------------------------------------------------------------
  // Every bundle with a lease is stored, or some thread will store or close it
  // ---------------------------------------------------------------------------

  type Homes = map<Bundle, Home>
  type Sessions = map<SessionId, Bundle>

  /** What a thread may refer to, given where the bundles live. */
  ghost predicate RefersOk(home: Homes, w: ThreadId, x: Worker) {
    && (forall b | b in Private(x) :: b in home && home[b] == Mine(w))
    && (forall b | b in Passing(x) :: b in home && (home[b].InTransients? || home[b].Kept?))
    && (forall b | b in Visiting(x) :: b in home && !home[b].Mine? && !home[b].Stray?)
    && (forall b | b in Doomed(x) :: b in home && home[b].Kept?)
    && (x.Minted? ==> x.pending != Some(x.bundle))
  }

  ghost predicate WorkersOk(home: Homes, workers: Workers) {
    forall w | w in workers :: RefersOk(home, w, workers[w])
  }

  /** The recorded home of a bundle is where it is. */
  ghost predicate HomeOk(
    sessions: Sessions, transients: set<Bundle>, workers: Workers, lost: set<Bundle>,
    b: Bundle, h: Home, lease: Option<R.LeaseId>)
  {
    match h
    case Mine(w) => lease.Some? && w in workers && b in Private(workers[w])
    case InSession(sid) => lease.Some? && sid in sessions && sessions[sid] == b
    case InTransients => lease.Some? && b in transients
    case Kept(w) => lease.Some? ==> w in workers && b in Doomed(workers[w])
    case Stray => lease.Some? && b in lost
  }

  ghost predicate Housed(
    home: Homes, sessions: Sessions, transients: set<Bundle>, workers: Workers, lost: set<Bundle>,
    bundles: Bundles)
  {
    && home.Keys == bundles.Keys
    && (forall b | b in home :: HomeOk(sessions, transients, workers, lost, b, home[b], bundles[b]))
    && (forall sid | sid in sessions :: sessions[sid] in home && home[sessions[sid]] == InSession(sid))
    && (forall b | b in transients :: b in home && home[b] == InTransients)
    && (forall b | b in lost :: b in home && home[b] == Stray)
  }

  ghost predicate HouseInv(s: State) {
    && WorkersOk(s.home, s.workers)
    && Housed(s.home, s.sessions, s.transients, s.workers, s.lost, s.bundles)
    && (forall b | b in s.bundles :: b < s.nextBundle)
  }

  /** Moving one bundle to a home that every thread referring to it accepts. */
  lemma RehomeKeepsWorkers(home: Homes, workers: Workers, w: ThreadId, x: Worker, b: Bundle, h: Home)
    requires WorkersOk(home, workers)
    requires b in home ==>
               || home[b] == Mine(w)
               || (h.Kept? && !home[b].Mine? && !home[b].Stray?)
    requires RefersOk(home[b := h], w, x)
    ensures WorkersOk(home[b := h], workers[w := x])
  {
    forall v | v in workers && v != w
      ensures RefersOk(home[b := h], v, workers[v])
    {
      assert RefersOk(home, v, workers[v]);
    }
  }

  lemma MoveKeepsWorkers(home: Homes, workers: Workers, w: ThreadId, x: Worker)
    requires WorkersOk(home, workers)
    ensures WorkersOk(home, workers - {w})
    ensures RefersOk(home, w, x) ==> WorkersOk(home, workers[w := x])
  {
    forall v | v in workers
      ensures RefersOk(home, v, workers[v])
    {
    }
  }

  lemma ForgetKeepsWorkers(home: Homes, workers: Workers, w: ThreadId, x: Worker, b: Bundle)
    requires WorkersOk(home, workers) && b in home && home[b] == Mine(w)
    requires RefersOk(home - {b}, w, x)
    ensures WorkersOk(home - {b}, workers[w := x])
  {
    forall v | v in workers && v != w
      ensures RefersOk(home - {b}, v, workers[v])
    {
      assert RefersOk(home, v, workers[v]);
    }
  }

  /** A thread moves on without giving up a private bundle or one it is closing. */
  lemma MoveKeepsHoused(
      home: Homes, sessions: Sessions, transients: set<Bundle>, workers: Workers, lost: set<Bundle>,
      bundles: Bundles, w: ThreadId, x: Worker)
    requires Housed(home, sessions, transients, workers, lost, bundles)
    requires w in workers ==> Private(workers[w]) <= Private(x) && Doomed(workers[w]) <= Doomed(x)
    ensures Housed(home, sessions, transients, workers[w := x], lost, bundles)
  {
    forall b | b in home
      ensures HomeOk(sessions, transients, workers[w := x], lost, b, home[b], bundles[b])
    {
      assert HomeOk(sessions, transients, workers, lost, b, home[b], bundles[b]);
    }
  }

  lemma EndKeepsHoused(
      home: Homes, sessions: Sessions, transients: set<Bundle>, workers: Workers, lost: set<Bundle>,
      bundles: Bundles, w: ThreadId)
    requires Housed(home, sessions, transients, workers, lost, bundles)
    requires w in workers ==> Private(workers[w]) == {} && Doomed(workers[w]) == {}
    ensures Housed(home, sessions, transients, workers - {w}, lost, bundles)
  {
    forall b | b in home
      ensures HomeOk(sessions, transients, workers - {w}, lost, b, home[b], bundles[b])
    {
      assert HomeOk(sessions, transients, workers, lost, b, home[b], bundles[b]);
    }
  }

  /** Thread `w` moves bundle `b` to home `h`; no other bundle changes its place. */
  lemma RehomeKeepsHoused(
      home: Homes, sessions: Sessions, transients: set<Bundle>, workers: Workers, lost: set<Bundle>,
      bundles: Bundles, sessions': Sessions, transients': set<Bundle>, lost': set<Bundle>,
      w: ThreadId, x: Worker, b: Bundle, h: Home)
    requires Housed(home, sessions, transients, workers, lost, bundles) && b in home
    requires HomeOk(sessions', transients', workers[w := x], lost', b, h, bundles[b])
    requires forall sid | sid in sessions && sessions[sid] != b ::
               sid in sessions' && sessions'[sid] == sessions[sid]
    requires forall sid | sid in sessions' ::
               if sessions'[sid] == b then h == InSession(sid)
               else sid in sessions && sessions[sid] == sessions'[sid]
    requires transients' - {b} == transients - {b} && (b in transients' ==> h == InTransients)
    requires lost' - {b} == lost - {b} && (b in lost' ==> h == Stray)
    requires w in workers ==>
               Private(workers[w]) - {b} <= Private(x) && Doomed(workers[w]) - {b} <= Doomed(x)
    ensures Housed(home[b := h], sessions', transients', workers[w := x], lost', bundles)
  {
    forall c | c in home && c != b
      ensures HomeOk(sessions', transients', workers[w := x], lost', c, home[c], bundles[c])
    {
      assert HomeOk(sessions, transients, workers, lost, c, home[c], bundles[c]);
      assert c in transients ==> c in transients - {b};
      assert c in lost ==> c in lost - {b};
    }
    forall c | c in transients' && c != b
      ensures c in home && home[c] == InTransients
    {
      assert c in transients' - {b};
    }
    forall c | c in lost' && c != b
      ensures c in home && home[c] == Stray
    {
      assert c in lost' - {b};
    }
  }

  lemma MintRefers(home: Homes, w: ThreadId, y: Worker, b: Bundle, stateless: bool)
    requires RefersOk(home, w, y) && y.Serving? && b !in home
    ensures RefersOk(home[b := Mine(w)], w, Minted(b, stateless, y.pending, y.transient))
  {
  }

  lemma FactoryAcquireKeepsHouse(s: State, w: ThreadId, a: R.ThreadId, stateless: bool)
    requires HouseInv(s) && w in s.workers && s.workers[w].Serving? && CanAcquire(s, a)
    ensures HouseInv(DoFactoryAcquire(s, w, a, stateless))
  {
    var b := s.nextBundle;
    var y := s.workers[w];
    var x := Minted(b, stateless, y.pending, y.transient);
    assert RefersOk(s.home, w, y);
    MintRefers(s.home, w, y, b, stateless);
    RehomeKeepsWorkers(s.home, s.workers, w, x, b, Mine(w));
    MoveKeepsHoused(s.home, s.sessions, s.transients, s.workers, s.lost, s.bundles, w, x);
    HouseNew(s.home, s.sessions, s.transients, s.workers[w := x], s.lost, s.bundles, w, b, s.rt.nextLease);
  }

  lemma HouseNew(
      home: Homes, sessions: Sessions, transients: set<Bundle>, workers: Workers, lost: set<Bundle>,
      bundles: Bundles, w: ThreadId, b: Bundle, l: R.LeaseId)
    requires Housed(home, sessions, transients, workers, lost, bundles) && b !in home
    requires w in workers && b in Private(workers[w])
    ensures Housed(home[b := Mine(w)], sessions, transients, workers, lost, bundles[b := Some(l)])
  {
    forall c | c in home
      ensures HomeOk(sessions, transients, workers, lost, c, home[c], bundles[c])
    {
    }
  }

  lemma DiscardKeepsHouse(s: State, b: Bundle, w: ThreadId, x: Worker)
    requires HouseInv(s) && LeaseOfBundle(s, b) && w in s.workers
    requires b in Private(s.workers[w]) && Private(x) == Private(s.workers[w]) - {b}
    requires Passing(x) == Passing(s.workers[w])
    requires Visiting(x) == {} && Doomed(x) == {} && Doomed(s.workers[w]) == {} && !x.Minted?
    ensures HouseInv(Discard(s, b, w, x))
  {
    assert RefersOk(s.home, w, s.workers[w]);
    ForgetKeepsWorkers(s.home, s.workers, w, x, b);
    var t := Discard(s, b, w, x);
    assert t.home.Keys == t.bundles.Keys;
    forall c | c in t.home
      ensures HomeOk(t.sessions, t.transients, t.workers, t.lost, c, t.home[c], t.bundles[c])
    {
      DiscardKeepsHome(s, b, w, x, c);
    }
  }

  lemma DiscardKeepsHome(s: State, b: Bundle, w: ThreadId, x: Worker, c: Bundle)
    requires HouseInv(s) && LeaseOfBundle(s, b) && w in s.workers
    requires b in Private(s.workers[w]) && Private(x) == Private(s.workers[w]) - {b}
    requires Visiting(x) == {} && Doomed(x) == {} && Doomed(s.workers[w]) == {}
    requires Passing(x) == Passing(s.workers[w])
    requires c in Discard(s, b, w, x).home && c in Discard(s, b, w, x).bundles
    ensures var t := Discard(s, b, w, x);
            HomeOk(t.sessions, t.transients, t.workers, t.lost, c, t.home[c], t.bundles[c])
  {
    assert RefersOk(s.home, w, s.workers[w]);
    assert HomeOk(s.sessions, s.transients, s.workers, s.lost, c, s.home[c], s.bundles[c]);
  }

  lemma OverwriteRefers(home: Homes, w: ThreadId, y: Worker)
    requires RefersOk(home, w, y) && y.Minted? && y.pending.Some?
    ensures RefersOk(home[y.pending.value := Stray], w, Serving(Some(y.bundle), y.transient))
  {
  }

  lemma SetPendingKeepsHouse(s: State, w: ThreadId)
    requires HouseInv(s) && w in s.workers && s.workers[w].Minted?
    ensures HouseInv(DoSetPending(s, w))
  {
    var y := s.workers[w];
    var x := Serving(Some(y.bundle), y.transient);
    assert RefersOk(s.home, w, y);
    if y.pending.None? {
      MoveKeepsWorkers(s.home, s.workers, w, x);
      MoveKeepsHoused(s.home, s.sessions, s.transients, s.workers, s.lost, s.bundles, w, x);
    } else {
      var p := y.pending.value;
      assert HomeOk(s.sessions, s.transients, s.workers, s.lost, p, s.home[p], s.bundles[p]);
      OverwriteRefers(s.home, w, y);
      RehomeKeepsWorkers(s.home, s.workers, w, x, p, Stray);
      RehomeKeepsHoused(s.home, s.sessions, s.transients, s.workers, s.lost, s.bundles,
                        s.sessions, s.transients, s.lost + {p}, w, x, p, Stray);
    }
  }

  /** Thread `w` stores its private bundle `b` in a table. */
  lemma StoreKeepsWorkers(home: Homes, workers: Workers, w: ThreadId, x: Worker, b: Bundle, h: Home)
    requires WorkersOk(home, workers)
    requires w in workers && b in Private(workers[w]) && Private(x) == Private(workers[w]) - {b}
    requires Doomed(x) == Visiting(x) == {} && !x.Minted?
    requires Passing(x) == Passing(workers[w]) + (if h == InTransients then {b} else {})
    ensures WorkersOk(home[b := h], workers[w := x])
  {
    assert RefersOk(home, w, workers[w]);
    assert RefersOk(home[b := h], w, x);
    RehomeKeepsWorkers(home, workers, w, x, b, h);
  }

  lemma StoreKeepsHoused(
      home: Homes, sessions: Sessions, transients: set<Bundle>, workers: Workers, lost: set<Bundle>,
      bundles: Bundles, w: ThreadId, x: Worker, b: Bundle, h: Home)
    requires Housed(home, sessions, transients, workers, lost, bundles)
    requires w in workers && b in home && home[b] == Mine(w) && Private(x) == Private(workers[w]) - {b}
    requires Doomed(workers[w]) == {}
    requires h == InTransients || (h.InSession? && h.session !in sessions)
    ensures if h == InTransients
            then Housed(home[b := h], sessions, transients + {b}, workers[w := x], lost, bundles)
            else Housed(home[b := h], sessions[h.session := b], transients, workers[w := x], lost, bundles)
  {
    assert HomeOk(sessions, transients, workers, lost, b, home[b], bundles[b]);
    if h == InTransients {
      RehomeKeepsHoused(home, sessions, transients, workers, lost, bundles,
                        sessions, transients + {b}, lost, w, x, b, h);
    } else {
      RehomeKeepsHoused(home, sessions, transients, workers, lost, bundles,
                        sessions[h.session := b], transients, lost, w, x, b, h);
    }
  }

  lemma StoreTransientKeepsHouse(s: State, w: ThreadId)
    requires HouseInv(s) && w in s.workers && s.workers[w].Minted?
    ensures HouseInv(DoStoreTransient(s, w))
  {
    var y := s.workers[w];
    var x := Parked(y.bundle, y.pending, y.transient);
    assert RefersOk(s.home, w, y);
    StoreKeepsWorkers(s.home, s.workers, w, x, y.bundle, InTransients);
    StoreKeepsHoused(s.home, s.sessions, s.transients, s.workers, s.lost, s.bundles, w, x, y.bundle, InTransients);
  }

  lemma StorePendingKeepsHouse(s: State, w: ThreadId, sid: SessionId)
    requires HouseInv(s) && w in s.workers && s.workers[w].Finishing? && s.workers[w].pending.Some?
             && sid !in s.sessions
    ensures HouseInv(DoStorePending(s, w, sid))
  {
    var y := s.workers[w];
    var x := Finishing(None, y.transient);
    assert RefersOk(s.home, w, y);
    StoreKeepsWorkers(s.home, s.workers, w, x, y.pending.value, InSession(sid));
    StoreKeepsHoused(s.home, s.sessions, s.transients, s.workers, s.lost, s.bundles, w, x,
                     y.pending.value, InSession(sid));
  }

  lemma FinishRequestKeepsHouse(s: State, w: ThreadId)
    requires HouseInv(s) && w in s.workers && s.workers[w].Finishing? && s.workers[w].pending.None?
    ensures HouseInv(DoFinishRequest(s, w))
  {
    if s.workers[w].transient.None? {
      EndKeepsHouse(s, End(s, w), w);
    } else {
      ReleaseTransientKeepsHouse(s, w);
    }
  }

  lemma ReleaseTransientKeepsHouse(s: State, w: ThreadId)
    requires HouseInv(s) && w in s.workers && s.workers[w].Finishing?
    requires s.workers[w].pending.None? && s.workers[w].transient.Some?
    ensures HouseInv(DoFinishRequest(s, w))
  {
    var b := s.workers[w].transient.value;
    var x := Closing({b}, None);
    assert RefersOk(s.home, w, s.workers[w]);
    assert RefersOk(s.home[b := Kept(w)], w, x);
    RehomeKeepsWorkers(s.home, s.workers, w, x, b, Kept(w));
    RehomeKeepsHoused(s.home, s.sessions, s.transients, s.workers, s.lost, s.bundles,
                      s.sessions, s.transients - {b}, s.lost, w, x, b, Kept(w));
  }

  lemma ReleaseKeepsHouse(s: State, w: ThreadId, sid: SessionId)
    requires HouseInv(s) && w !in s.workers && sid in s.sessions
    ensures HouseInv(DoRelease(s, w, sid))
  {
    var b := s.sessions[sid];
    var x := Closing({b}, None);
    assert RefersOk(s.home[b := Kept(w)], w, x);
    RehomeKeepsWorkers(s.home, s.workers, w, x, b, Kept(w));
    RehomeKeepsHoused(s.home, s.sessions, s.transients, s.workers, s.lost, s.bundles,
                      s.sessions - {sid}, s.transients, s.lost, w, x, b, Kept(w));
  }

  lemma GrabKeepsWorkers(home: Homes, workers: Workers, todo: set<Bundle>, w: ThreadId)
    requires WorkersOk(home, workers)
    requires forall b | b in todo :: b in home && (home[b].InSession? || home[b].InTransients?)
    ensures WorkersOk(GrabHomes(home, todo, w), workers[w := Closing(todo, None)])
  {
    forall v | v in workers && v != w
      ensures RefersOk(GrabHomes(home, todo, w), v, workers[v])
    {
      assert RefersOk(home, v, workers[v]);
    }
  }

  lemma GrabKeepsHoused(
      home: Homes, sessions: Sessions, transients: set<Bundle>, workers: Workers, lost: set<Bundle>,
      bundles: Bundles, w: ThreadId)
    requires Housed(home, sessions, transients, workers, lost, bundles)
    requires w in workers && workers[w].Shutting?
    ensures var todo := sessions.Values + transients;
            Housed(GrabHomes(home, todo, w), map[], {}, workers[w := Closing(todo, None)], lost, bundles)
  {
    var todo := sessions.Values + transients;
    forall b | b in home
      ensures HomeOk(map[], {}, workers[w := Closing(todo, None)], lost, b, GrabHomes(home, todo, w)[b], bundles[b])
    {
      assert HomeOk(sessions, transients, workers, lost, b, home[b], bundles[b]);
    }
  }

  lemma GrabKeepsHouse(s: State, w: ThreadId)
    requires HouseInv(s) && w in s.workers && s.workers[w].Shutting?
    ensures HouseInv(DoGrab(s, w))
  {
    GrabKeepsWorkers(s.home, s.workers, s.sessions.Values + s.transients, w);
    GrabKeepsHoused(s.home, s.sessions, s.transients, s.workers, s.lost, s.bundles, w);
  }

  /** The lease of bundle `b` is replaced, or taken by the thread that closes `b`. */
  lemma ReslotKeepsHoused(
      home: Homes, sessions: Sessions, transients: set<Bundle>, workers: Workers, lost: set<Bundle>,
      bundles: Bundles, w: ThreadId, x: Worker, b: Bundle, lease: Option<R.LeaseId>)
    requires Housed(home, sessions, transients, workers, lost, bundles)
    requires w in workers && Private(workers[w]) == Private(x) && b in home
    requires || (lease.Some? && bundles[b].Some? && Doomed(workers[w]) == Doomed(x))
             || (lease.None? && home[b].Kept? && Doomed(x) == Doomed(workers[w]) - {b})
    ensures Housed(home, sessions, transients, workers[w := x], lost, bundles[b := lease])
  {
    forall c | c in home
      ensures HomeOk(sessions, transients, workers[w := x], lost, c, home[c], bundles[b := lease][c])
    {
      assert HomeOk(sessions, transients, workers, lost, c, home[c], bundles[c]);
    }
  }

  lemma TakeKeepsHouse(s: State, w: ThreadId, b: Bundle)
    requires HouseInv(s) && w in s.workers && s.workers[w].Closing? && s.workers[w].held.None?
             && b in s.workers[w].todo && b in s.bundles
    ensures HouseInv(TakeOut(s, w, b))
  {
    var x := Closing(s.workers[w].todo - {b}, s.bundles[b]);
    assert RefersOk(s.home, w, s.workers[w]);
    MoveKeepsWorkers(s.home, s.workers, w, x);
    ReslotKeepsHoused(s.home, s.sessions, s.transients, s.workers, s.lost, s.bundles, w, x, b, None);
  }

  lemma SwapInKeepsHouse(s: State, w: ThreadId)
    requires HouseInv(s) && w in s.workers && s.workers[w].Holding? && s.workers[w].bundle in s.bundles
    ensures HouseInv(SwapIn(s, w))
  {
    var y := s.workers[w];
    var before := s.bundles[y.bundle];
    if s.phase.Open? && before.Some? {
      SwapKeepsHouse(s, SwapIn(s, w), w);
    } else {
      KeepLeaseKeepsHouse(s, w);
    }
  }

  lemma SwapKeepsHouse(s: State, t: State, w: ThreadId)
    requires HouseInv(s) && w in s.workers && s.workers[w].Holding?
    requires s.workers[w].bundle in s.bundles && s.bundles[s.workers[w].bundle].Some?
    requires t.home == s.home && t.sessions == s.sessions && t.transients == s.transients && t.lost == s.lost
    requires t.nextBundle == s.nextBundle && t.bundles == s.bundles[s.workers[w].bundle := Some(s.workers[w].lease)]
    requires var y := s.workers[w];
             t.workers == s.workers[w := Dropping(y.next, y.todo, s.bundles[y.bundle].value)]
    ensures HouseInv(t)
  {
    var y := s.workers[w];
    var x := Dropping(y.next, y.todo, s.bundles[y.bundle].value);
    DropRefers(s.home, s.workers, w, x);
    ReslotKeepsHoused(
      s.home, s.sessions, s.transients, s.workers, s.lost, s.bundles, w, x, y.bundle, Some(y.lease));
  }

  lemma KeepLeaseKeepsHouse(s: State, w: ThreadId)
    requires HouseInv(s) && w in s.workers && s.workers[w].Holding?
    ensures HouseInv(Put(s, w, Dropping(s.workers[w].next, s.workers[w].todo, s.workers[w].lease)))
  {
    var x := Dropping(s.workers[w].next, s.workers[w].todo, s.workers[w].lease);
    DropRefers(s.home, s.workers, w, x);
    MoveKeepsHoused(s.home, s.sessions, s.transients, s.workers, s.lost, s.bundles, w, x);
  }

  lemma DropRefers(home: Homes, workers: Workers, w: ThreadId, x: Worker)
    requires WorkersOk(home, workers) && w in workers && workers[w].Holding?
    requires x.Dropping? && x.todo == workers[w].todo
    ensures WorkersOk(home, workers[w := x])
  {
    assert RefersOk(home, w, workers[w]);
    MoveKeepsWorkers(home, workers, w, x);
  }

  /** A step that rehomes nothing: thread `w` moves, keeping what it must store or close. */
  lemma MoveKeepsHouse(s: State, t: State, w: ThreadId, x: Worker)
    requires HouseInv(s)
    requires t.home == s.home && t.sessions == s.sessions && t.transients == s.transients
    requires t.lost == s.lost && t.bundles == s.bundles && t.nextBundle == s.nextBundle
    requires t.workers == s.workers[w := x] && RefersOk(s.home, w, x)
    requires w in s.workers ==>
               Private(s.workers[w]) <= Private(x) && Doomed(s.workers[w]) <= Doomed(x)
    ensures HouseInv(t)
  {
    MoveKeepsWorkers(s.home, s.workers, w, x);
    MoveKeepsHoused(s.home, s.sessions, s.transients, s.workers, s.lost, s.bundles, w, x);
  }

  lemma EndKeepsHouse(s: State, t: State, w: ThreadId)
    requires HouseInv(s)
    requires t.home == s.home && t.sessions == s.sessions && t.transients == s.transients
    requires t.lost == s.lost && t.bundles == s.bundles && t.nextBundle == s.nextBundle
    requires t.workers == s.workers - {w}
    requires w in s.workers ==> Private(s.workers[w]) == {} && Doomed(s.workers[w]) == {}
    ensures HouseInv(t)
  {
    MoveKeepsWorkers(s.home, s.workers, w, Shutting);
    EndKeepsHoused(s.home, s.sessions, s.transients, s.workers, s.lost, s.bundles, w);
  }

  lemma SnapshotKeepsHouse(s: State, w: ThreadId)
    requires HouseInv(s) && w in s.workers && s.workers[w].Notified?
    ensures HouseInv(Put(s, w, Migrating(s.workers[w].next, s.sessions.Values + s.transients)))
  {
    var x := Migrating(s.workers[w].next, s.sessions.Values + s.transients);
    assert RefersOk(s.home, w, x);
    MoveKeepsHouse(s, Put(s, w, x), w, x);
  }

  lemma RetainNextKeepsHouse(s: State, w: ThreadId, b: Bundle)
    requires HouseInv(s)
    requires w in s.workers && s.workers[w].Migrating? && b in s.workers[w].todo
             && CanRetain(s, s.workers[w].next)
    ensures HouseInv(DoRetainNext(s, w, b))
  {
    var y := s.workers[w];
    if s.rt.gens[y.next].retired {
      SkipKeepsHouse(s, w, b, DoRetainNext(s, w, b));
    } else {
      HoldKeepsHouse(s, w, b, DoRetainNext(s, w, b));
    }
  }

  lemma SkipKeepsHouse(s: State, w: ThreadId, b: Bundle, t: State)
    requires HouseInv(s) && w in s.workers && s.workers[w].Migrating? && b in s.workers[w].todo
    requires t == Put(s, w, Migrating(s.workers[w].next, s.workers[w].todo - {b}))
    ensures HouseInv(t)
  {
    assert RefersOk(s.home, w, s.workers[w]);
    MoveKeepsHouse(s, t, w, Migrating(s.workers[w].next, s.workers[w].todo - {b}));
  }

  lemma HoldKeepsHouse(s: State, w: ThreadId, b: Bundle, t: State)
    requires HouseInv(s) && w in s.workers && s.workers[w].Migrating? && b in s.workers[w].todo
    requires CanRetain(s, s.workers[w].next)
    requires var y := s.workers[w];
             t == MintToWorker(s, y.next, w, Holding(y.next, y.todo - {b}, b, s.rt.nextLease))
    ensures HouseInv(t)
  {
    assert RefersOk(s.home, w, s.workers[w]);
    MoveKeepsHouse(s, t, w, Holding(s.workers[w].next, s.workers[w].todo - {b}, b, s.rt.nextLease));
  }

  lemma NotifyKeepsHouse(s: State, w: ThreadId, next: R.GenId)
    requires HouseInv(s) && w !in s.workers
    ensures HouseInv(Put(s, w, Notified(next)))
  {
    MoveKeepsHouse(s, Put(s, w, Notified(next)), w, Notified(next));
  }

  lemma DropLeaseKeepsHouse(s: State, w: ThreadId)
    requires HouseInv(s) && w in s.workers && s.workers[w].Dropping? && CanClose(s, s.workers[w].lease)
    ensures HouseInv(DoDropLease(s, w))
  {
    assert RefersOk(s.home, w, s.workers[w]);
    MoveKeepsHouse(s, DoDropLease(s, w), w, Migrating(s.workers[w].next, s.workers[w].todo));
  }

  lemma ReloadKeepsHouse(s: State, step: Step)
    requires HouseInv(s) && NextOfReload(s, step).Some?
    ensures HouseInv(NextOfReload(s, step).value)
  {
    match step
    case Notify(w, next) =>
      if s.phase.Open? {
        NotifyKeepsHouse(s, w, next);
      }
    case Snapshot(w) => SnapshotKeepsHouse(s, w);
    case RetainNext(w, b) => RetainNextKeepsHouse(s, w, b);
    case Migrate(w) => SwapInKeepsHouse(s, w);
    case DropLease(w) => DropLeaseKeepsHouse(s, w);
    case EndMigration(w) => EndKeepsHouse(s, End(s, w), w);
  }

  lemma RequestMoveKeepsHouse(s: State, w: ThreadId, x: Worker)
    requires HouseInv(s) && w in s.workers
    requires || (s.workers[w].Parked? && x == Serving(s.workers[w].pending, Some(s.workers[w].bundle)))
             || (s.workers[w].Serving? && x == Finishing(s.workers[w].pending, s.workers[w].transient))
    ensures HouseInv(Put(s, w, x))
  {
    assert RefersOk(s.home, w, s.workers[w]);
    MoveKeepsHouse(s, Put(s, w, x), w, x);
  }

  lemma DropKeepsHouse(s: State, w: ThreadId, b: Bundle, x: Worker)
    requires HouseInv(s) && w in s.workers && LeaseOfBundle(s, b)
    requires var y := s.workers[w];
             || (y.Minted? && b == y.bundle && x == Serving(y.pending, y.transient))
             || (y.Finishing? && y.pending == Some(b) && x == Finishing(None, y.transient))
    ensures HouseInv(Discard(s, b, w, x))
  {
    assert RefersOk(s.home, w, s.workers[w]);
    DiscardKeepsHouse(s, b, w, x);
  }

  lemma RequestKeepsHouse(s: State, step: Step)
    requires HouseInv(s) && NextOfRequest(s, step).Some?
    ensures HouseInv(NextOfRequest(s, step).value)
  {
    if IsFactoryStep(step) {
      FactoryKeepsHouse(s, step);
    } else {
      ServingKeepsHouse(s, step);
    }
  }

  lemma ArriveKeepsHouse(s: State, w: ThreadId)
    requires HouseInv(s) && w !in s.workers
    ensures HouseInv(Put(s, w, Serving(None, None)))
  {
    MoveKeepsHouse(s, Put(s, w, Serving(None, None)), w, Serving(None, None));
  }

  lemma ServingKeepsHouse(s: State, step: Step)
    requires HouseInv(s) && !IsFactoryStep(step) && NextOfRequest(s, step).Some?
    ensures HouseInv(NextOfRequest(s, step).value)
  {
    var w := step.thread;
    match step
    case Arrive(_) => ArriveKeepsHouse(s, w);
    case EndStream(_) =>
      RequestMoveKeepsHouse(s, w, Finishing(s.workers[w].pending, s.workers[w].transient));
    case StorePending(_, sid) => StorePendingKeepsHouse(s, w, sid);
    case DropPending(_) =>
      DropKeepsHouse(s, w, s.workers[w].pending.value, Finishing(None, s.workers[w].transient));
    case FinishRequest(_) => FinishRequestKeepsHouse(s, w);
  }

  lemma FactoryKeepsHouse(s: State, step: Step)
    requires HouseInv(s) && IsFactoryStep(step) && NextOfRequest(s, step).Some?
    ensures HouseInv(NextOfRequest(s, step).value)
  {
    var w := step.thread;
    match step
    case FactoryAcquire(_, a, stateless) => FactoryAcquireKeepsHouse(s, w, a, stateless);
    case SetPending(_) => SetPendingKeepsHouse(s, w);
    case StoreTransient(_) => StoreTransientKeepsHouse(s, w);
    case SetTransient(_) =>
      RequestMoveKeepsHouse(s, w, Serving(s.workers[w].pending, Some(s.workers[w].bundle)));
    case DropMinted(_) =>
      DropKeepsHouse(s, w, s.workers[w].bundle, Serving(s.workers[w].pending, s.workers[w].transient));
  }

  lemma CloseHeldKeepsHouse(s: State, w: ThreadId)
    requires HouseInv(s) && NextOfClosing(s, CloseHeld(w)).Some?
    ensures HouseInv(NextOfClosing(s, CloseHeld(w)).value)
  {
    assert RefersOk(s.home, w, s.workers[w]);
    MoveKeepsHouse(s, DoCloseHeld(s, w), w, Closing(s.workers[w].todo, None));
  }

  lemma CallToolKeepsHouse(s: State, w: ThreadId, g: R.GenId)
    requires HouseInv(s) && NextOfClosing(s, CallTool(w, g)).Some?
    ensures HouseInv(NextOfClosing(s, CallTool(w, g)).value)
  {
    if !s.rt.gens[g].retired {
      MoveKeepsHouse(s, DoCallTool(s, w, g), w, Calling(s.rt.nextLease));
    }
  }

  lemma ClosingKeepsHouse(s: State, step: Step)
    requires HouseInv(s) && NextOfClosing(s, step).Some?
    ensures HouseInv(NextOfClosing(s, step).value)
  {
    var w := step.thread;
    match step
    case Release(_, sid) => ReleaseKeepsHouse(s, w, sid);
    case Take(_, b) => TakeKeepsHouse(s, w, b);
    case CloseHeld(_) => CloseHeldKeepsHouse(s, w);
    case EndClosing(_) => EndKeepsHouse(s, End(s, w), w);
    case CallTool(_, g) => CallToolKeepsHouse(s, w, g);
    case EndCall(_) => EndCallKeepsHouse(s, w);
    case BeginClose(_) =>
      if s.phase.Open? {
        BeginCloseKeepsHouse(s, w);
      }
    case Grab(_) => GrabKeepsHouse(s, w);
  }

  lemma EndCallKeepsHouse(s: State, w: ThreadId)
    requires HouseInv(s) && w in s.workers && s.workers[w].Calling? && CanClose(s, s.workers[w].lease)
    ensures HouseInv(CloseInHand(s, s.workers[w].lease, w, None))
  {
    EndKeepsHouse(s, CloseInHand(s, s.workers[w].lease, w, None), w);
  }

  lemma BeginCloseKeepsHouse(s: State, w: ThreadId)
    requires HouseInv(s) && w !in s.workers
    ensures HouseInv(Put(s, w, Shutting).(phase := Grabbing(w)))
  {
    MoveKeepsHouse(s, Put(s, w, Shutting).(phase := Grabbing(w)), w, Shutting);
  }

  lemma StepKeepsHouse(s: State, step: Step)
    requires HouseInv(s) && Next(s, step).Some?
    ensures HouseInv(Next(s, step).value)
  {
    if step.Env? {
    } else if IsRequestStep(step) {
      RequestKeepsHouse(s, step);
    } else if IsReloadStep(step) {
      ReloadKeepsHouse(s, step);
    } else {
      ClosingKeepsHouse(s, step);
    }
  }

  // ---------------------------------------------------------------------------
  // Shutdown phase and the embedded runtime
  // ---------------------------------------------------------------------------

  /** Once `Close` has emptied the tables nothing enters them again. */
  ghost predicate PhaseOk(phase: Phase, sessions: Sessions, transients: set<Bundle>, workers: Workers) {
    && (phase.Grabbing? ==> phase.closer in workers && workers[phase.closer].Shutting?)
    && (phase.Closed? ==> sessions == map[] && transients == {})
    && (forall w | w in workers && workers[w].Shutting? :: phase == Grabbing(w))
  }

  ghost predicate PhaseInv(s: State) {
    PhaseOk(s.phase, s.sessions, s.transients, s.workers)
  }

  lemma MoveKeepsPhase(
      phase: Phase, sessions: Sessions, transients: set<Bundle>, workers: Workers, w: ThreadId, x: Worker)
    requires PhaseOk(phase, sessions, transients, workers)
    requires w in workers ==> !workers[w].Shutting?
    ensures PhaseOk(phase, sessions, transients, workers - {w})
    ensures !x.Shutting? ==> PhaseOk(phase, sessions, transients, workers[w := x])
  {
  }

  lemma RequestKeepsPhase(s: State, step: Step)
    requires PhaseInv(s) && NextOfRequest(s, step).Some?
    ensures PhaseInv(NextOfRequest(s, step).value)
  {
    if IsFactoryStep(step) {
      FactoryKeepsPhase(s, step);
    } else {
      ServingKeepsPhase(s, step);
    }
  }

  lemma FactoryKeepsPhase(s: State, step: Step)
    requires PhaseInv(s) && IsFactoryStep(step) && NextOfRequest(s, step).Some?
    ensures PhaseInv(NextOfRequest(s, step).value)
  {
    var w := step.thread;
    MoveKeepsPhase(s.phase, s.sessions, s.transients, s.workers, w, NextOfRequest(s, step).value.workers[w]);
  }

  lemma ServingKeepsPhase(s: State, step: Step)
    requires PhaseInv(s) && !IsFactoryStep(step) && NextOfRequest(s, step).Some?
    ensures PhaseInv(NextOfRequest(s, step).value)
  {
    var t := NextOfRequest(s, step).value;
    var w := step.thread;
    MoveKeepsPhase(s.phase, s.sessions, s.transients, s.workers, w,
                   if w in t.workers then t.workers[w] else Shutting);
  }

  lemma ReloadKeepsPhase(s: State, step: Step)
    requires PhaseInv(s) && NextOfReload(s, step).Some?
    ensures PhaseInv(NextOfReload(s, step).value)
  {
    var t := NextOfReload(s, step).value;
    var w := step.thread;
    MoveKeepsPhase(s.phase, s.sessions, s.transients, s.workers, w,
                   if w in t.workers then t.workers[w] else Shutting);
  }

  lemma ClosingKeepsPhase(s: State, step: Step)
    requires PhaseInv(s) && NextOfClosing(s, step).Some?
    ensures PhaseInv(NextOfClosing(s, step).value)
  {
    if !step.Grab? {
      var t := NextOfClosing(s, step).value;
      var w := step.thread;
      MoveKeepsPhase(s.phase, s.sessions, s.transients, s.workers, w,
                     if w in t.workers then t.workers[w] else Shutting);
    }
  }

  lemma StepKeepsPhase(s: State, step: Step)
    requires PhaseInv(s) && Next(s, step).Some?
    ensures PhaseInv(Next(s, step).value)
  {
    if step.Env? {
    } else if IsRequestStep(step) {
      RequestKeepsPhase(s, step);
    } else if IsReloadStep(step) {
      ReloadKeepsPhase(s, step);
    } else {
      ClosingKeepsPhase(s, step);
    }
  }

  /** The one runtime step a step of the adapter contains, if any. */
  function RuntimeStep(s: State, step: Step): Option<R.Step>
    requires Next(s, step).Some?
  {
    match step
    case Env(rs) => Some(rs)
    case FactoryAcquire(_, a, _) => Some(R.TryAcquire(a))
    case DropMinted(w) => Some(R.CloseLease(s.bundles[s.workers[w].bundle].value))
    case DropPending(w) => Some(R.CloseLease(s.bundles[s.workers[w].pending.value].value))
    case CloseHeld(w) => Some(R.CloseLease(s.workers[w].held.value))
    case RetainNext(w, _) => Some(R.Retain(s.workers[w].next))
    case DropLease(w) => Some(R.CloseLease(s.workers[w].lease))
    case CallTool(_, g) => Some(R.Retain(g))
    case EndCall(w) => Some(R.CloseLease(s.workers[w].lease))
    case _ => None
  }

  lemma StepIsRuntimeStep(s: State, step: Step)
    requires Next(s, step).Some?
    ensures var rs := RuntimeStep(s, step);
            if rs.None? then Next(s, step).value.rt == s.rt
            else R.Next(s.rt, rs.value) == Some(Next(s, step).value.rt)
  {
    if IsRequestStep(step) {
      RequestIsRuntimeStep(s, step);
    } else if IsReloadStep(step) {
      ReloadIsRuntimeStep(s, step);
    } else if !step.Env? {
      ClosingIsRuntimeStep(s, step);
    }
  }

  /** `rs` takes the runtime from `rt` to `rt'`, or there is no such step and nothing changes. */
  predicate IsRuntimeStep(rt: R.State, rs: Option<R.Step>, rt': R.State) {
    if rs.None? then rt' == rt else R.Next(rt, rs.value) == Some(rt')
  }

  lemma RequestIsRuntimeStep(s: State, step: Step)
    requires IsRequestStep(step) && NextOfRequest(s, step).Some?
    ensures IsRuntimeStep(s.rt, RuntimeStep(s, step), NextOfRequest(s, step).value.rt)
  {
  }

  lemma ReloadIsRuntimeStep(s: State, step: Step)
    requires IsReloadStep(step) && NextOfReload(s, step).Some?
    ensures IsRuntimeStep(s.rt, RuntimeStep(s, step), NextOfReload(s, step).value.rt)
  {
  }

  lemma ClosingIsRuntimeStep(s: State, step: Step)
    requires !step.Env? && !IsRequestStep(step) && !IsReloadStep(step) && NextOfClosing(s, step).Some?
    ensures IsRuntimeStep(s.rt, RuntimeStep(s, step), NextOfClosing(s, step).value.rt)
  {
  }

  lemma StepKeepsRuntime(s: State, step: Step)
    requires R.Inv(s.rt) && Next(s, step).Some?
    ensures R.Inv(Next(s, step).value.rt)
  {
    StepIsRuntimeStep(s, step);
    if RuntimeStep(s, step).Some? {
      R.StepKeepsInv(s.rt, RuntimeStep(s, step).value);
    }
  }

  /** A reload callback works for a generation that was published. */
  ghost predicate NextsOk(published: seq<R.GenId>, workers: Workers) {
    forall w | w in workers ::
      (workers[w].Notified? || workers[w].Migrating? || workers[w].Holding? || workers[w].Dropping?)
      ==> workers[w].next in published
  }

  /** Only thread `w` moves, and not to a stage of the reload callback. */
  predicate OnlyMoves(workers: Workers, workers': Workers, w: ThreadId) {
    && (forall v | v in workers' && v != w :: v in workers && workers'[v] == workers[v])
    && (w in workers' ==>
          || (w in workers && workers'[w] == workers[w])
          || (!workers'[w].Notified? && !workers'[w].Migrating? && !workers'[w].Holding? && !workers'[w].Dropping?))
  }

  lemma FactoryOnlyMoves(s: State, step: Step)
    requires IsFactoryStep(step) && NextOfRequest(s, step).Some?
    ensures OnlyMoves(s.workers, NextOfRequest(s, step).value.workers, step.thread)
  {
  }

  lemma ServingOnlyMoves(s: State, step: Step)
    requires !IsFactoryStep(step) && NextOfRequest(s, step).Some?
    ensures OnlyMoves(s.workers, NextOfRequest(s, step).value.workers, step.thread)
  {
  }

  lemma RequestKeepsNexts(s: State, step: Step)
    requires NextsOk(s.rt.published, s.workers) && NextOfRequest(s, step).Some?
    ensures NextsOk(s.rt.published, NextOfRequest(s, step).value.workers)
  {
    if IsFactoryStep(step) {
      FactoryOnlyMoves(s, step);
    } else {
      ServingOnlyMoves(s, step);
    }
  }

  lemma ReloadKeepsNexts(s: State, step: Step)
    requires NextsOk(s.rt.published, s.workers) && NextOfReload(s, step).Some?
    ensures NextsOk(s.rt.published, NextOfReload(s, step).value.workers)
  {
  }

  lemma ClosingKeepsNexts(s: State, step: Step)
    requires NextsOk(s.rt.published, s.workers) && NextOfClosing(s, step).Some?
    ensures NextsOk(s.rt.published, NextOfClosing(s, step).value.workers)
  {
  }

  lemma StepKeepsNexts(s: State, step: Step)
    requires NextsOk(s.rt.published, s.workers) && Next(s, step).Some?
    ensures NextsOk(Next(s, step).value.rt.published, Next(s, step).value.workers)
  {
    StepIsRuntimeStep(s, step);
    if RuntimeStep(s, step).Some? {
      R.PublishedGrows(s.rt, RuntimeStep(s, step).value);
    }
    if step.Env? {
    } else if IsRequestStep(step) {
      RequestKeepsNexts(s, step);
    } else if IsReloadStep(step) {
      ReloadKeepsNexts(s, step);
    } else {
      ClosingKeepsNexts(s, step);
    }
  }

  ghost predicate Inv(s: State) {
    && R.Inv(s.rt)
    && LeaseInv(s)
    && HouseInv(s)
    && PhaseInv(s)
    && NextsOk(s.rt.published, s.workers)
  }

  lemma StepKeepsInv(s: State, step: Step)
    requires Inv(s) && Next(s, step).Some?
    ensures Inv(Next(s, step).value)
  {
    StepKeepsRuntime(s, step);
    StepKeepsLeases(s, step);
    StepKeepsHouse(s, step);
    StepKeepsPhase(s, step);
    StepKeepsNexts(s, step);
  }

  lemma {:induction false} RunKeepsInv(s: State, steps: seq<Step>)
    requires Inv(s) && IsRun(s, steps)
    ensures Inv(Exec(s, steps))
    decreases |steps|
  {
    if steps != [] {
      StepKeepsInv(s, steps[0]);
      RunKeepsInv(Next(s, steps[0]).value, steps[1..]);
    }
  }

  lemma ReachableInv(steps: seq<Step>)
    requires IsRun(Init(), steps)
    ensures Inv(Exec(Init(), steps))
  {
    R.InitInv();
    RunKeepsInv(Init(), steps);
  }

  // ---------------------------------------------------------------------------
  // Main results, over every run from the initial state
  // ---------------------------------------------------------------------------

  /** Every variable that holds lease `l`: a bundle's field or a thread's hand. */
  ghost function Holders(s: State, l: R.LeaseId): set<Holder> {
    (set b | b in s.bundles && s.bundles[b] == Some(l) :: OfBundle(b)) +
    (set w | w in s.workers && Held(s.workers[w]) == Some(l) :: OfWorker(w))
  }

  /** A lease of the adapter is closed, or held by exactly one bundle, request or tool call. */
  lemma ExactlyOneHolder(steps: seq<Step>, l: R.LeaseId)
    requires IsRun(Init(), steps)
    requires l in Exec(Init(), steps).mine
    ensures var s := Exec(Init(), steps);
            |Holders(s, l)| == if IsOpen(s, l) then 1 else 0
  {
    ReachableInv(steps);
    OwnerIsOnlyHolder(Exec(Init(), steps), l);
  }

  lemma OwnerIsOnlyHolder(s: State, l: R.LeaseId)
    requires LeaseInv(s) && l in s.mine
    ensures Holders(s, l) == if IsOpen(s, l) then {s.owner[l]} else {}
  {
    if IsOpen(s, l) {
      assert HolderOk(s.bundles, s.workers, l, s.owner[l]);
    }
  }

  /** A stored session or transient always holds an open lease, whatever races with it. */
  lemma StoredBundlesHoldOpenLeases(steps: seq<Step>, b: Bundle)
    requires IsRun(Init(), steps)
    requires b in Exec(Init(), steps).sessions.Values || b in Exec(Init(), steps).transients
    ensures var s := Exec(Init(), steps);
            b in s.bundles && s.bundles[b].Some? && s.bundles[b].value in s.mine
            && IsOpen(s, s.bundles[b].value)
  {
    ReachableInv(steps);
    var s := Exec(Init(), steps);
    assert HomeOk(s.sessions, s.transients, s.workers, s.lost, b, s.home[b], s.bundles[b]);
  }

  ghost function OpenLeases(s: State): set<R.LeaseId> {
    set l | l in s.mine && IsOpen(s, l)
  }

  ghost function LeasesOf(s: State, bundles: set<Bundle>): set<R.LeaseId> {
    set b | b in bundles && b in s.bundles && s.bundles[b].Some? :: s.bundles[b].value
  }

  /**
   After `Close`, once no thread of the adapter is left, the tables are empty and the
   only leases still open are those of bundles that were overwritten: no lease remains if
   and only if no request overwrote the stateful bundle it had pending by a second one.
   */
  lemma ShutdownReleasesEveryLease(steps: seq<Step>)
    requires IsRun(Init(), steps)
    requires !Exec(Init(), steps).phase.Open? && Exec(Init(), steps).workers == map[]
    ensures var s := Exec(Init(), steps);
            && s.sessions == map[] && s.transients == {}
            && OpenLeases(s) == LeasesOf(s, s.lost)
            && (OpenLeases(s) == {} <==> s.lost == {})
  {
    ReachableInv(steps);
    var s := Exec(Init(), steps);
    forall l | l in OpenLeases(s)
      ensures l in LeasesOf(s, s.lost)
    {
      assert HolderOk(s.bundles, s.workers, l, s.owner[l]);
      var b := s.owner[l].bundle;
      assert HomeOk(s.sessions, s.transients, s.workers, s.lost, b, s.home[b], s.bundles[b]);
    }
    forall b | b in s.lost
      ensures b in s.bundles && s.bundles[b].Some? && s.bundles[b].value in OpenLeases(s)
    {
      assert HomeOk(s.sessions, s.transients, s.workers, s.lost, b, s.home[b], s.bundles[b]);
    }
  }

  /** A stateful factory result replaces one that the request has still pending. */
  predicate Overwrites(s: State, step: Step) {
    && step.SetPending? && step.thread in s.workers
    && s.workers[step.thread].Minted? && s.workers[step.thread].pending.Some?
  }

  ghost predicate NeverOverwrites(s: State, steps: seq<Step>)
    requires IsRun(s, steps)
    decreases |steps|
  {
    steps == [] || (!Overwrites(s, steps[0]) && NeverOverwrites(Next(s, steps[0]).value, steps[1..]))
  }

  lemma StepLoses(s: State, step: Step)
    requires Next(s, step).Some?
    ensures Next(s, step).value.lost == {} <==> s.lost == {} && !Overwrites(s, step)
  {
    if IsRequestStep(step) {
      RequestLoses(s, step);
    } else if !step.Env? {
      OtherStepsLoseNothing(s, step);
    }
  }

  lemma RequestLoses(s: State, step: Step)
    requires NextOfRequest(s, step).Some?
    ensures NextOfRequest(s, step).value.lost == {} <==> s.lost == {} && !Overwrites(s, step)
  {
  }

  lemma OtherStepsLoseNothing(s: State, step: Step)
    requires !IsRequestStep(step)
    ensures NextOfReload(s, step).Some? ==> NextOfReload(s, step).value.lost == s.lost
    ensures NextOfClosing(s, step).Some? ==> NextOfClosing(s, step).value.lost == s.lost
  {
  }

  /** Bundles are lost exactly in the runs in which a request overwrites one. */
  lemma {:induction false} LostIffOverwritten(s: State, steps: seq<Step>)
    requires IsRun(s, steps)
    ensures Exec(s, steps).lost == {} <==> s.lost == {} && NeverOverwrites(s, steps)
    decreases |steps|
  {
    if steps != [] {
      StepLoses(s, steps[0]);
      LostIffOverwritten(Next(s, steps[0]).value, steps[1..]);
    }
  }

  lemma {:induction false} ExecAppend(s: State, steps: seq<Step>, step: Step)
    requires IsRun(s, steps) && Next(Exec(s, steps), step).Some?
    ensures IsRun(s, steps + [step]) && Exec(s, steps + [step]) == Next(Exec(s, steps), step).value
    decreases |steps|
  {
    if steps == [] {
      assert steps + [step] == [step];
      assert [step][1..] == [];
    } else {
      ExecAppend(Next(s, steps[0]).value, steps[1..], step);
      assert (steps + [step])[1..] == steps[1..] + [step];
    }
  }

  ghost predicate Reachable(s: State) {
    exists steps :: IsRun(Init(), steps) && Exec(Init(), steps) == s
  }

  lemma ReachableNext(s: State, step: Step)
    requires Reachable(s) && Next(s, step).Some?
    ensures Reachable(Next(s, step).value)
  {
    var steps :| IsRun(Init(), steps) && Exec(Init(), steps) == s;
    ExecAppend(Init(), steps, step);
  }

  /** Only request 0 is there, and `b` bundles and leases have been made so far. */
  ghost predicate OneRequest(s: State, b: nat, pending: Option<Bundle>) {
    && s.workers == map[0 := Serving(pending, None)] && s.phase.Open? && s.sessions == map[] && s.transients == {}
    && s.rt.current == Some(1) && |s.rt.published| > 0 && !s.rt.closed
    && 1 in s.rt.gens && !s.rt.gens[1].retired && s.nextBundle == b && s.rt.nextLease == b
  }

  /** The current generation is loaded on behalf of request 0. */
  lemma LoadOne(s: State, b: nat, pending: Option<Bundle>) returns (t: State)
    requires Reachable(s) && OneRequest(s, b, pending) && s.rt.acquirers == map[]
    ensures Reachable(t) && OneRequest(t, b, pending) && t.rt.acquirers.Keys == {0}
    ensures t.rt.acquirers[0].Loaded? && t.rt.acquirers[0].gen == 1
    ensures t.rt.leases == s.rt.leases && t.mine == s.mine && t.bundles == s.bundles && t.lost == s.lost
  {
    ReachableNext(s, Env(R.StartAcquire(0)));
    t := Next(s, Env(R.StartAcquire(0))).value;
    ReachableNext(t, Env(R.LoadCurrent(0)));
    t := Next(t, Env(R.LoadCurrent(0))).value;
  }

  /** Request 0 runs the factory: its new bundle `b` holds the lease with the same number. */
  lemma MintOne(s: State, b: nat, pending: Option<Bundle>) returns (t: State)
    requires Reachable(s) && OneRequest(s, b, pending) && s.rt.acquirers == map[]
    ensures Reachable(t) && OneRequest(t, b + 1, Some(b)) && t.rt.acquirers == map[]
    ensures t.rt.leases == s.rt.leases[b := R.LeaseRecord(1, false)] && t.mine == s.mine + {b}
    ensures t.bundles == s.bundles[b := Some(b)] && t.lost == s.lost + SetOf(pending)
  {
    t := LoadOne(s, b, pending);
    t := RunFactory(t, b, pending);
    assert NextOfRequest(t, SetPending(0)) == Some(DoSetPending(t, 0));
    ReachableNext(t, SetPending(0));
    t := DoSetPending(t, 0);
  }

  lemma RunFactory(s: State, b: nat, pending: Option<Bundle>) returns (t: State)
    requires Reachable(s) && OneRequest(s, b, pending) && s.rt.acquirers.Keys == {0}
    requires s.rt.acquirers[0].Loaded? && s.rt.acquirers[0].gen == 1
    ensures Reachable(t) && t.workers == map[0 := Minted(b, false, pending, None)]
    ensures t == s.(rt := t.rt, mine := s.mine + {b}, owner := t.owner, bundles := s.bundles[b := Some(b)],
                    home := t.home, nextBundle := b + 1, workers := t.workers)
    ensures t.rt == R.Mint(s.rt.(acquirers := map[]), 1)
  {
    assert s.rt.acquirers - {0} == map[];
    assert NextOfRequest(s, FactoryAcquire(0, 0, false)) == Some(DoFactoryAcquire(s, 0, 0, false));
    ReachableNext(s, FactoryAcquire(0, 0, false));
    t := DoFactoryAcquire(s, 0, 0, false);
  }

  lemma DropOne(s: State) returns (t: State)
    requires Reachable(s) && OneRequest(s, 2, Some(1)) && 1 in s.bundles && s.bundles[1] == Some(1)
    requires s.rt.leases == map[0 := R.LeaseRecord(1, false), 1 := R.LeaseRecord(1, false)]
    ensures Reachable(t) && t.workers == map[0 := Finishing(None, None)]
    ensures t.phase.Open? && t.sessions == map[] && t.transients == {}
    ensures t.lost == s.lost && t.mine == s.mine && IsOpen(t, 0)
  {
    ReachableNext(s, EndStream(0));
    t := Next(s, EndStream(0)).value;
    ReachableNext(t, DropPending(0));
    t := Next(t, DropPending(0)).value;
  }

  lemma EndRequest(s: State) returns (t: State)
    requires Reachable(s) && s.workers == map[0 := Finishing(None, None)]
    ensures Reachable(t) && t == s.(workers := map[])
  {
    assert NextOfRequest(s, FinishRequest(0)) == Some(End(s, 0));
    ReachableNext(s, FinishRequest(0));
    t := End(s, 0);
  }

  lemma StartShutDown(s: State) returns (t: State)
    requires Reachable(s) && s.workers == map[] && s.phase.Open?
    ensures Reachable(t) && t == Put(s, 1, Shutting).(phase := Grabbing(1))
  {
    assert NextOfClosing(s, BeginClose(1)) == Some(Put(s, 1, Shutting).(phase := Grabbing(1)));
    ReachableNext(s, BeginClose(1));
    t := Put(s, 1, Shutting).(phase := Grabbing(1));
  }

  lemma GrabNothing(s: State) returns (t: State)
    requires Reachable(s) && s.workers == map[1 := Shutting] && s.sessions == map[] && s.transients == {}
    ensures Reachable(t) && !t.phase.Open? && t.workers == map[1 := Closing({}, None)]
    ensures t.lost == s.lost && t.mine == s.mine && t.rt == s.rt
  {
    assert s.sessions.Values + s.transients == {};
    ReachableNext(s, Grab(1));
    t := DoGrab(s, 1);
  }

  lemma EndShutDown(s: State) returns (t: State)
    requires Reachable(s) && s.workers == map[1 := Closing({}, None)]
    ensures Reachable(t) && t == s.(workers := map[])
  {
    assert NextOfClosing(s, EndClosing(1)) == Some(End(s, 1));
    ReachableNext(s, EndClosing(1));
    t := End(s, 1);
  }

  /** When the factory runs twice for a stateful request, its first lease stays open after shutdown. */
  lemma OverwrittenLeaseOutlivesShutdown() returns (s: State)
    ensures Reachable(s) && !s.phase.Open? && s.workers == map[]
    ensures s.lost == {0} && 0 in s.mine && IsOpen(s, 0)
  {
    assert IsRun(Init(), []) && Exec(Init(), []) == Init();
    ReachableNext(Init(), Arrive(0));
    s := Next(Init(), Arrive(0)).value;
    s := MintOne(s, 0, None);
    s := MintOne(s, 1, Some(0));
    s := DropOne(s);
    s := EndRequest(s);
    s := StartShutDown(s);
    s := GrabNothing(s);
    s := EndShutDown(s);
  }

  /** The SDK calls the server factory at most once while it serves a request. */
  ghost predicate FactoryOncePerRequest(s: State, steps: seq<Step>)
    requires IsRun(s, steps)
    decreases |steps|
  {
    steps == []
    || (&& (steps[0].FactoryAcquire? ==> s.workers[steps[0].thread] == Serving(None, None))
        && FactoryOncePerRequest(Next(s, steps[0]).value, steps[1..]))
  }

  ghost predicate NoOverwrite(s: State) {
    s.lost == {} && forall w | w in s.workers && s.workers[w].Minted? :: s.workers[w].pending.None?
  }

  lemma RequestKeepsNoOverwrite(s: State, step: Step)
    requires NoOverwrite(s) && NextOfRequest(s, step).Some?
    requires step.FactoryAcquire? ==> s.workers[step.thread] == Serving(None, None)
    ensures NoOverwrite(NextOfRequest(s, step).value)
  {
  }

  lemma OtherKeepsNoOverwrite(s: State, step: Step)
    requires NoOverwrite(s) && (NextOfReload(s, step).Some? || NextOfClosing(s, step).Some?)
    ensures NextOfReload(s, step).Some? ==> NoOverwrite(NextOfReload(s, step).value)
    ensures NextOfClosing(s, step).Some? ==> NoOverwrite(NextOfClosing(s, step).value)
  {
  }

  lemma {:induction false} OnceMeansNoOverwrite(s: State, steps: seq<Step>)
    requires NoOverwrite(s) && IsRun(s, steps) && FactoryOncePerRequest(s, steps)
    ensures NoOverwrite(Exec(s, steps))
    decreases |steps|
  {
    if steps != [] {
      if IsRequestStep(steps[0]) {
        RequestKeepsNoOverwrite(s, steps[0]);
      } else if !steps[0].Env? {
        OtherKeepsNoOverwrite(s, steps[0]);
      }
      OnceMeansNoOverwrite(Next(s, steps[0]).value, steps[1..]);
    }
  }

  /**
   With a factory called once per request, shutdown leaves every generation to its
   other clients: the reference counts count none of the adapter's leases, and a retired
   generation nobody else uses has drained, so its close needs no timeout.
   */
  lemma ShutdownLetsGenerationsDrain(steps: seq<Step>, g: R.GenId)
    requires IsRun(Init(), steps) && FactoryOncePerRequest(Init(), steps)
    requires !Exec(Init(), steps).phase.Open? && Exec(Init(), steps).workers == map[]
    requires g in Exec(Init(), steps).rt.gens
    ensures var rt := Exec(Init(), steps).rt;
            && R.Live(rt, g) !! Exec(Init(), steps).mine
            && rt.gens[g].active == |R.Live(rt, g)|
            && (rt.gens[g].retired && R.Live(rt, g) <= Exec(Init(), steps).mine ==> rt.gens[g].drained == 1)
  {
    ReachableInv(steps);
    ShutdownReleasesEveryLease(steps);
    OnceMeansNoOverwrite(Init(), steps);
    var s := Exec(Init(), steps);
    assert R.LifeOk(s.rt, g);
    forall l | l in R.Live(s.rt, g)
      ensures l !in s.mine
    {
      assert l in s.mine ==> l in OpenLeases(s);
    }
    if R.Live(s.rt, g) <= s.mine {
      assert R.Live(s.rt, g) == {};
    }
  }

  /** What thread `w` can do next. */
  ghost function Continue(s: State, w: ThreadId): Step
    requires w in s.workers
  {
    match s.workers[w]
    case Serving(_, _) => EndStream(w)
    case Minted(_, stateless, _, _) =>
      if !stateless then SetPending(w) else if s.phase.Open? then StoreTransient(w) else DropMinted(w)
    case Parked(_, _, _) => SetTransient(w)
    case Finishing(pending, _) => if pending.Some? then DropPending(w) else FinishRequest(w)
    case Closing(todo, held) =>
      if held.Some? then CloseHeld(w)
      else if todo == {} then EndClosing(w)
      else (var b :| b in todo; Take(w, b))
    case Notified(_) => Snapshot(w)
    case Migrating(_, todo) => if todo == {} then EndMigration(w) else (var b :| b in todo; RetainNext(w, b))
    case Holding(_, _, _, _) => Migrate(w)
    case Dropping(_, _, _) => DropLease(w)
    case Calling(_) => EndCall(w)
    case Shutting => Grab(w)
  }

  /** No guard of the machine ever blocks a thread for good: each can always go on. */
  lemma NoThreadIsStuck(steps: seq<Step>, w: ThreadId)
    requires IsRun(Init(), steps)
    requires w in Exec(Init(), steps).workers
    ensures Next(Exec(Init(), steps), Continue(Exec(Init(), steps), w)).Some?
  {
    ReachableInv(steps);
    ContinueIsPossible(Exec(Init(), steps), w);
  }

  lemma BundleLeaseCanClose(s: State, b: Bundle)
    requires Inv(s) && b in s.home && s.home[b].Mine?
    ensures LeaseOfBundle(s, b)
  {
    assert HomeOk(s.sessions, s.transients, s.workers, s.lost, b, s.home[b], s.bundles[b]);
  }

  lemma RequestContinues(s: State, w: ThreadId)
    requires w in s.workers && (s.workers[w].Minted? || s.workers[w].Finishing?)
    requires forall b | b in Private(s.workers[w]) :: LeaseOfBundle(s, b)
    ensures NextOfRequest(s, Continue(s, w)).Some? && IsRequestStep(Continue(s, w))
  {
  }

  lemma ReloadContinues(s: State, w: ThreadId)
    requires w in s.workers && (s.workers[w].Migrating? || s.workers[w].Holding? || s.workers[w].Dropping?)
    requires CanRetain(s, s.workers[w].next)
    requires Visiting(s.workers[w]) <= s.bundles.Keys
    requires Held(s.workers[w]).Some? ==> CanClose(s, Held(s.workers[w]).value)
    ensures NextOfReload(s, Continue(s, w)).Some? && IsReloadStep(Continue(s, w))
  {
  }

  lemma ClosingContinues(s: State, w: ThreadId)
    requires w in s.workers && (s.workers[w].Closing? || s.workers[w].Calling?)
    requires Doomed(s.workers[w]) <= s.bundles.Keys
    requires Held(s.workers[w]).Some? ==> CanClose(s, Held(s.workers[w]).value)
    ensures NextOfClosing(s, Continue(s, w)).Some?
    ensures !Continue(s, w).Env? && !IsRequestStep(Continue(s, w)) && !IsReloadStep(Continue(s, w))
  {
  }

  lemma ReachableThings(s: State, w: ThreadId)
    requires Inv(s) && w in s.workers
    ensures Visiting(s.workers[w]) <= s.bundles.Keys && Doomed(s.workers[w]) <= s.bundles.Keys
    ensures forall b | b in Private(s.workers[w]) :: LeaseOfBundle(s, b)
    ensures Held(s.workers[w]).Some? ==> CanClose(s, Held(s.workers[w]).value)
  {
    assert RefersOk(s.home, w, s.workers[w]);
    forall b | b in Private(s.workers[w])
      ensures LeaseOfBundle(s, b)
    {
      BundleLeaseCanClose(s, b);
    }
  }

  lemma EasyContinues(s: State, w: ThreadId)
    requires w in s.workers
    requires s.workers[w].Serving? || s.workers[w].Parked? || s.workers[w].Notified? || s.workers[w].Shutting?
    ensures Next(s, Continue(s, w)).Some?
  {
  }

  lemma ContinueIsPossible(s: State, w: ThreadId)
    requires Inv(s) && w in s.workers
    ensures Next(s, Continue(s, w)).Some?
  {
    ReachableThings(s, w);
    var x := s.workers[w];
    if x.Serving? || x.Parked? || x.Notified? || x.Shutting? {
      EasyContinues(s, w);
    } else if x.Minted? || x.Finishing? {
      RequestContinues(s, w);
    } else if x.Migrating? || x.Holding? || x.Dropping? {
      ReloadContinues(s, w);
    } else if x.Closing? || x.Calling? {
      ClosingContinues(s, w);
    }
  }
}
