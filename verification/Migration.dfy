/**
 What a reload does for the sessions of the MCP adapter: its callback visits every bundle that
 was stored at its snapshot and moves the open ones to the new generation.
 */
module Migrations {
  import opened Options
  import opened Mcp
  import R = Runtime

  predicate Follows(s: State, step: Step, t: State) {
    Next(s, step) == Some(t)
  }

  ghost predicate IsTrace(run: seq<State>, steps: seq<Step>) {
    && |run| == |steps| + 1
    && run[0] == Init()
    && forall k | 0 <= k < |steps| :: Follows(run[k], steps[k], run[k + 1])
  }

  lemma TraceStep(run: seq<State>, steps: seq<Step>, k: nat)
    requires IsTrace(run, steps) && k < |steps|
    ensures Next(run[k], steps[k]) == Some(run[k + 1])
  {
    assert Follows(run[k], steps[k], run[k + 1]);
  }

  lemma InitialInv()
    ensures Inv(Init())
  {
    ReachableInv([]);
  }

  lemma {:induction false} TraceInv(run: seq<State>, steps: seq<Step>, k: nat)
    requires IsTrace(run, steps) && k < |run|
    ensures Inv(run[k])
  {
    if k == 0 {
      InitialInv();
    } else {
      TraceInv(run, steps, k - 1);
      assert Follows(run[k - 1], steps[k - 1], run[k - 1 + 1]);
      NextKeepsInv(run[k - 1], steps[k - 1], run[k]);
    }
  }

  lemma NextKeepsInv(s: State, step: Step, t: State)
    requires Inv(s) && Follows(s, step, t)
    ensures Inv(t)
  {
    StepKeepsInv(s, step);
  }

  lemma TraceRuntimeInv(run: seq<State>, steps: seq<Step>, k: nat)
    requires IsTrace(run, steps) && k < |run|
    ensures R.LivesOk(run[k].rt)
  {
    TraceInv(run, steps, k);
  }

  lemma TraceLeaseInv(run: seq<State>, steps: seq<Step>, k: nat)
    requires IsTrace(run, steps) && k < |run|
    ensures LeaseInv(run[k])
  {
    TraceInv(run, steps, k);
  }

  // ---------------------------------------------------------------------------
  // Threads and leases between the steps of one thread
  // ---------------------------------------------------------------------------

  predicate By(step: Step, w: ThreadId) {
    !step.Env? && step.thread == w
  }

  lemma RequestLeavesOthers(s: State, step: Step, w: ThreadId)
    requires NextOfRequest(s, step).Some? && !By(step, w) && w in s.workers
    ensures var t := NextOfRequest(s, step).value; w in t.workers && t.workers[w] == s.workers[w]
  {
  }

  lemma ReloadLeavesOthers(s: State, step: Step, w: ThreadId)
    requires NextOfReload(s, step).Some? && !By(step, w) && w in s.workers
    ensures var t := NextOfReload(s, step).value; w in t.workers && t.workers[w] == s.workers[w]
  {
  }

  lemma ClosingLeavesOthers(s: State, step: Step, w: ThreadId)
    requires NextOfClosing(s, step).Some? && !By(step, w) && w in s.workers
    ensures var t := NextOfClosing(s, step).value; w in t.workers && t.workers[w] == s.workers[w]
  {
  }

  lemma OthersLeaveWorker(s: State, step: Step, w: ThreadId)
    requires Next(s, step).Some? && !By(step, w) && w in s.workers
    ensures var t := Next(s, step).value; w in t.workers && t.workers[w] == s.workers[w]
  {
    if IsRequestStep(step) {
      RequestLeavesOthers(s, step, w);
    } else if IsReloadStep(step) {
      ReloadLeavesOthers(s, step, w);
    } else if !step.Env? {
      ClosingLeavesOthers(s, step, w);
    }
  }

  /** The first step of `w` from `i` on; until then it stays where it is. */
  lemma {:induction false} FirstMove(run: seq<State>, steps: seq<Step>, i: nat, j: nat, w: ThreadId) returns (r: nat)
    requires IsTrace(run, steps) && i <= j < |steps| && w in run[i].workers && By(steps[j], w)
    ensures i <= r <= j && By(steps[r], w) && w in run[r].workers && run[r].workers[w] == run[i].workers[w]
    decreases j - i
  {
    if By(steps[i], w) {
      r := i;
    } else {
      TraceStep(run, steps, i);
      OthersLeaveWorker(run[i], steps[i], w);
      r := FirstMove(run, steps, i + 1, j, w);
    }
  }

  /** Lease `l` is on generation `g`, and closed if `closed`. */
  predicate IsOn(s: State, l: R.LeaseId, g: R.GenId, closed: bool) {
    l in s.rt.leases && s.rt.leases[l].gen == g && (closed ==> s.rt.leases[l].closed)
  }

  lemma LeaseStays(s: State, step: Step, t: State, l: R.LeaseId, g: R.GenId, closed: bool)
    requires R.LivesOk(s.rt) && Follows(s, step, t) && IsOn(s, l, g, closed)
    ensures IsOn(t, l, g, closed)
  {
    StepIsRuntimeStep(s, step);
    if RuntimeStep(s, step).Some? {
      R.LeaseEffects(s.rt, RuntimeStep(s, step).value);
    }
  }

  lemma LeaseStaysOnce(run: seq<State>, steps: seq<Step>, k: nat, l: R.LeaseId, g: R.GenId, closed: bool)
    requires IsTrace(run, steps) && k < |steps| && IsOn(run[k], l, g, closed)
    ensures IsOn(run[k + 1], l, g, closed)
  {
    var s, step, t := run[k], steps[k], run[k + 1];
    assert Follows(s, step, t);
    TraceRuntimeInv(run, steps, k);
    LeaseStays(s, step, t, l, g, closed);
  }

  predicate KeepsLease(s: State, t: State, l: R.LeaseId, g: R.GenId, closed: bool) {
    IsOn(s, l, g, closed) ==> IsOn(t, l, g, closed)
  }

  lemma {:induction false} KeptOverRun(run: seq<State>, i: nat, j: nat, l: R.LeaseId, g: R.GenId, closed: bool)
    requires i <= j < |run| && IsOn(run[i], l, g, closed)
    requires forall k | i <= k < j :: KeepsLease(run[k], run[k + 1], l, g, closed)
    ensures IsOn(run[j], l, g, closed)
    decreases j
  {
    if i < j {
      KeptOverRun(run, i, j - 1, l, g, closed);
      assert KeepsLease(run[j - 1], run[j - 1 + 1], l, g, closed);
    }
  }

  lemma LeaseStaysOverRun(
      run: seq<State>, steps: seq<Step>, i: nat, j: nat, l: R.LeaseId, g: R.GenId, closed: bool)
    requires IsTrace(run, steps) && i <= j < |run| && IsOn(run[i], l, g, closed)
    ensures IsOn(run[j], l, g, closed)
  {
    forall k | i <= k < j
      ensures KeepsLease(run[k], run[k + 1], l, g, closed)
    {
      if IsOn(run[k], l, g, closed) {
        LeaseStaysOnce(run, steps, k, l, g, closed);
      }
    }
    KeptOverRun(run, i, j, l, g, closed);
  }

  // ---------------------------------------------------------------------------
  // The steps of a callback
  // ---------------------------------------------------------------------------

  /** The thread is past the snapshot of its callback for generation `n`. */
  predicate InCallback(x: Worker, n: R.GenId) {
    (x.Migrating? || x.Holding? || x.Dropping?) && x.next == n
  }

  /** A snapshot takes every session and every transient that is stored, and nothing else. */
  lemma SnapshotTakesAll(s: State, w: ThreadId, n: R.GenId)
    requires w in s.workers && s.workers[w] == Notified(n)
    ensures Next(s, Snapshot(w)).Some?
    ensures var x := Next(s, Snapshot(w)).value.workers[w];
            && x.Migrating? && x.next == n
            && forall b :: b in x.todo <==>
                 b in s.transients || exists sid :: sid in s.sessions && s.sessions[sid] == b
  {
  }

  lemma CallbackStepKind(s: State, step: Step, w: ThreadId, n: R.GenId)
    requires w in s.workers && InCallback(s.workers[w], n) && By(step, w) && Next(s, step).Some?
    ensures match s.workers[w]
            case Migrating(_, todo) =>
              (step == EndMigration(w) && todo == {}) || (step.RetainNext? && step.bundle in todo)
            case Holding(_, _, _, _) => step == Migrate(w)
            case Dropping(_, _, _) => step == DropLease(w)
  {
  }

  lemma CallbackStep(s: State, step: Step, w: ThreadId, n: R.GenId)
    requires w in s.workers && InCallback(s.workers[w], n) && By(step, w) && Next(s, step).Some?
    ensures var x, t := s.workers[w], Next(s, step).value;
            match x
            case Migrating(_, todo) =>
              || (step == EndMigration(w) && todo == {})
              || (step.RetainNext? && step.bundle in todo && w in t.workers && InCallback(t.workers[w], n)
                  && t.workers[w].todo == todo - {step.bundle})
            case Holding(_, todo, _, _) =>
              step == Migrate(w) && w in t.workers && t.workers[w].Dropping? && InCallback(t.workers[w], n)
              && t.workers[w].todo == todo
            case Dropping(_, todo, _) => step == DropLease(w) && w in t.workers && t.workers[w] == Migrating(n, todo)
  {
    CallbackStepKind(s, step, w, n);
  }

  /** Between states `p` and `m`, the callback of `w` came to bundle `b`. */
  ghost predicate Visited(steps: seq<Step>, p: nat, m: nat, w: ThreadId, b: Bundle)
    requires m <= |steps|
  {
    exists q :: p < q < m && steps[q] == RetainNext(w, b)
  }

  /** The callback of `w` is past its snapshot and still has to come to bundle `b`. */
  predicate Awaits(s: State, w: ThreadId, n: R.GenId, b: Bundle) {
    w in s.workers && InCallback(s.workers[w], n) && b in s.workers[w].todo
  }

  lemma SnapshotAwaitsAll(run: seq<State>, steps: seq<Step>, k: nat, w: ThreadId, n: R.GenId, b: Bundle)
    requires IsTrace(run, steps) && k < |steps| && steps[k] == Snapshot(w)
    requires w in run[k].workers && run[k].workers[w] == Notified(n)
    requires b in run[k].sessions.Values || b in run[k].transients
    ensures Awaits(run[k + 1], w, n, b)
  {
    TraceStep(run, steps, k);
    SnapshotTakesAll(run[k], w, n);
  }

  /** A step that does not end the callback of `w` loses a bundle of its list only by visiting it. */
  lemma CallbackGoesOn(run: seq<State>, steps: seq<Step>, k: nat, w: ThreadId, n: R.GenId, b: Bundle)
    requires IsTrace(run, steps) && k < |steps| && steps[k] != EndMigration(w)
    requires w in run[k].workers && InCallback(run[k].workers[w], n)
    ensures w in run[k + 1].workers && InCallback(run[k + 1].workers[w], n)
    ensures Awaits(run[k], w, n, b) ==> Awaits(run[k + 1], w, n, b) || steps[k] == RetainNext(w, b)
  {
    TraceStep(run, steps, k);
    if By(steps[k], w) {
      CallbackStep(run[k], steps[k], w, n);
    } else {
      OthersLeaveWorker(run[k], steps[k], w);
    }
  }

  lemma {:induction false} TodoOrVisited(
      run: seq<State>, steps: seq<Step>, p: nat, m: nat, w: ThreadId, n: R.GenId, b: Bundle)
    requires IsTrace(run, steps) && p < m <= |steps| && steps[p] == Snapshot(w)
    requires w in run[p].workers && run[p].workers[w] == Notified(n)
    requires b in run[p].sessions.Values || b in run[p].transients
    requires forall k | p < k < m :: steps[k] != EndMigration(w)
    ensures w in run[m].workers && InCallback(run[m].workers[w], n)
    ensures Awaits(run[m], w, n, b) || Visited(steps, p, m, w, b)
    decreases m
  {
    if m == p + 1 {
      SnapshotAwaitsAll(run, steps, p, w, n, b);
    } else {
      TodoOrVisited(run, steps, p, m - 1, w, n, b);
      CallbackGoesOn(run, steps, m - 1, w, n, b);
    }
  }

  /** A callback that ends has come to every bundle that was stored at its snapshot. */
  lemma CallbackVisitsEveryBundle(run: seq<State>, steps: seq<Step>, p: nat, e: nat, w: ThreadId, n: R.GenId, b: Bundle)
    returns (q: nat)
    requires IsTrace(run, steps) && p < e < |steps| && steps[p] == Snapshot(w) && steps[e] == EndMigration(w)
    requires w in run[p].workers && run[p].workers[w] == Notified(n)
    requires b in run[p].sessions.Values || b in run[p].transients
    requires forall k | p < k < e :: steps[k] != EndMigration(w)
    ensures p < q < e && steps[q] == RetainNext(w, b)
    ensures w in run[q].workers && run[q].workers[w].Migrating? && run[q].workers[w].next == n
  {
    TodoOrVisited(run, steps, p, e, w, n, b);
    TraceStep(run, steps, e);
    CallbackStep(run[e], steps[e], w, n);
    q :| p < q < e && steps[q] == RetainNext(w, b);
    TodoOrVisited(run, steps, p, q, w, n, b);
    TraceStep(run, steps, q);
    CallbackStep(run[q], steps[q], w, n);
  }

  /** Visiting a bundle takes a new lease on the new generation, unless that is retired already. */
  lemma VisitTakesLease(s: State, w: ThreadId, n: R.GenId, b: Bundle)
    requires w in s.workers && s.workers[w].Migrating? && s.workers[w].next == n && Next(s, RetainNext(w, b)).Some?
    ensures n in s.rt.gens
    ensures var t := Next(s, RetainNext(w, b)).value;
            && w in t.workers
            && (s.rt.gens[n].retired ==> t.workers[w] == Migrating(n, s.workers[w].todo - {b}) && t.rt == s.rt)
            && (!s.rt.gens[n].retired ==>
                  && t.workers[w] == Holding(n, s.workers[w].todo - {b}, b, s.rt.nextLease)
                  && IsOn(t, s.rt.nextLease, n, false))
  {
  }

  /** The swap itself: an open bundle gets the new lease and its old one is left to be closed. */
  lemma SwapMovesBundle(s: State, w: ThreadId)
    requires w in s.workers && s.workers[w].Holding? && Next(s, Migrate(w)).Some?
    ensures var x, t := s.workers[w], Next(s, Migrate(w)).value;
            && t.rt == s.rt && x.bundle in s.bundles && x.bundle in t.bundles && w in t.workers
            && (forall b | b in s.bundles && b != x.bundle :: b in t.bundles && t.bundles[b] == s.bundles[b])
            && if s.phase.Open? && s.bundles[x.bundle].Some? then
                 && t.bundles[x.bundle] == Some(x.lease)
                 && t.workers[w] == Dropping(x.next, x.todo, s.bundles[x.bundle].value)
               else t.bundles == s.bundles && t.workers[w] == Dropping(x.next, x.todo, x.lease)
  {
  }

  lemma DropCloses(s: State, w: ThreadId)
    requires w in s.workers && s.workers[w].Dropping? && Next(s, DropLease(w)).Some?
    ensures var l, t := s.workers[w].lease, Next(s, DropLease(w)).value;
            l in t.rt.leases && t.rt.leases[l].closed && t.bundles == s.bundles
  {
  }

  /** A lease in the hands of a thread is open. */
  lemma HeldIsOpen(s: State, w: ThreadId)
    requires LeaseInv(s) && w in s.workers && Held(s.workers[w]).Some?
    ensures IsOpen(s, Held(s.workers[w]).value)
  {
  }

  /**
   Over every run: when a callback for generation `n` visits bundle `b` at step `q`, with `n` not
   retired, and ends later, it comes to swap at some step `r`, and then to close a lease at some
   step `u`.  If at `r` the handler is open and `b` is not closed, then `b` holds an open lease on
   `n` afterwards, and the lease it held before is closed from `u` on.  Otherwise `b` is left alone
   and the new lease is closed.
   */
  lemma VisitedBundleIsMigrated(run: seq<State>, steps: seq<Step>, q: nat, e: nat, w: ThreadId, n: R.GenId, b: Bundle)
    returns (r: nat, u: nat)
    requires IsTrace(run, steps) && q < e < |steps| && steps[q] == RetainNext(w, b) && steps[e] == EndMigration(w)
    requires w in run[q].workers && run[q].workers[w].Migrating? && run[q].workers[w].next == n
    requires n in run[q].rt.gens && !run[q].rt.gens[n].retired
    ensures q < r < u < e && steps[r] == Migrate(w) && steps[u] == DropLease(w)
    ensures b in run[r].bundles && b in run[r + 1].bundles
    ensures var migrated := run[r].phase.Open? && run[r].bundles[b].Some?;
            var dropped := if migrated then run[r].bundles[b].value else run[q].rt.nextLease;
            && (migrated ==>
                  && run[r + 1].bundles[b].Some? && IsOpen(run[r + 1], run[r + 1].bundles[b].value)
                  && IsOn(run[r + 1], run[r + 1].bundles[b].value, n, false))
            && (!migrated ==> run[r + 1].bundles[b] == run[r].bundles[b])
            && forall m | u < m < |run| :: dropped in run[m].rt.leases && run[m].rt.leases[dropped].closed
  {
    r := SwapComes(run, steps, q, e, w, n, b);
    TraceStep(run, steps, r);
    var dropped := SwapEffect(run[r], run[r + 1], w, n, b, run[q].rt.nextLease);
    u := DropComes(run, steps, r + 1, e, w, n, dropped);
  }

  /** After a visit, the next step of the callback is the swap, with an open lease on `n` in hand. */
  lemma SwapComes(run: seq<State>, steps: seq<Step>, q: nat, e: nat, w: ThreadId, n: R.GenId, b: Bundle)
    returns (r: nat)
    requires IsTrace(run, steps) && q < e < |steps| && steps[q] == RetainNext(w, b) && steps[e] == EndMigration(w)
    requires w in run[q].workers && run[q].workers[w].Migrating? && run[q].workers[w].next == n
    requires n in run[q].rt.gens && !run[q].rt.gens[n].retired
    ensures q < r < e && steps[r] == Migrate(w)
    ensures HoldsNew(run[r], w, n, b, run[q].rt.nextLease)
  {
    TraceStep(run, steps, q);
    VisitTakesLease(run[q], w, n, b);
    var l := run[q].rt.nextLease;
    r := FirstMove(run, steps, q + 1, e, w);
    TraceStep(run, steps, r);
    CallbackStep(run[r], steps[r], w, n);
    LeaseStaysOverRun(run, steps, q + 1, r, l, n, false);
    TraceLeaseInv(run, steps, r);
    HeldIsOpen(run[r], w);
  }

  /** Thread `w` is about to swap bundle `b`, with the open lease `l` on `n` in hand. */
  ghost predicate HoldsNew(s: State, w: ThreadId, n: R.GenId, b: Bundle, l: R.LeaseId) {
    && w in s.workers && s.workers[w].Holding? && s.workers[w].next == n && s.workers[w].bundle == b
    && s.workers[w].lease == l && IsOn(s, l, n, false) && IsOpen(s, l)
  }

  lemma SwapEffect(s: State, t: State, w: ThreadId, n: R.GenId, b: Bundle, l: R.LeaseId) returns (dropped: R.LeaseId)
    requires HoldsNew(s, w, n, b, l) && Next(s, Migrate(w)) == Some(t)
    ensures b in s.bundles && b in t.bundles
    ensures w in t.workers && t.workers[w] == Dropping(n, s.workers[w].todo, dropped)
    ensures if s.phase.Open? && s.bundles[b].Some? then
              && t.bundles[b] == Some(l) && IsOpen(t, l) && IsOn(t, l, n, false) && dropped == s.bundles[b].value
            else t.bundles[b] == s.bundles[b] && dropped == l
  {
    SwapMovesBundle(s, w);
    dropped := t.workers[w].lease;
  }

  /** The lease left after the swap is closed by the next step of the callback, for good. */
  lemma DropComes(run: seq<State>, steps: seq<Step>, i: nat, e: nat, w: ThreadId, n: R.GenId, l: R.LeaseId)
    returns (u: nat)
    requires IsTrace(run, steps) && i <= e < |steps| && steps[e] == EndMigration(w)
    requires w in run[i].workers && run[i].workers[w].Dropping? && run[i].workers[w].next == n
    requires run[i].workers[w].lease == l
    ensures i <= u < e && steps[u] == DropLease(w)
    ensures forall m | u < m < |run| :: l in run[m].rt.leases && run[m].rt.leases[l].closed
  {
    u := FirstMove(run, steps, i, e, w);
    TraceStep(run, steps, u);
    CallbackStep(run[u], steps[u], w, n);
    DropCloses(run[u], w);
    var g := run[u + 1].rt.leases[l].gen;
    forall m | u < m < |run|
      ensures l in run[m].rt.leases && run[m].rt.leases[l].closed
    {
      LeaseStaysOverRun(run, steps, u + 1, m, l, g, true);
    }
  }
}
