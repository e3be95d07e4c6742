/**
 Generations are not leaked: whatever was published is current, on its way to being closed,
 or closed.
 */
module Drains {
  import opened Options
  import opened Generations
  import opened Runtime

  /** Published generation `g` is current, about to be handed to a drain, being drained, or closed. */
  ghost predicate Accounted(s: State, g: GenId) {
    || s.current == Some(g)
    || (s.reload.Stored? && s.reload.previous == Some(g))
    || (exists w :: w in s.waiters && s.waiters[w].gen == g)
    || (g in s.gens && s.gens[g].closeRuns == 1)
  }

  ghost predicate AllAccounted(s: State) {
    forall g | g in s.published :: Accounted(s, g)
  }

  ghost predicate ClosedAreRetired(s: State) {
    forall g | g in s.gens && s.gens[g].closeOnce :: s.gens[g].retired
  }

  lemma KeepAccounted(s: State, t: State)
    requires AllAccounted(s) && KeepsAccounts(s, t)
    ensures AllAccounted(t)
  {
    forall g | g in t.published
      ensures Accounted(t, g)
    {
      assert Accounted(s, g);
      if w :| w in s.waiters && s.waiters[w].gen == g {
        assert w in t.waiters && t.waiters[w].gen == g;
      }
    }
  }

  lemma PublishKeepsAccounted(s: State)
    requires AllAccounted(s) && s.reload.Built?
    requires s.current == s.reload.previous || s.current.None?
    ensures AllAccounted(DoReloadPublish(s))
  {
    var t := DoReloadPublish(s);
    forall g | g in t.published
      ensures Accounted(t, g)
    {
      if g != s.reload.next {
        assert g in s.published && Accounted(s, g);
      }
    }
  }

  /** A generation gets a waiter of its own when it stops being current, or is handed on by a reload. */
  lemma WaiterTakesOver(s: State, t: State, g: Option<GenId>)
    requires AllAccounted(s) && t.published == s.published && t.gens == s.gens && s.nextWaiter !in s.waiters
    requires t.waiters == AddWaiter(s, g).waiters
    requires s.current == t.current || (s.current == g && t.current.None?)
    requires t.reload == s.reload || (s.reload.Stored? && s.reload.previous == g && t.reload.Idle?)
    ensures AllAccounted(t)
  {
    forall h | h in t.published
      ensures Accounted(t, h)
    {
      assert Accounted(s, h);
      if g == Some(h) {
        assert s.nextWaiter in t.waiters && t.waiters[s.nextWaiter].gen == h;
      } else if w :| w in s.waiters && s.waiters[w].gen == h {
        assert w in t.waiters && t.waiters[w].gen == h;
      }
    }
  }

  lemma WaiterCloseKeepsAccounted(s: State, v: nat)
    requires AllAccounted(s) && v in s.waiters && s.waiters[v].gen in s.gens
    requires forall g | g in s.gens :: s.gens[g].closeRuns == if s.gens[g].closeOnce then 1 else 0
    requires s.waiters[v].stage.Closing?
    ensures AllAccounted(DoWaiterClose(s, v))
  {
    var t := DoWaiterClose(s, v);
    forall g | g in t.published
      ensures Accounted(t, g)
    {
      assert Accounted(s, g);
      if g != s.waiters[v].gen {
        if w :| w in s.waiters && s.waiters[w].gen == g {
          assert w in t.waiters && t.waiters[w].gen == g;
        }
      }
    }
  }

  /** What most steps do to generations: close none, un-retire none, and build only fresh ones. */
  ghost predicate GensKept(s: State, t: State) {
    && (forall g | g in s.gens ::
          && g in t.gens && t.gens[g].closeRuns == s.gens[g].closeRuns && t.gens[g].closeOnce == s.gens[g].closeOnce
          && (s.gens[g].retired ==> t.gens[g].retired))
    && (forall g | g in t.gens && g !in s.gens :: t.gens[g] == FRESH)
  }

  ghost predicate WaitersKept(s: State, t: State) {
    forall w | w in s.waiters :: w in t.waiters && t.waiters[w].gen == s.waiters[w].gen
  }

  /** Nothing that accounts for a generation gets lost between `s` and `t`. */
  ghost predicate KeepsAccounts(s: State, t: State) {
    && t.published == s.published && t.current == s.current && (s.reload.Stored? ==> t.reload == s.reload)
    && WaitersKept(s, t) && GensKept(s, t)
  }

  predicate IsReloadStep(step: Step) {
    step.ReloadLock? || step.ReloadRead? || step.ReloadAbort? || step.ReloadBuild? || step.CloseCas?
  }

  predicate IsWaitStep(step: Step) {
    step.WaiterRetire? || step.WaiterDrained? || step.WaiterTimeout?
  }

  lemma MintKeepsAccounts(s: State, g: GenId)
    requires g in s.gens
    ensures KeepsAccounts(s, Mint(s, g))
  {
  }

  lemma CloseLeaseKeepsAccounts(s: State, l: LeaseId)
    requires l in s.leases && s.leases[l].gen in s.gens
    ensures KeepsAccounts(s, DoCloseLease(s, l))
  {
  }

  lemma LeaseStepKeepsAccounts(s: State, step: Step)
    requires IsLeaseStep(step) && Next(s, step).Some?
    ensures KeepsAccounts(s, Next(s, step).value)
  {
    match step
    case StartAcquire(_) =>
    case LoadCurrent(_) =>
    case TryAcquire(u) => MintKeepsAccounts(s.(acquirers := s.acquirers - {u}), s.acquirers[u].gen);
    case Retain(g) => MintKeepsAccounts(s, g);
    case CloseLease(l) => CloseLeaseKeepsAccounts(s, l);
  }

  lemma ReloadStepKeepsAccounts(s: State, step: Step)
    requires IsReloadStep(step) && Next(s, step).Some? && forall g | g in s.gens :: g <= s.nextID
    ensures KeepsAccounts(s, Next(s, step).value)
  {
  }

  lemma WaitStepKeepsAccounts(s: State, step: Step)
    requires IsWaitStep(step) && Next(s, step).Some?
    ensures KeepsAccounts(s, Next(s, step).value)
  {
  }

  lemma OtherStepKeepsAccounts(s: State, step: Step)
    requires Inv(s) && Next(s, step).Some?
    requires IsLeaseStep(step) || IsReloadStep(step) || IsWaitStep(step)
    ensures KeepsAccounts(s, Next(s, step).value)
  {
    if IsLeaseStep(step) {
      LeaseStepKeepsAccounts(s, step);
    } else if IsReloadStep(step) {
      ReloadStepKeepsAccounts(s, step);
    } else {
      WaitStepKeepsAccounts(s, step);
    }
  }

  lemma CloseCounts(s: State)
    requires LivesOk(s)
    ensures forall g | g in s.gens :: s.gens[g].closeRuns == if s.gens[g].closeOnce then 1 else 0
  {
    forall g | g in s.gens
      ensures s.gens[g].closeRuns == if s.gens[g].closeOnce then 1 else 0
    {
      assert LifeOk(s, g);
    }
  }

  lemma NextWaiterIsNew(s: State)
    requires forall w | w in s.waiters :: WaiterOk(s, w)
    ensures s.nextWaiter !in s.waiters
  {
    forall w | w in s.waiters
      ensures w < s.nextWaiter
    {
      assert WaiterOk(s, w);
    }
  }

  lemma SpawnKeepsAccounted(s: State)
    requires Inv(s) && AllAccounted(s) && s.reload.Stored?
    ensures AllAccounted(DoReloadSpawn(s))
  {
    NextWaiterIsNew(s);
    WaiterTakesOver(s, DoReloadSpawn(s), s.reload.previous);
  }

  lemma SwapKeepsAccounted(s: State)
    requires Inv(s) && AllAccounted(s)
    ensures AllAccounted(DoCloseSwap(s))
  {
    NextWaiterIsNew(s);
    WaiterTakesOver(s, DoCloseSwap(s), s.current);
  }

  lemma StepKeepsAccounted(s: State, step: Step)
    requires Inv(s) && AllAccounted(s) && Next(s, step).Some?
    ensures AllAccounted(Next(s, step).value)
  {
    if IsLeaseStep(step) || IsReloadStep(step) || IsWaitStep(step) {
      OtherStepKeepsAccounts(s, step);
      KeepAccounted(s, Next(s, step).value);
    } else if step.ReloadPublish? {
      PublishKeepsAccounted(s);
    } else if step.ReloadSpawn? {
      SpawnKeepsAccounted(s);
    } else if step.CloseSwap? {
      SwapKeepsAccounted(s);
    } else {
      CloseCounts(s);
      WaiterCloseKeepsAccounted(s, step.waiter);
    }
  }

  lemma WaiterCloseKeepsRetired(s: State, v: nat)
    requires Inv(s) && ClosedAreRetired(s) && Next(s, WaiterClose(v)).Some?
    ensures ClosedAreRetired(Next(s, WaiterClose(v)).value)
  {
    assert WaiterOk(s, v);
  }

  lemma GensKeptKeepsRetired(s: State, t: State)
    requires ClosedAreRetired(s) && GensKept(s, t)
    ensures ClosedAreRetired(t)
  {
  }

  lemma StepKeepsClosedRetired(s: State, step: Step)
    requires Inv(s) && ClosedAreRetired(s) && Next(s, step).Some?
    ensures ClosedAreRetired(Next(s, step).value)
  {
    if step.WaiterClose? {
      WaiterCloseKeepsRetired(s, step.waiter);
    } else if IsLeaseStep(step) || IsReloadStep(step) || IsWaitStep(step) {
      OtherStepKeepsAccounts(s, step);
      GensKeptKeepsRetired(s, Next(s, step).value);
    }
  }

  lemma {:induction false} RunKeepsAccounted(s: State, steps: seq<Step>)
    requires Inv(s) && AllAccounted(s) && ClosedAreRetired(s) && IsRun(s, steps)
    ensures Inv(Exec(s, steps)) && AllAccounted(Exec(s, steps)) && ClosedAreRetired(Exec(s, steps))
    decreases |steps|
  {
    if steps != [] {
      StepKeepsInv(s, steps[0]);
      StepKeepsAccounted(s, steps[0]);
      StepKeepsClosedRetired(s, steps[0]);
      RunKeepsAccounted(Next(s, steps[0]).value, steps[1..]);
    }
  }

  /**
   In every reachable state each published generation is current, held by a reload about to
   drain it, being drained, or closed; and the current one is not closed.
   */
  lemma NoGenerationIsLeaked(steps: seq<Step>, g: GenId)
    requires IsRun(Init(), steps) && g in Exec(Init(), steps).published
    ensures Accounted(Exec(Init(), steps), g)
    ensures var s := Exec(Init(), steps);
            s.current == Some(g) ==> g in s.gens && s.gens[g].closeRuns == 0
  {
    InitInv();
    RunKeepsAccounted(Init(), steps);
    CurrentIsNotClosed(Exec(Init(), steps));
  }

  lemma CurrentIsNotClosed(s: State)
    requires Inv(s) && ClosedAreRetired(s)
    ensures s.current.Some? ==> s.current.value in s.gens && s.gens[s.current.value].closeRuns == 0
  {
    if s.current.Some? {
      assert Last(s.published) in s.published;
      CloseCounts(s);
    }
  }

  // ---------------------------------------------------------------------------
  // Shutdown
  // ---------------------------------------------------------------------------

  lemma StepAfterSwap(s: State, step: Step)
    requires s.closed && s.closing.Swapped? && Next(s, step).Some?
    ensures var t := Next(s, step).value;
            && t.closed && t.closing.Swapped?
            && (t.current.None? <==> s.current.None? && !step.ReloadPublish?)
  {
  }

  /** Once `Close` has taken the current generation, only a publication puts one back. */
  lemma {:induction false} CurrentAfterSwap(s: State, steps: seq<Step>)
    requires s.closed && s.closing.Swapped? && IsRun(s, steps)
    ensures Exec(s, steps).current.None? <==> s.current.None? && ReloadPublish !in steps
    decreases |steps|
  {
    if steps != [] {
      StepAfterSwap(s, steps[0]);
      CurrentAfterSwap(Next(s, steps[0]).value, steps[1..]);
      assert steps == [steps[0]] + steps[1..];
    }
  }

  /**
   Once `Close`, every reload and every drain are through, each published generation but the
   current one is closed; so all are if and only if nothing was published after `Close` took
   the current generation.
   */
  lemma ShutdownClosesEveryGeneration(before: seq<Step>, after: seq<Step>)
    requires IsRun(Init(), before) && Next(Exec(Init(), before), CloseSwap).Some?
    requires IsRun(Next(Exec(Init(), before), CloseSwap).value, after)
    requires var t := Exec(Next(Exec(Init(), before), CloseSwap).value, after);
             t.waiters == map[] && !t.reload.Stored?
    ensures var t := Exec(Next(Exec(Init(), before), CloseSwap).value, after);
            && (forall g | g in t.published :: g in t.gens && (t.gens[g].closeRuns == 1 <==> t.current != Some(g)))
            && ((forall g | g in t.published :: g in t.gens && t.gens[g].closeRuns == 1) <==> ReloadPublish !in after)
  {
    InitInv();
    RunKeepsAccounted(Init(), before);
    var s := Exec(Init(), before);
    var swapped := Next(s, CloseSwap).value;
    StepKeepsInv(s, CloseSwap);
    StepKeepsAccounted(s, CloseSwap);
    StepKeepsClosedRetired(s, CloseSwap);
    RunKeepsAccounted(swapped, after);
    CurrentAfterSwap(swapped, after);
    var t := Exec(swapped, after);
    CurrentIsNotClosed(t);
    QuietStateIsClosed(t);
  }

  lemma QuietStateIsClosed(t: State)
    requires Inv(t) && AllAccounted(t) && t.waiters == map[] && !t.reload.Stored?
    requires t.current.Some? ==> t.current.value in t.gens && t.gens[t.current.value].closeRuns == 0
    ensures forall g | g in t.published :: g in t.gens && (t.gens[g].closeRuns == 1 <==> t.current != Some(g))
    ensures t.current.Some? ==> t.current.value in t.published
  {
    assert Last(t.published) in t.published;
    forall g | g in t.published
      ensures g in t.gens && (t.gens[g].closeRuns == 1 <==> t.current != Some(g))
    {
      assert Accounted(t, g);
    }
  }

  // --- A publication after the swap ---

  ghost predicate Reachable(s: State) {
    exists steps :: IsRun(Init(), steps) && Exec(Init(), steps) == s
  }

  lemma {:induction false} ExecAppend(s: State, steps: seq<Step>, step: Step)
    requires IsRun(s, steps) && Next(Exec(s, steps), step).Some?
    ensures IsRun(s, steps + [step]) && Exec(s, steps + [step]) == Next(Exec(s, steps), step).value
    decreases |steps|
  {
    if steps == [] {
      assert steps + [step] == [step];
      assert [step][1..] == [];
    } else {
      ExecAppend(Next(s, steps[0]).value, steps[1..], step);
      assert (steps + [step])[1..] == steps[1..] + [step];
    }
  }

  lemma Take(s: State, step: Step) returns (t: State)
    requires Reachable(s) && Next(s, step).Some?
    ensures Reachable(t) && t == Next(s, step).value
  {
    var steps :| IsRun(Init(), steps) && Exec(Init(), steps) == s;
    ExecAppend(Init(), steps, step);
    t := Next(s, step).value;
  }

  /** Generation 1 is unused, and drained if it is retired. */
  ghost predicate Unused(s: State) {
    1 in s.gens && s.gens[1].active == 0 && (s.gens[1].retired ==> s.gens[1].drained > 0)
  }

  lemma RetireOne(s: State, w: nat) returns (t: State)
    requires Reachable(s) && Unused(s) && w in s.waiters && s.waiters[w] == Waiter(1, Retiring)
    ensures Reachable(t) && Unused(t) && t.gens[1].retired
    ensures t == s.(gens := s.gens[1 := t.gens[1]], waiters := s.waiters[w := Waiter(1, Waiting)])
  {
    t := Take(s, WaiterRetire(w));
  }

  lemma DrainOne(s: State, w: nat) returns (t: State)
    requires Reachable(s) && Unused(s) && s.gens[1].retired && w in s.waiters && s.waiters[w] == Waiter(1, Waiting)
    ensures Reachable(t) && t == s.(waiters := s.waiters[w := Waiter(1, Closing)])
  {
    t := Take(s, WaiterDrained(w));
  }

  lemma CloseOne(s: State, w: nat) returns (t: State)
    requires Reachable(s) && Unused(s) && w in s.waiters && s.waiters[w] == Waiter(1, Closing)
    ensures Reachable(t) && Unused(t)
    ensures t == s.(gens := s.gens[1 := t.gens[1]], waiters := s.waiters - {w})
  {
    t := Take(s, WaiterClose(w));
  }

  /** One waiter of generation 1 runs to its end. */
  lemma RunWaiter(s: State, w: nat) returns (t: State)
    requires Reachable(s) && Unused(s) && w in s.waiters && s.waiters[w] == Waiter(1, Retiring)
    ensures Reachable(t) && Unused(t)
    ensures t == s.(gens := s.gens[1 := t.gens[1]], waiters := s.waiters - {w})
  {
    t := RetireOne(s, w);
    t := DrainOne(t, w);
    t := CloseOne(t, w);
    assert t.gens == s.gens[1 := t.gens[1]];
    assert t.waiters == s.waiters - {w};
  }

  lemma BuildOne() returns (s: State)
    ensures Reachable(s) && s == Init().(nextID := 2, gens := map[1 := FRESH, 2 := FRESH], reload := Built(Some(1), 2))
  {
    assert IsRun(Init(), []) && Exec(Init(), []) == Init();
    s := Take(Init(), ReloadLock);
    s := Take(s, ReloadRead);
    s := Take(s, ReloadBuild(true));
  }

  lemma SwapOut(s: State) returns (t: State)
    requires Reachable(s) && !s.closed && s.current == Some(1) && s.waiters == map[] && s.nextWaiter == 0
    ensures Reachable(t) && t.closed && t.current.None? && t.reload == s.reload && t.gens == s.gens
    ensures t.waiters == map[0 := Waiter(1, Retiring)] && t.nextWaiter == 1
  {
    t := Take(s, CloseCas);
    t := Take(t, CloseSwap);
  }

  lemma PublishLate(s: State) returns (t: State)
    requires Reachable(s) && s.closed && s.reload == Built(Some(1), 2)
    requires s.waiters == map[0 := Waiter(1, Retiring)] && s.nextWaiter == 1 && s.gens == map[1 := FRESH, 2 := FRESH]
    ensures Reachable(t) && t.closed && t.reload.Idle? && t.gens == s.gens
    ensures t.waiters == map[0 := Waiter(1, Retiring), 1 := Waiter(1, Retiring)]
    ensures t.current == Some(2) && 2 in t.published
  {
    t := Take(s, ReloadPublish);
    assert t.published[|t.published| - 1] == 2;
    t := Take(t, ReloadSpawn);
  }

  /** A reload that was under way when `Close` swapped publishes a generation that nobody will close. */
  lemma LatePublicationIsNeverClosed() returns (s: State)
    ensures Reachable(s) && s.closed && s.waiters == map[] && s.reload.Idle?
    ensures s.current == Some(2) && 2 in s.published && 2 in s.gens && s.gens[2].closeRuns == 0
  {
    s := BuildOne();
    s := SwapOut(s);
    s := PublishLate(s);
    s := RunWaiter(s, 0);
    s := RunWaiter(s, 1);
    assert s.waiters == map[];
  }
}
