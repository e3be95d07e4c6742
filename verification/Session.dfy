/**
 The life of one MCP request, session or tool call, end to end: what it leaves behind when
 nothing interferes.  What holds under interference is in `Mcp` and `Migrations`.
 */
module Sessions {
  import opened Options
  import opened Mcp
  import R = Runtime

  predicate ClosedLease(s: State, l: R.LeaseId) {
    l in s.rt.leases && s.rt.leases[l].closed
  }

  predicate OpenOn(s: State, l: R.LeaseId, g: R.GenId) {
    l in s.rt.leases && s.rt.leases[l] == R.LeaseRecord(g, false)
  }

  /** `steps` lead from `s` to `t`. */
  ghost predicate Lead(s: State, steps: seq<Step>, t: State) {
    IsRun(s, steps) && Exec(s, steps) == t
  }

  /** Takes a step that is possible. */
  lemma Go(s: State, step: Step) returns (t: State)
    requires Next(s, step).Some?
    ensures Next(s, step) == Some(t) && Lead(s, [step], t)
  {
    t := Next(s, step).value;
    assert [step][1..] == [];
  }

  lemma {:induction false} Chain(s: State, a: seq<Step>, t: State, b: seq<Step>, u: State)
    requires Lead(s, a, t) && Lead(t, b, u)
    ensures Lead(s, a + b, u)
    decreases |a|
  {
    if a == [] {
      assert a + b == b;
    } else {
      Chain(Next(s, a[0]).value, a[1..], t, b, u);
      assert (a + b)[1..] == a[1..] + b;
    }
  }

  /** A closed handler starts no request and no migration, and closing it again does nothing. */
  lemma ClosedHandlerRefuses(s: State, w: ThreadId, n: R.GenId)
    requires !s.phase.Open? && w !in s.workers && n in s.rt.published
    ensures Next(s, Arrive(w)) == Some(s)
    ensures Next(s, Notify(w, n)) == Some(s)
    ensures Next(s, BeginClose(w)) == Some(s)
  {
  }

  /** An open handler starts requests and migrations. */
  lemma OpenHandlerStarts(s: State, w: ThreadId, n: R.GenId)
    requires s.phase.Open? && w !in s.workers && n in s.rt.published
    ensures Next(s, Arrive(w)) == Some(s.(workers := s.workers[w := Serving(None, None)]))
    ensures Next(s, Notify(w, n)) == Some(s.(workers := s.workers[w := Notified(n)]))
  {
  }

  // ---------------------------------------------------------------------------
  // Requests
  // ---------------------------------------------------------------------------

  /** The factory gives the request a new bundle with a new open lease. */
  lemma FactoryMints(s: State, w: ThreadId, a: R.ThreadId, stateless: bool) returns (t: State)
    requires w in s.workers && s.workers[w] == Serving(None, None) && CanAcquire(s, a)
    ensures Lead(s, [FactoryAcquire(w, a, stateless)], t)
    ensures w in t.workers && t.workers[w] == Minted(s.nextBundle, stateless, None, None)
    ensures s.nextBundle in t.bundles && t.bundles[s.nextBundle] == Some(s.rt.nextLease)
    ensures OpenOn(t, s.rt.nextLease, s.rt.acquirers[a].gen) && s.rt.acquirers[a].gen in t.rt.gens
    ensures t.sessions == s.sessions && t.transients == s.transients && t.phase == s.phase
  {
    t := Go(s, FactoryAcquire(w, a, stateless));
  }

  /** After `SetPending` and the end of the stream, the bundle waits to be stored. */
  lemma BundleIsPending(s: State, w: ThreadId, b: Bundle) returns (t: State)
    requires w in s.workers && s.workers[w] == Minted(b, false, None, None)
    ensures Lead(s, [SetPending(w), EndStream(w)], t)
    ensures t == s.(workers := s.workers[w := Finishing(Some(b), None)])
  {
    var u := Go(s, SetPending(w));
    assert u.workers[w] == Serving(Some(b), None);
    t := Go(u, EndStream(w));
    assert t.workers == s.workers[w := Finishing(Some(b), None)];
    Chain(s, [SetPending(w)], u, [EndStream(w)], t);
    assert [SetPending(w)] + [EndStream(w)] == [SetPending(w), EndStream(w)];
  }

  /** A bundle waiting to be stored becomes a session, and its request ends. */
  lemma PendingIsStored(s: State, w: ThreadId, b: Bundle, sid: SessionId) returns (t: State)
    requires s.phase.Open? && w in s.workers && s.workers[w] == Finishing(Some(b), None) && sid !in s.sessions
    ensures Lead(s, [StorePending(w, sid), FinishRequest(w)], t)
    ensures t.sessions == s.sessions[sid := b] && w !in t.workers
    ensures t.transients == s.transients && t.bundles == s.bundles && t.rt == s.rt
  {
    var u := Go(s, StorePending(w, sid));
    assert u.workers[w] == Finishing(None, None) && u.sessions == s.sessions[sid := b] && u.bundles == s.bundles;
    t := Go(u, FinishRequest(w));
    Chain(s, [StorePending(w, sid)], u, [FinishRequest(w)], t);
    assert [StorePending(w, sid)] + [FinishRequest(w)] == [StorePending(w, sid), FinishRequest(w)];
  }

  /** A stateful request whose session is new leaves a stored session with an open lease, and itself ends. */
  lemma StatefulRequestStoresSession(s: State, w: ThreadId, a: R.ThreadId, sid: SessionId) returns (t: State)
    requires s.phase.Open? && w in s.workers && s.workers[w] == Serving(None, None) && CanAcquire(s, a)
    requires sid !in s.sessions
    ensures Lead(s, [FactoryAcquire(w, a, false), SetPending(w), EndStream(w),
                     StorePending(w, sid), FinishRequest(w)], t)
    ensures sid in t.sessions && t.sessions[sid] in t.bundles && t.bundles[t.sessions[sid]] == Some(s.rt.nextLease)
    ensures OpenOn(t, s.rt.nextLease, s.rt.acquirers[a].gen)
    ensures w !in t.workers && t.transients == s.transients
  {
    var b := s.nextBundle;
    var minted := FactoryMints(s, w, a, false);
    var pending := BundleIsPending(minted, w, b);
    t := PendingIsStored(pending, w, b, sid);
    var x, y := [FactoryAcquire(w, a, false)], [SetPending(w), EndStream(w)];
    var z := [StorePending(w, sid), FinishRequest(w)];
    Chain(s, x, minted, y, pending);
    Chain(s, x + y, pending, z, t);
    assert x + y + z
        == [FactoryAcquire(w, a, false), SetPending(w), EndStream(w), StorePending(w, sid), FinishRequest(w)];
  }

  /** A stateful bundle that cannot be stored, because its session exists or the handler is closed, is closed. */
  lemma UnstoredBundleIsClosed(s: State, w: ThreadId, b: Bundle, sid: SessionId) returns (t: State)
    requires w in s.workers && s.workers[w] == Finishing(Some(b), None) && LeaseOfBundle(s, b)
    ensures !s.phase.Open? || sid in s.sessions ==> Next(s, StorePending(w, sid)).None?
    ensures Lead(s, [DropPending(w), FinishRequest(w)], t)
    ensures ClosedLease(t, s.bundles[b].value) && b !in t.bundles && w !in t.workers && t.sessions == s.sessions
  {
    var u := Go(s, DropPending(w));
    assert u.workers[w] == Finishing(None, None);
    t := Go(u, FinishRequest(w));
    Chain(s, [DropPending(w)], u, [FinishRequest(w)], t);
    assert [DropPending(w)] + [FinishRequest(w)] == [DropPending(w), FinishRequest(w)];
  }

  /** A stateless bundle is registered while its request runs. */
  lemma TransientIsRegistered(s: State, w: ThreadId, b: Bundle) returns (t: State)
    requires s.phase.Open? && w in s.workers && s.workers[w] == Minted(b, true, None, None)
    ensures Lead(s, [StoreTransient(w), SetTransient(w)], t)
    ensures w in t.workers && t.workers[w] == Serving(None, Some(b)) && b in t.transients
    ensures t.bundles == s.bundles && t.rt == s.rt && t.sessions == s.sessions && t.phase == s.phase
  {
    var u := Go(s, StoreTransient(w));
    t := Go(u, SetTransient(w));
    Chain(s, [StoreTransient(w)], u, [SetTransient(w)], t);
    assert [StoreTransient(w)] + [SetTransient(w)] == [StoreTransient(w), SetTransient(w)];
  }

  /** With the handler closed, a stateless bundle is not registered but closed. */
  lemma UnregisteredBundleIsClosed(s: State, w: ThreadId, b: Bundle)
    requires !s.phase.Open? && w in s.workers && s.workers[w] == Minted(b, true, None, None) && LeaseOfBundle(s, b)
    ensures Next(s, StoreTransient(w)).None? && Next(s, DropMinted(w)).Some?
    ensures ClosedLease(Next(s, DropMinted(w)).value, s.bundles[b].value) && b !in Next(s, DropMinted(w)).value.bundles
  {
  }

  /** The closer takes the lease out of its bundle. */
  lemma TakeLease(s: State, w: ThreadId, b: Bundle) returns (t: State)
    requires w in s.workers && s.workers[w] == Closing({b}, None) && LeaseOfBundle(s, b)
    ensures Lead(s, [Take(w, b)], t)
    ensures w in t.workers && t.workers[w] == Closing({}, s.bundles[b]) && t.rt == s.rt
    ensures b in t.bundles && t.bundles[b].None? && t.sessions == s.sessions && t.transients == s.transients
  {
    t := Go(s, Take(w, b));
    assert {b} - {b} == {};
  }

  /** The closer closes the lease in its hand and ends. */
  lemma CloseAndEnd(s: State, w: ThreadId, l: R.LeaseId) returns (t: State)
    requires w in s.workers && s.workers[w] == Closing({}, Some(l)) && CanClose(s, l)
    ensures Lead(s, [CloseHeld(w), EndClosing(w)], t)
    ensures ClosedLease(t, l) && w !in t.workers
    ensures t.bundles == s.bundles && t.sessions == s.sessions && t.transients == s.transients
  {
    var u := Go(s, CloseHeld(w));
    assert u.workers[w] == Closing({}, None);
    t := Go(u, EndClosing(w));
    Chain(s, [CloseHeld(w)], u, [EndClosing(w)], t);
    assert [CloseHeld(w)] + [EndClosing(w)] == [CloseHeld(w), EndClosing(w)];
  }

  /** Closing one bundle takes its lease out, closes it, and ends the closer. */
  lemma CloserCloses(s: State, w: ThreadId, b: Bundle) returns (t: State)
    requires w in s.workers && s.workers[w] == Closing({b}, None) && LeaseOfBundle(s, b)
    ensures Lead(s, [Take(w, b), CloseHeld(w), EndClosing(w)], t)
    ensures ClosedLease(t, s.bundles[b].value) && b in t.bundles && t.bundles[b].None? && w !in t.workers
    ensures t.sessions == s.sessions && t.transients == s.transients
  {
    var u := TakeLease(s, w, b);
    t := CloseAndEnd(u, w, s.bundles[b].value);
    Chain(s, [Take(w, b)], u, [CloseHeld(w), EndClosing(w)], t);
    assert [Take(w, b)] + [CloseHeld(w), EndClosing(w)] == [Take(w, b), CloseHeld(w), EndClosing(w)];
  }

  /** A finishing request takes its stateless bundle out of the table, to close it. */
  lemma TransientIsUnregistered(s: State, w: ThreadId, b: Bundle) returns (t: State)
    requires w in s.workers && s.workers[w] == Serving(None, Some(b))
    ensures Lead(s, [EndStream(w), FinishRequest(w)], t)
    ensures w in t.workers && t.workers[w] == Closing({b}, None) && t.transients == s.transients - {b}
    ensures t.rt == s.rt && t.bundles == s.bundles && t.sessions == s.sessions
  {
    var u := Go(s, EndStream(w));
    assert u.workers[w] == Finishing(None, Some(b));
    t := Go(u, FinishRequest(w));
    Chain(s, [EndStream(w)], u, [FinishRequest(w)], t);
    assert [EndStream(w)] + [FinishRequest(w)] == [EndStream(w), FinishRequest(w)];
  }

  /** A stateless request leaves nothing behind: its bundle is unregistered and its lease closed. */
  lemma StatelessRequestLeavesNothing(s: State, w: ThreadId, b: Bundle) returns (t: State)
    requires w in s.workers && s.workers[w] == Serving(None, Some(b)) && LeaseOfBundle(s, b)
    ensures Lead(s, [EndStream(w), FinishRequest(w), Take(w, b), CloseHeld(w), EndClosing(w)], t)
    ensures ClosedLease(t, s.bundles[b].value) && b !in t.transients && w !in t.workers && t.sessions == s.sessions
  {
    var u := TransientIsUnregistered(s, w, b);
    t := CloserCloses(u, w, b);
    var x, y := [EndStream(w), FinishRequest(w)], [Take(w, b), CloseHeld(w), EndClosing(w)];
    Chain(s, x, u, y, t);
    assert x + y == [EndStream(w), FinishRequest(w), Take(w, b), CloseHeld(w), EndClosing(w)];
  }

  // ---------------------------------------------------------------------------
  // Release and tool calls
  // ---------------------------------------------------------------------------

  /** Releasing a session removes it and closes its lease. */
  lemma ReleasedSessionIsClosed(s: State, w: ThreadId, sid: SessionId) returns (t: State)
    requires w !in s.workers && sid in s.sessions && LeaseOfBundle(s, s.sessions[sid])
    ensures Lead(s, [Release(w, sid), Take(w, s.sessions[sid]), CloseHeld(w), EndClosing(w)], t)
    ensures ClosedLease(t, s.bundles[s.sessions[sid]].value) && t.sessions == s.sessions - {sid} && w !in t.workers
  {
    var b := s.sessions[sid];
    var u := Go(s, Release(w, sid));
    assert u.workers[w] == Closing({b}, None) && u.sessions == s.sessions - {sid};
    t := CloserCloses(u, w, b);
    var x, y := [Release(w, sid)], [Take(w, b), CloseHeld(w), EndClosing(w)];
    Chain(s, x, u, y, t);
    assert x + y == [Release(w, sid), Take(w, b), CloseHeld(w), EndClosing(w)];
  }

  /** A tool call holds an open lease on its generation until it ends, and is refused on a retired one. */
  lemma ToolCallHoldsItsGeneration(s: State, w: ThreadId, g: R.GenId)
    requires w !in s.workers && CanRetain(s, g)
    ensures Next(s, CallTool(w, g)).Some?
    ensures s.rt.gens[g].retired ==> Next(s, CallTool(w, g)) == Some(s)
    ensures !s.rt.gens[g].retired ==>
              var t := Next(s, CallTool(w, g)).value;
              && w in t.workers && t.workers[w] == Calling(s.rt.nextLease) && OpenOn(t, s.rt.nextLease, g)
              && Next(t, EndCall(w)).Some? && ClosedLease(Next(t, EndCall(w)).value, s.rt.nextLease)
              && w !in Next(t, EndCall(w)).value.workers
  {
  }

  /** Shutdown takes every stored bundle out of the tables, to close it. */
  lemma ShutdownTakesEverything(s: State, w: ThreadId)
    requires w in s.workers && s.workers[w].Shutting?
    ensures Next(s, Grab(w)).Some?
    ensures var t := Next(s, Grab(w)).value;
            && t.sessions == map[] && t.transients == {} && !t.phase.Open? && w in t.workers && t.workers[w].Closing?
            && forall b :: b in t.workers[w].todo <==>
                 b in s.transients || exists sid :: sid in s.sessions && s.sessions[sid] == b
  {
  }
}
