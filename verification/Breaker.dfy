/**
 The circuit breaker: three fields against a specification that only looks at the
 history of calls.
 */
module Breakers {
  import opened Options

  type Time = int

  /** `openUntil` is absent where the source has the zero time. */
  datatype Fields = Fields(threshold: nat, cooldown: nat, failures: nat, openUntil: Option<Time>, probing: bool)

  const DEFAULT_THRESHOLD := 5
  const DEFAULT_COOLDOWN := 30_000_000_000

  function New(threshold: int, cooldown: int): Fields {
    Fields(if threshold <= 0 then DEFAULT_THRESHOLD else threshold,
           if cooldown <= 0 then DEFAULT_COOLDOWN else cooldown, 0, None, false)
  }

  predicate Admits(b: Fields, now: Time) {
    b.openUntil.None? || (b.openUntil.value <= now && !b.probing)
  }

  /** How long a refused caller is told to wait. */
  function RetryAfter(b: Fields, now: Time): Time {
    if Admits(b, now) then 0
    else if now < b.openUntil.value then b.openUntil.value - now
    else b.cooldown
  }

  function Allowed(b: Fields, now: Time): Fields {
    if b.openUntil.Some? && Admits(b, now) then b.(probing := true) else b
  }

  function Succeeded(b: Fields): Fields {
    b.(failures := 0, openUntil := None, probing := false)
  }

  function Ignored(b: Fields): Fields {
    b.(probing := false)
  }

  function Failed(b: Fields, now: Time): Fields {
    b.(probing := false, failures := b.failures + 1,
       openUntil := if b.failures + 1 >= b.threshold then Some(now + b.cooldown) else b.openUntil)
  }

  // ---------------------------------------------------------------------------
  // The history specification
  // ---------------------------------------------------------------------------

  datatype Event =
    | Allow(now: Time, admitted: bool)
    | Success
    | Failure(now: Time)
    | Ignore

  type History = seq<Event>

  function Prior(h: History): History
    requires h != []
  {
    h[..|h| - 1]
  }

  function Latest(h: History): Event
    requires h != []
  {
    h[|h| - 1]
  }

  predicate Settles(e: Event) {
    !e.Allow?
  }

  /** Failures since the last success. */
  function FailuresSince(h: History): nat {
    if h == [] || Latest(h).Success? then 0
    else (if Latest(h).Failure? then 1 else 0) + FailuresSince(Prior(h))
  }

  function LastFailure(h: History): Option<Time> {
    if h == [] then None
    else if Latest(h).Failure? then Some(Latest(h).now)
    else LastFailure(Prior(h))
  }

  /** A call was admitted while the breaker was open, and nothing has settled since. */
  predicate ProbeOutstanding(h: History, threshold: nat) {
    h != [] && !Settles(Latest(h))
    && ((Latest(h).admitted && FailuresSince(Prior(h)) >= threshold) || ProbeOutstanding(Prior(h), threshold))
  }

  /**
   Admission as a statement about the past: too few failures since the last success, or
   the cooldown since the last failure is over and no probe is outstanding.
   */
  ghost predicate ShouldAdmit(h: History, threshold: nat, cooldown: nat, now: Time) {
    || FailuresSince(h) < threshold
    || (LastFailure(h).Some? && LastFailure(h).value + cooldown <= now && !ProbeOutstanding(h, threshold))
  }

  /** The fields say what the history says. */
  ghost predicate Tracks(b: Fields, h: History) {
    && b.threshold > 0
    && b.failures == FailuresSince(h)
    && b.probing == ProbeOutstanding(h, b.threshold)
    && (b.openUntil.Some? <==> FailuresSince(h) >= b.threshold)
    && (b.openUntil.Some? ==> LastFailure(h) == Some(b.openUntil.value - b.cooldown))
  }

  lemma {:induction false} FailuresHaveALast(h: History)
    ensures FailuresSince(h) > 0 ==> LastFailure(h).Some?
  {
    if h != [] {
      FailuresHaveALast(Prior(h));
    }
  }

  lemma {:induction false} ClosedHasNoProbe(h: History, threshold: nat)
    requires FailuresSince(h) < threshold
    ensures !ProbeOutstanding(h, threshold)
  {
    if h != [] && !Settles(Latest(h)) {
      ClosedHasNoProbe(Prior(h), threshold);
    }
  }

  /** Refinement: the fields admit exactly what the history says should be admitted. */
  lemma AdmitsIffShouldAdmit(b: Fields, h: History, now: Time)
    requires Tracks(b, h)
    ensures Admits(b, now) <==> ShouldAdmit(h, b.threshold, b.cooldown, now)
  {
    FailuresHaveALast(h);
  }

  lemma AllowKeepsTracking(b: Fields, h: History, now: Time)
    requires Tracks(b, h)
    ensures Tracks(Allowed(b, now), h + [Allow(now, Admits(b, now))])
  {
    var more := h + [Allow(now, Admits(b, now))];
    assert Prior(more) == h;
    if b.openUntil.None? {
      ClosedHasNoProbe(h, b.threshold);
    }
  }

  lemma SuccessKeepsTracking(b: Fields, h: History)
    requires Tracks(b, h)
    ensures Tracks(Succeeded(b), h + [Success])
  {
    assert Prior(h + [Success]) == h;
  }

  lemma IgnoreKeepsTracking(b: Fields, h: History)
    requires Tracks(b, h)
    ensures Tracks(Ignored(b), h + [Ignore])
  {
    assert Prior(h + [Ignore]) == h;
  }

  lemma FailureKeepsTracking(b: Fields, h: History, now: Time)
    requires Tracks(b, h)
    ensures Tracks(Failed(b, now), h + [Failure(now)])
  {
    var more := h + [Failure(now)];
    assert Prior(more) == h;
    assert FailuresSince(more) == FailuresSince(h) + 1;
  }

  class Breaker {
    const threshold: nat
    const cooldown: nat
    var failures: nat
    var openUntil: Option<Time>
    var probing: bool
    ghost var history: History

    ghost function View(): Fields
      reads this
    {
      Fields(threshold, cooldown, failures, openUntil, probing)
    }

    ghost predicate Valid()
      reads this
    {
      Tracks(View(), history)
    }

    constructor (threshold: int, cooldown: int)
      ensures Valid() && history == [] && View() == New(threshold, cooldown)
    {
      this.threshold := if threshold <= 0 then DEFAULT_THRESHOLD else threshold;
      this.cooldown := if cooldown <= 0 then DEFAULT_COOLDOWN else cooldown;
      failures, openUntil, probing, history := 0, None, false, [];
    }

    method Allow(now: Time) returns (admitted: bool, retryAfter: Time)
      requires Valid()
      modifies this
      ensures Valid() && history == old(history) + [Event.Allow(now, admitted)]
      ensures admitted <==> ShouldAdmit(old(history), threshold, cooldown, now)
      ensures retryAfter == RetryAfter(old(View()), now)
      ensures View() == Allowed(old(View()), now)
    {
      AllowKeepsTracking(View(), history, now);
      AdmitsIffShouldAdmit(View(), history, now);
      if openUntil.None? {
        admitted, retryAfter := true, 0;
      } else if now < openUntil.value {
        admitted, retryAfter := false, openUntil.value - now;
      } else if probing {
        admitted, retryAfter := false, cooldown;
      } else {
        probing := true;
        admitted, retryAfter := true, 0;
      }
      history := history + [Event.Allow(now, admitted)];
    }

    method Success()
      requires Valid()
      modifies this
      ensures Valid() && history == old(history) + [Event.Success] && View() == Succeeded(old(View()))
    {
      SuccessKeepsTracking(View(), history);
      failures, openUntil, probing := 0, None, false;
      history := history + [Event.Success];
    }

    method Ignore()
      requires Valid()
      modifies this
      ensures Valid() && history == old(history) + [Event.Ignore] && View() == Ignored(old(View()))
    {
      IgnoreKeepsTracking(View(), history);
      probing := false;
      history := history + [Event.Ignore];
    }

    method Failure(now: Time)
      requires Valid()
      modifies this
      ensures Valid() && history == old(history) + [Event.Failure(now)] && View() == Failed(old(View()), now)
    {
      ghost var before := View();
      FailureKeepsTracking(before, history, now);
      probing := false;
      failures := failures + 1;
      if failures >= threshold {
        openUntil := Some(now + cooldown);
      }
      assert View() == Failed(before, now);
      history := history + [Event.Failure(now)];
    }
  }

  // ---------------------------------------------------------------------------
  // Whole runs
  // ---------------------------------------------------------------------------

  datatype Op = DoAllow(now: Time) | DoSuccess | DoFailure(now: Time) | DoIgnore

  function Apply(b: Fields, op: Op): Fields {
    match op
    case DoAllow(now) => Allowed(b, now)
    case DoSuccess => Succeeded(b)
    case DoFailure(now) => Failed(b, now)
    case DoIgnore => Ignored(b)
  }

  function EventOf(b: Fields, op: Op): Event {
    match op
    case DoAllow(now) => Allow(now, Admits(b, now))
    case DoSuccess => Success
    case DoFailure(now) => Failure(now)
    case DoIgnore => Ignore
  }

  function Run(b: Fields, ops: seq<Op>): Fields
    decreases |ops|
  {
    if ops == [] then b else Run(Apply(b, ops[0]), ops[1..])
  }

  function Events(b: Fields, ops: seq<Op>): History
    decreases |ops|
  {
    if ops == [] then [] else [EventOf(b, ops[0])] + Events(Apply(b, ops[0]), ops[1..])
  }

  lemma {:induction false} RunTracks(b: Fields, h: History, ops: seq<Op>)
    requires Tracks(b, h)
    ensures Tracks(Run(b, ops), h + Events(b, ops))
    decreases |ops|
  {
    if ops == [] {
      assert h + [] == h;
    } else {
      match ops[0] {
        case DoAllow(now) => AllowKeepsTracking(b, h, now);
        case DoSuccess => SuccessKeepsTracking(b, h);
        case DoFailure(now) => FailureKeepsTracking(b, h, now);
        case DoIgnore => IgnoreKeepsTracking(b, h);
      }
      RunTracks(Apply(b, ops[0]), h + [EventOf(b, ops[0])], ops[1..]);
      assert h + [EventOf(b, ops[0])] + Events(Apply(b, ops[0]), ops[1..]) == h + Events(b, ops);
    }
  }

  /** After any sequence of calls, the next `Allow` admits exactly as the history specifies. */
  lemma BreakerRefinesHistory(threshold: int, cooldown: int, ops: seq<Op>, now: Time)
    ensures var b := New(threshold, cooldown);
            Admits(Run(b, ops), now) <==> ShouldAdmit(Events(b, ops), b.threshold, b.cooldown, now)
  {
    var b := New(threshold, cooldown);
    RunTracks(b, [], ops);
    assert [] + Events(b, ops) == Events(b, ops);
    RunKeepsConfig(b, ops);
    AdmitsIffShouldAdmit(Run(b, ops), Events(b, ops), now);
  }

  lemma {:induction false} RunKeepsConfig(b: Fields, ops: seq<Op>)
    ensures Run(b, ops).threshold == b.threshold && Run(b, ops).cooldown == b.cooldown
    decreases |ops|
  {
    if ops != [] {
      RunKeepsConfig(Apply(b, ops[0]), ops[1..]);
    }
  }

  // ---------------------------------------------------------------------------
  // How many probes
  // ---------------------------------------------------------------------------

  /** Event `k` admitted a call while the breaker was open. */
  predicate HalfOpen(h: History, k: nat, threshold: nat)
    requires k < |h|
  {
    h[k].Allow? && h[k].admitted && FailuresSince(h[..k]) >= threshold
  }

  ghost predicate SettledSince(h: History, k: nat)
    requires k < |h|
  {
    exists j :: k < j < |h| && Settles(h[j])
  }

  /** A probe is outstanding exactly when some half-open admission has had no settling event since. */
  lemma {:induction false} OutstandingMeans(h: History, threshold: nat)
    ensures ProbeOutstanding(h, threshold) <==>
              exists k :: 0 <= k < |h| && HalfOpen(h, k, threshold) && !SettledSince(h, k)
  {
    if h != [] {
      var n := |h| - 1;
      OutstandingMeans(Prior(h), threshold);
      assert forall k | 0 <= k < n :: Prior(h)[k] == h[k] && Prior(h)[..k] == h[..k];
      assert Settles(Latest(h)) ==> forall k | 0 <= k < n :: SettledSince(h, k);
      if !Settles(Latest(h)) {
        forall k | 0 <= k < n
          ensures SettledSince(h, k) <==> SettledSince(Prior(h), k)
        {
          SettledSincePrior(h, k);
        }
        assert h[..n] == Prior(h);
        assert !SettledSince(h, n);
        if exists k :: 0 <= k < n && HalfOpen(Prior(h), k, threshold) && !SettledSince(Prior(h), k) {
          var k :| 0 <= k < n && HalfOpen(Prior(h), k, threshold) && !SettledSince(Prior(h), k);
          assert HalfOpen(h, k, threshold) && !SettledSince(h, k);
        }
        if exists k :: 0 <= k < |h| && HalfOpen(h, k, threshold) && !SettledSince(h, k) {
          var k :| 0 <= k < |h| && HalfOpen(h, k, threshold) && !SettledSince(h, k);
          assert k < n ==> HalfOpen(Prior(h), k, threshold) && !SettledSince(Prior(h), k);
        }
      }
    }
  }

  lemma SettledSincePrior(h: History, k: nat)
    requires k < |h| - 1 && !Settles(Latest(h))
    ensures SettledSince(h, k) <==> SettledSince(Prior(h), k)
  {
    assert forall j | k < j < |h| - 1 :: Prior(h)[j] == h[j];
    if SettledSince(h, k) {
      var j :| k < j < |h| && Settles(h[j]);
      assert Settles(Prior(h)[j]);
    }
  }

  /** Some event after `p` has settled, and no call was admitted half-open after it. */
  ghost predicate SettledAndFree(h: History, p: nat, threshold: nat)
    requires p < |h|
  {
    exists q :: p < q < |h| && Settles(h[q]) && forall k | q < k < |h| :: !HalfOpen(h, k, threshold)
  }

  /** The last position from `p` on that holds a half-open admission. */
  lemma {:induction false} LastHalfOpen(h: History, p: nat, threshold: nat, n: nat) returns (k: nat)
    requires p < n <= |h| && HalfOpen(h, p, threshold)
    ensures p <= k < n && HalfOpen(h, k, threshold) && forall m | k < m < n :: !HalfOpen(h, m, threshold)
    decreases n
  {
    if HalfOpen(h, n - 1, threshold) {
      k := n - 1;
    } else {
      k := LastHalfOpen(h, p, threshold, n - 1);
    }
  }

  lemma NoProbeIffSettledAndFree(h: History, p: nat, threshold: nat)
    requires p < |h| && HalfOpen(h, p, threshold)
    ensures !ProbeOutstanding(h, threshold) <==> SettledAndFree(h, p, threshold)
  {
    OutstandingMeans(h, threshold);
    var k := LastHalfOpen(h, p, threshold, |h|);
    if SettledAndFree(h, p, threshold) {
      var q :| p < q < |h| && Settles(h[q]) && forall m | q < m < |h| :: !HalfOpen(h, m, threshold);
      assert k < q;
    }
    if SettledSince(h, k) {
      var q :| k < q < |h| && Settles(h[q]);
      assert forall m | q < m < |h| :: !HalfOpen(h, m, threshold);
      forall m | 0 <= m < |h| && HalfOpen(h, m, threshold)
        ensures SettledSince(h, m)
      {
        assert m < q && Settles(h[q]);
      }
    }
  }

  /**
   One probe at a time holds exactly as long as nothing settles.  After a half-open admission at
   `p`, and with the breaker open and its cooldown over, the next call is admitted beside that
   probe if and only if some event since has settled and nothing was admitted half-open after it.
   */
  lemma SecondProbeIffSettled(b: Fields, h: History, p: nat, now: Time)
    requires Tracks(b, h) && p < |h| && HalfOpen(h, p, b.threshold)
    requires b.openUntil.Some? && b.openUntil.value <= now
    ensures Admits(b, now) <==> SettledAndFree(h, p, b.threshold)
  {
    NoProbeIffSettledAndFree(h, p, b.threshold);
  }

  /**
   The settling event need not be the probe's own: a call admitted before the breaker
   opened can settle late and let a second probe in beside the first.
   */
  lemma LateSettlementAdmitsSecondProbe()
    ensures var b := New(1, 10);
            var h := Events(b, [DoAllow(0), DoAllow(0), DoFailure(1), DoAllow(20), DoIgnore, DoAllow(20)]);
            && h[3] == Allow(20, true) && h[5] == Allow(20, true)
            && FailuresSince(h[..3]) >= 1 && FailuresSince(h[..5]) >= 1
  {
    var b := New(1, 10);
    var open := Fields(1, 10, 1, Some(11), false);
    assert Apply(Apply(b, DoAllow(0)), DoAllow(0)) == b;
    assert Apply(b, DoFailure(1)) == open;
    var h := Events(b, [DoAllow(0), DoAllow(0), DoFailure(1), DoAllow(20), DoIgnore, DoAllow(20)]);
    assert h == [Allow(0, true), Allow(0, true), Failure(1), Allow(20, true), Ignore, Allow(20, true)];
    assert Prior(h[..3]) == h[..2] && Prior(h[..5]) == h[..4] && Prior(h[..4]) == h[..3];
  }
}
