/**
 One call of `Service.Invoke` as the program it is: it works on the admission slots and
 on the breaker of its endpoint, and hands its release function to the response body.
 Outcomes of the outside world (time-outs, credentials, the upstream) are parameters.
 */
module InvokeService {
  import opened Options
  import B = Breakers
  import I = Invoke

  class Admission {
    const globalCap: nat
    const domainCaps: seq<nat>
    var global: nat
    var domains: seq<nat>

    ghost predicate Valid()
      reads this
    {
      I.CapsOk(I.Config(globalCap, domainCaps), global, domains)
    }

    constructor (globalCap: nat, domainCaps: seq<nat>)
      ensures Valid() && this.globalCap == globalCap && this.domainCaps == domainCaps
      ensures global == 0 && domains == seq(|domainCaps|, _ => 0)
    {
      this.globalCap := globalCap;
      this.domainCaps := domainCaps;
      global := 0;
      domains := seq(|domainCaps|, _ => 0);
    }

    /** A failed acquire leaves both counts as they were. */
    method Acquire(d: I.Domain, budget: bool, globalInTime: bool, domainInTime: bool) returns (release: Option<Release>)
      requires Valid()
      modifies this
      ensures Valid()
      ensures release.Some? <==>
                d < |domains| && budget && globalInTime && old(global) < globalCap
                && domainInTime && old(domains[d]) < domainCaps[d]
      ensures release.None? ==> global == old(global) && domains == old(domains)
      ensures release.Some? ==> global == old(global) + 1 && domains == old(domains)[d := old(domains[d]) + 1]
      ensures release.Some? ==>
                fresh(release.value) && release.value.admission == this && release.value.domain == d
                && !release.value.done && release.value.Valid()
    {
      if d >= |domains| || !budget {
        return None;
      }
      if !globalInTime || global >= globalCap {
        return None;
      }
      global := global + 1;
      if !domainInTime || domains[d] >= domainCaps[d] {
        global := global - 1;
        return None;
      }
      domains := domains[d := domains[d] + 1];
      var once := new Release(this, d);
      release := Some(once);
    }
  }

  /** The release closure with its once guard. */
  class Release {
    const admission: Admission
    const domain: I.Domain
    var done: bool

    /** Until it has run, the closure stands for one slot of each kind. */
    ghost predicate Valid()
      reads this, admission
    {
      admission.Valid() && domain < |admission.domains|
      && (!done ==> admission.global > 0 && admission.domains[domain] > 0)
    }

    constructor (admission: Admission, domain: I.Domain)
      ensures this.admission == admission && this.domain == domain && !done
    {
      this.admission := admission;
      this.domain := domain;
      done := false;
    }

    method Run()
      requires Valid()
      modifies this, admission
      ensures Valid() && done
      ensures old(done) ==> admission.global == old(admission.global) && admission.domains == old(admission.domains)
      ensures !old(done) ==>
                admission.global == old(admission.global) - 1
                && admission.domains == old(admission.domains)[domain := old(admission.domains[domain]) - 1]
    {
      if !done {
        admission.domains := admission.domains[domain := admission.domains[domain] - 1];
        admission.global := admission.global - 1;
        done := true;
      }
    }
  }

  /** A response body that owns the release of its invocation. */
  class ReleaseBody {
    const release: Release
    var closed: bool

    ghost predicate Valid()
      reads this, release, release.admission
    {
      release.Valid() && (closed <==> release.done)
    }

    constructor (release: Release)
      requires release.Valid() && !release.done
      ensures this.release == release && !closed && Valid()
    {
      this.release := release;
      closed := false;
    }

    /** The first close returns both slots, every later one nothing. */
    method Close()
      requires Valid()
      modifies this, release, release.admission
      ensures Valid() && closed
      ensures old(closed) ==>
                release.admission.global == old(release.admission.global)
                && release.admission.domains == old(release.admission.domains)
      ensures !old(closed) ==>
                release.admission.global == old(release.admission.global) - 1
                && var domains := old(release.admission.domains);
                   release.admission.domains == domains[release.domain := domains[release.domain] - 1]
    {
      if !closed {
        closed := true;
        release.Run();
      }
    }
  }

  datatype Outcomes = Outcomes(
    arguments: bool,
    policy: bool,
    request: bool,
    budget: bool,
    globalInTime: bool,
    domainInTime: bool,
    transport: bool,
    credential: bool,
    answer: I.Answer,
    asked: B.Time,
    answered: B.Time)

  /** What one call adds to the history of its breaker: nothing, a refusal, or an admission and its one settlement. */
  ghost predicate Settled(added: B.History, dispatched: bool, o: Outcomes) {
    || added == []
    || added == [B.Allow(o.asked, false)]
    || added == [B.Allow(o.asked, true),
                 if !dispatched then B.Ignore
                 else if I.IsFailure(o.answer) then B.Failure(o.answered)
                 else B.Success]
  }

  /** What `h` has beyond `before`. */
  ghost function Added(before: B.History, h: B.History): B.History
    requires |before| <= |h|
  {
    h[|before|..]
  }

  /** The part of the invocation between admission and release. */
  method CallUpstream(breaker: B.Breaker, o: Outcomes) returns (dispatched: bool)
    requires breaker.Valid()
    modifies breaker
    ensures breaker.Valid() && old(breaker.history) <= breaker.history
    ensures Settled(Added(old(breaker.history), breaker.history), dispatched, o)
    ensures dispatched <==>
              && o.transport && o.credential
              && B.ShouldAdmit(old(breaker.history), breaker.threshold, breaker.cooldown, o.asked)
  {
    if !o.transport {
      return false;
    }
    var allowed, _ := breaker.Allow(o.asked);
    if !allowed {
      return false;
    }
    if !o.credential {
      breaker.Ignore();
      return false;
    }
    dispatched := true;
    if I.IsFailure(o.answer) {
      breaker.Failure(o.answered);
    } else {
      breaker.Success();
    }
  }

  method InvokeOnce(admission: Admission, breaker: B.Breaker, d: I.Domain, o: Outcomes)
    returns (body: Option<ReleaseBody>, dispatched: bool)
    requires admission.Valid() && breaker.Valid()
    modifies admission, breaker
    ensures admission.Valid() && breaker.Valid()
    ensures old(breaker.history) <= breaker.history
    ensures Settled(Added(old(breaker.history), breaker.history), dispatched, o)
    ensures dispatched <==>
              && o.arguments && o.policy && o.request && o.budget && d < |admission.domains|
              && o.globalInTime && old(admission.global) < admission.globalCap
              && o.domainInTime && old(admission.domains[d]) < admission.domainCaps[d]
              && o.transport && o.credential
              && B.ShouldAdmit(old(breaker.history), breaker.threshold, breaker.cooldown, o.asked)
    ensures body.Some? <==> dispatched && I.IsSuccess(o.answer)
    ensures body.None? ==> admission.global == old(admission.global) && admission.domains == old(admission.domains)
    ensures body.Some? ==>
              && fresh(body.value) && fresh(body.value.release)
              && body.value.Valid() && !body.value.closed
              && body.value.release.admission == admission && body.value.release.domain == d
              && admission.global == old(admission.global) + 1
              && admission.domains == old(admission.domains)[d := old(admission.domains[d]) + 1]
  {
    body, dispatched := None, false;
    if !o.arguments || !o.policy || !o.request {
      return;
    }
    var release := admission.Acquire(d, o.budget, o.globalInTime, o.domainInTime);
    if release.None? {
      return;
    }
    var releaseOnReturn := true;
    dispatched := CallUpstream(breaker, o);
    if dispatched && I.IsSuccess(o.answer) {
      releaseOnReturn := false;
      var response := new ReleaseBody(release.value);
      body := Some(response);
    }
    if releaseOnReturn {
      release.value.Run();
    }
  }
}
