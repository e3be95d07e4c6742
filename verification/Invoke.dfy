/**
 `Service.Invoke` with its admission slots and circuit breakers, as a state machine.
 Any number of invocations run at once; each channel operation, breaker call, upstream
 dispatch and body close is one action, so that a run is an arbitrary interleaving.
 */
module Invoke {
  import opened Options
  import B = Breakers

  type CallId = nat
  type Domain = nat
  type Endpoint = nat

  datatype Check = Arguments | Policy | Request | Budget | GlobalSlot | DomainSlot | Transport | Circuit | Credential

  /** Every check that stands between a caller and the upstream. */
  const ALL_CHECKS: set<Check> :=
    {Arguments, Policy, Request, Budget, GlobalSlot, DomainSlot, Transport, Circuit, Credential}

  datatype Answer = Unreachable | Status(code: int)

  datatype Verdict = Ignored | Failed | Succeeded

  datatype Place =
    | Started
    | Validated
    | Permitted
    | Built
    | Budgeted
    | HasGlobal
    | GivingBack
    | Admitted
    | Connected
    | Allowed
    | Authorized
    | InFlight
    | Settled
    | Delivered
    | ReleasingDomain
    | ReleasingGlobal
    | Returned

  /** One invocation, with what has happened to it so far. */
  datatype Call = Call(
    domain: Domain,
    endpoint: Endpoint,
    place: Place,
    passed: set<Check>,
    admitted: nat,
    verdicts: seq<Verdict>,
    dispatches: nat,
    answer: Option<Answer>,
    body: bool)

  datatype Action =
    | CheckArguments(ok: bool)
    | CheckPolicy(ok: bool)
    | BuildRequest(ok: bool)
    | CheckBudget(ok: bool)
    | TakeGlobal
    | TakeDomain
    | QueueTimeout
    | PutDomain
    | PutGlobal
    | Connect(ok: bool)
    | AskBreaker(now: B.Time)
    | Authorize(ok: bool)
    | Dispatch
    | Settle(answer: Answer, now: B.Time)
    | Finish
    | CloseBody

  function NewCall(d: Domain, e: Endpoint): Call {
    Call(d, e, Started, {}, 0, [], 0, None, false)
  }

  /** The deferred release of an invocation that returns an error after admission. */
  function Leave(c: Call): Call {
    c.(place := ReleasingDomain)
  }

  function Pass(c: Call, check: Check, next: Place): Call {
    c.(place := next, passed := c.passed + {check})
  }

  predicate IsFailure(answer: Answer) {
    answer.Unreachable? || answer.code >= 500
  }

  predicate IsSuccess(answer: Answer) {
    answer.Status? && 200 <= answer.code < 300
  }

  /** The program of one invocation: what action `a` makes of it when its breaker is in state `b`. */
  function CallNext(c: Call, a: Action, b: B.Fields): Option<Call> {
    match a
    case CheckArguments(ok) =>
      if c.place != Started then None
      else Some(if ok then Pass(c, Arguments, Validated) else c.(place := Returned))
    case CheckPolicy(ok) =>
      if c.place != Validated then None
      else Some(if ok then Pass(c, Policy, Permitted) else c.(place := Returned))
    case BuildRequest(ok) =>
      if c.place != Permitted then None
      else Some(if ok then Pass(c, Request, Built) else c.(place := Returned))
    case CheckBudget(ok) =>
      if c.place != Built then None
      else Some(if ok then Pass(c, Budget, Budgeted) else c.(place := Returned))
    case TakeGlobal =>
      if c.place != Budgeted then None else Some(Pass(c, GlobalSlot, HasGlobal))
    case TakeDomain =>
      if c.place != HasGlobal then None else Some(Pass(c, DomainSlot, Admitted))
    case QueueTimeout =>
      if c.place == Budgeted then Some(c.(place := Returned))
      else if c.place == HasGlobal then Some(c.(place := GivingBack))
      else None
    case PutDomain =>
      if c.place != ReleasingDomain then None else Some(c.(place := ReleasingGlobal))
    case PutGlobal =>
      if c.place != GivingBack && c.place != ReleasingGlobal then None else Some(c.(place := Returned))
    case Connect(ok) =>
      if c.place != Admitted then None
      else Some(if ok then Pass(c, Transport, Connected) else Leave(c))
    case AskBreaker(now) =>
      if c.place != Connected then None
      else if B.Admits(b, now) then Some(Pass(c, Circuit, Allowed).(admitted := c.admitted + 1))
      else Some(Leave(c))
    case Authorize(ok) =>
      if c.place != Allowed then None
      else if ok then Some(Pass(c, Credential, Authorized))
      else Some(Leave(c).(verdicts := c.verdicts + [Ignored]))
    case Dispatch =>
      if c.place != Authorized then None else Some(c.(place := InFlight, dispatches := c.dispatches + 1))
    case Settle(answer, now) =>
      if c.place != InFlight then None
      else
        var verdict := if IsFailure(answer) then Failed else Succeeded;
        Some(c.(place := if answer.Unreachable? then ReleasingDomain else Settled,
                verdicts := c.verdicts + [verdict], answer := Some(answer)))
    case Finish =>
      if c.place != Settled || c.answer.None? then None
      else if IsSuccess(c.answer.value) then Some(c.(place := Delivered, body := true))
      else Some(Leave(c))
    case CloseBody =>
      // The body may be closed any number of times; only the first close releases.
      if !c.body then None
      else if c.place == Delivered then Some(Leave(c))
      else Some(c)
  }

  /** What the action does to the breaker of the invocation's endpoint. */
  function BreakerNext(a: Action, b: B.Fields): B.Fields {
    match a
    case AskBreaker(now) => B.Allowed(b, now)
    case Authorize(ok) => if ok then b else B.Ignored(b)
    case Settle(answer, now) => if IsFailure(answer) then B.Failed(b, now) else B.Succeeded(b)
    case _ => b
  }

  /** Sending on the global channel blocks when it is full, receiving when it is empty. */
  function GlobalNext(used: nat, cap: nat, a: Action): Option<nat> {
    if a.TakeGlobal? then if used < cap then Some(used + 1) else None
    else if a.PutGlobal? then if used > 0 then Some(used - 1) else None
    else Some(used)
  }

  function DomainsNext(used: seq<nat>, caps: seq<nat>, d: Domain, a: Action): Option<seq<nat>>
    requires |used| == |caps|
  {
    if a.TakeDomain? then if d < |used| && used[d] < caps[d] then Some(used[d := used[d] + 1]) else None
    else if a.PutDomain? then if d < |used| && used[d] > 0 then Some(used[d := used[d] - 1]) else None
    else Some(used)
  }

  // ---------------------------------------------------------------------------
  // The whole service
  // ---------------------------------------------------------------------------

  datatype Config = Config(globalCap: nat, domainCaps: seq<nat>)

  datatype State = State(
    global: nat,
    domains: seq<nat>,
    breakers: map<Endpoint, B.Fields>,
    calls: map<CallId, Call>)

  datatype Step =
    | Begin(call: CallId, domain: Domain, endpoint: Endpoint)
    | Do(call: CallId, action: Action)

  function Init(cfg: Config): State {
    State(0, seq(|cfg.domainCaps|, _ => 0), map[], map[])
  }

  const FRESH_BREAKER: B.Fields := B.New(5, 30_000_000_000)

  /** Breakers are created on first use, closed. */
  function BreakerOf(breakers: map<Endpoint, B.Fields>, e: Endpoint): B.Fields {
    if e in breakers then breakers[e] else FRESH_BREAKER
  }

  function Next(cfg: Config, s: State, step: Step): Option<State>
    requires |s.domains| == |cfg.domainCaps|
  {
    match step
    case Begin(i, d, e) =>
      if i in s.calls then None else Some(s.(calls := s.calls[i := NewCall(d, e)]))
    case Do(i, a) =>
      if i !in s.calls then None
      else
        var c := s.calls[i];
        var b := BreakerOf(s.breakers, c.endpoint);
        // A domain without admission state is refused where the budget is checked.
        if a == CheckBudget(true) && c.domain >= |s.domains| then None
        else
          var call := CallNext(c, a, b);
          var global := GlobalNext(s.global, cfg.globalCap, a);
          var domains := DomainsNext(s.domains, cfg.domainCaps, c.domain, a);
          if call.None? || global.None? || domains.None? then None
          else Some(State(global.value, domains.value, s.breakers[c.endpoint := BreakerNext(a, b)],
                          s.calls[i := call.value]))
  }

  // ---------------------------------------------------------------------------
  // What one invocation has been through, read off its place
  // ---------------------------------------------------------------------------

  predicate HoldsDomain(p: Place) {
    p.Admitted? || p.Connected? || p.Allowed? || p.Authorized? || p.InFlight? || p.Settled? || p.Delivered?
    || p.ReleasingDomain?
  }

  /** Between the two waits, or between the two halves of a release. */
  predicate HoldsOnlyGlobal(p: Place) {
    p.HasGlobal? || p.GivingBack? || p.ReleasingGlobal?
  }

  predicate HoldsGlobal(p: Place) {
    HoldsDomain(p) || HoldsOnlyGlobal(p)
  }

  predicate Unsettled(p: Place) {
    p.Allowed? || p.Authorized? || p.InFlight?
  }

  /** The verdict the breaker is owed, given what the upstream answered. */
  function VerdictFor(answer: Option<Answer>): Verdict {
    if answer.None? then Ignored else if IsFailure(answer.value) then Failed else Succeeded
  }

  ghost predicate SettlementOk(c: Call) {
    && c.admitted <= 1
    && |c.verdicts| == (if Unsettled(c.place) then 0 else c.admitted)
    && (Unsettled(c.place) ==> c.admitted == 1)
    && (c.admitted == 1 <==> Circuit in c.passed)
    && (|c.verdicts| == 1 ==> c.verdicts[0] == VerdictFor(c.answer))
  }

  ghost predicate DispatchOk(c: Call) {
    && c.dispatches <= 1
    && (c.dispatches == 1 ==> c.passed == ALL_CHECKS)
    && (c.answer.Some? ==> c.dispatches == 1)
    && (c.body ==> c.answer.Some? && IsSuccess(c.answer.value))
    && (c.dispatches == 0 ==> !c.place.InFlight? && !c.place.Settled? && !c.place.Delivered?)
    && (c.place == InFlight ==> c.answer.None?)
    && (c.place == Settled ==> c.answer.Some?)
    && (c.place == Delivered ==> c.body)
    && (c.body ==> c.place.Delivered? || c.place.ReleasingDomain? || c.place.ReleasingGlobal? || c.place.Returned?)
  }

  ghost predicate PlaceOk(c: Call) {
    && (c.place == Started ==> c.passed == {})
    && (c.place == Validated ==> c.passed == {Arguments})
    && (c.place == Permitted ==> c.passed == {Arguments, Policy})
    && (c.place == Built ==> c.passed == {Arguments, Policy, Request})
    && (c.place == Budgeted ==> c.passed == {Arguments, Policy, Request, Budget})
    && (c.place == HasGlobal ==> c.passed == {Arguments, Policy, Request, Budget, GlobalSlot})
    && (c.place == Admitted ==> c.passed == {Arguments, Policy, Request, Budget, GlobalSlot, DomainSlot})
    && (c.place == Connected ==> c.passed == ALL_CHECKS - {Circuit, Credential})
    && (c.place == Allowed ==> c.passed == ALL_CHECKS - {Credential})
    && (c.place == Authorized ==> c.passed == ALL_CHECKS && c.dispatches == 0)
    && (c.place.ReleasingDomain? ==> Budget in c.passed)
    && (c.place.InFlight? || c.place.Settled? || c.place.Delivered? ==> c.dispatches == 1)
  }

  ghost predicate CallOk(c: Call) {
    SettlementOk(c) && DispatchOk(c) && PlaceOk(c)
  }

  lemma CallNextKeepsOk(c: Call, a: Action, b: B.Fields)
    requires CallOk(c) && CallNext(c, a, b).Some?
    ensures CallOk(CallNext(c, a, b).value)
  {
    CallNextKeepsSettlement(c, a, b);
    CallNextKeepsDispatch(c, a, b);
    CallNextKeepsPlace(c, a, b);
  }

  /** The actions up to and including admission. */
  predicate IsAdmission(a: Action) {
    || a.CheckArguments? || a.CheckPolicy? || a.BuildRequest? || a.CheckBudget?
    || a.TakeGlobal? || a.TakeDomain? || a.QueueTimeout?
  }

  lemma CallNextKeepsPlace(c: Call, a: Action, b: B.Fields)
    requires CallOk(c) && CallNext(c, a, b).Some?
    ensures PlaceOk(CallNext(c, a, b).value)
  {
    if IsAdmission(a) {
      AdmissionKeepsPlace(c, a, b);
    } else {
      ExecutionKeepsPlace(c, a, b);
    }
  }

  lemma AdmissionKeepsPlace(c: Call, a: Action, b: B.Fields)
    requires PlaceOk(c) && IsAdmission(a) && CallNext(c, a, b).Some?
    ensures PlaceOk(CallNext(c, a, b).value)
  {
  }

  lemma ExecutionKeepsPlace(c: Call, a: Action, b: B.Fields)
    requires PlaceOk(c) && DispatchOk(c) && !IsAdmission(a) && CallNext(c, a, b).Some?
    ensures PlaceOk(CallNext(c, a, b).value)
  {
  }

  lemma CallNextKeepsSettlement(c: Call, a: Action, b: B.Fields)
    requires CallOk(c) && CallNext(c, a, b).Some?
    ensures SettlementOk(CallNext(c, a, b).value)
  {
  }

  lemma CallNextKeepsDispatch(c: Call, a: Action, b: B.Fields)
    requires CallOk(c) && CallNext(c, a, b).Some?
    ensures DispatchOk(CallNext(c, a, b).value)
  {
  }

  // ---------------------------------------------------------------------------
  // Slots
  // ---------------------------------------------------------------------------

  type Calls = map<CallId, Call>

  ghost function GlobalHolders(calls: Calls): set<CallId> {
    set i | i in calls && HoldsGlobal(calls[i].place)
  }

  ghost function DomainHolders(calls: Calls, d: Domain): set<CallId> {
    set i | i in calls && calls[i].domain == d && HoldsDomain(calls[i].place)
  }

  ghost function Between(calls: Calls): set<CallId> {
    set i | i in calls && HoldsOnlyGlobal(calls[i].place)
  }

  function Sum(used: seq<nat>): nat {
    if used == [] then 0 else used[0] + Sum(used[1..])
  }

  lemma {:induction false} SumUpdate(used: seq<nat>, d: nat, v: nat)
    requires d < |used|
    ensures Sum(used[d := v]) == Sum(used) - used[d] + v
  {
    if d > 0 {
      SumUpdate(used[1..], d - 1, v);
      assert used[d := v][1..] == used[1..][d - 1 := v];
    } else {
      assert used[d := v][1..] == used[1..];
    }
  }

  lemma {:induction false} SumOfZeros(used: seq<nat>)
    requires forall d | 0 <= d < |used| :: used[d] == 0
    ensures Sum(used) == 0
  {
    if used != [] {
      SumOfZeros(used[1..]);
    }
  }

  ghost predicate SlotsOk(global: nat, domains: seq<nat>, calls: Calls) {
    && global == |GlobalHolders(calls)|
    && (forall d | 0 <= d < |domains| :: domains[d] == |DomainHolders(calls, d)|)
    && global == Sum(domains) + |Between(calls)|
  }

  ghost predicate CapsOk(cfg: Config, global: nat, domains: seq<nat>) {
    && global <= cfg.globalCap
    && |domains| == |cfg.domainCaps|
    && forall d | 0 <= d < |domains| :: domains[d] <= cfg.domainCaps[d]
  }

  ghost predicate CallsOk(calls: Calls, n: nat) {
    forall i | i in calls :: CallOk(calls[i]) && (Budget in calls[i].passed ==> calls[i].domain < n)
  }

  function Bit(b: bool): int {
    if b then 1 else 0
  }

  lemma MoveInSet(before: set<CallId>, after: set<CallId>, i: CallId)
    requires forall j | j != i :: j in before <==> j in after
    ensures |after| == |before| - Bit(i in before) + Bit(i in after)
  {
    var rest := before - {i};
    assert before == rest + (if i in before then {i} else {});
    assert after == rest + (if i in after then {i} else {});
  }

  /** An action takes and returns exactly the slots its place accounts for. */
  lemma CallNextMovesSlots(c: Call, a: Action, b: B.Fields)
    requires CallNext(c, a, b).Some?
    ensures var p, q := c.place, CallNext(c, a, b).value.place;
            && Bit(HoldsGlobal(q)) == Bit(HoldsGlobal(p)) + Bit(a.TakeGlobal?) - Bit(a.PutGlobal?)
            && Bit(HoldsDomain(q)) == Bit(HoldsDomain(p)) + Bit(a.TakeDomain?) - Bit(a.PutDomain?)
    ensures var next := CallNext(c, a, b).value;
            && next.domain == c.domain && next.endpoint == c.endpoint && c.passed <= next.passed
            && (Budget in next.passed ==> Budget in c.passed || a == CheckBudget(true))
  {
  }

  lemma GlobalHoldersMove(calls: Calls, i: CallId, c: Call)
    requires i in calls
    ensures |GlobalHolders(calls[i := c])|
            == |GlobalHolders(calls)| - Bit(HoldsGlobal(calls[i].place)) + Bit(HoldsGlobal(c.place))
  {
    MoveInSet(GlobalHolders(calls), GlobalHolders(calls[i := c]), i);
  }

  lemma BetweenMoves(calls: Calls, i: CallId, c: Call)
    requires i in calls
    ensures |Between(calls[i := c])|
            == |Between(calls)| - Bit(HoldsOnlyGlobal(calls[i].place)) + Bit(HoldsOnlyGlobal(c.place))
  {
    MoveInSet(Between(calls), Between(calls[i := c]), i);
  }

  lemma DomainHoldersMove(calls: Calls, i: CallId, c: Call, d: Domain)
    requires i in calls && calls[i].domain == c.domain
    ensures var next := calls[i := c];
            |DomainHolders(next, d)| == |DomainHolders(calls, d)|
            + (if d == c.domain then Bit(HoldsDomain(c.place)) - Bit(HoldsDomain(calls[i].place)) else 0)
  {
    var next := calls[i := c];
    if d == c.domain {
      MoveInSet(DomainHolders(calls, d), DomainHolders(next, d), i);
    } else {
      assert DomainHolders(next, d) == DomainHolders(calls, d);
    }
  }

  lemma DomainsNextSum(used: seq<nat>, caps: seq<nat>, d: Domain, a: Action)
    requires |used| == |caps| && DomainsNext(used, caps, d, a).Some?
    ensures var after := DomainsNext(used, caps, d, a).value;
            && |after| == |used|
            && Sum(after) == Sum(used) + Bit(a.TakeDomain?) - Bit(a.PutDomain?)
            && forall k | 0 <= k < |used| ::
                 after[k] == used[k] + (if k == d then Bit(a.TakeDomain?) - Bit(a.PutDomain?) else 0)
  {
    if a.TakeDomain? {
      SumUpdate(used, d, used[d] + 1);
    } else if a.PutDomain? {
      SumUpdate(used, d, used[d] - 1);
    }
  }

  lemma DoKeepsSlots(cfg: Config, global: nat, domains: seq<nat>, calls: Calls, i: CallId, a: Action, b: B.Fields)
    requires SlotsOk(global, domains, calls) && CapsOk(cfg, global, domains) && i in calls
    requires CallNext(calls[i], a, b).Some? && GlobalNext(global, cfg.globalCap, a).Some?
    requires DomainsNext(domains, cfg.domainCaps, calls[i].domain, a).Some?
    ensures var global' := GlobalNext(global, cfg.globalCap, a).value;
            var domains' := DomainsNext(domains, cfg.domainCaps, calls[i].domain, a).value;
            SlotsOk(global', domains', calls[i := CallNext(calls[i], a, b).value]) && CapsOk(cfg, global', domains')
  {
    var c := CallNext(calls[i], a, b).value;
    var after := DomainsNext(domains, cfg.domainCaps, calls[i].domain, a).value;
    CallNextMovesSlots(calls[i], a, b);
    GlobalHoldersMove(calls, i, c);
    BetweenMoves(calls, i, c);
    DomainsNextSum(domains, cfg.domainCaps, calls[i].domain, a);
    forall d | 0 <= d < |after|
      ensures after[d] == |DomainHolders(calls[i := c], d)| && after[d] <= cfg.domainCaps[d]
    {
      DomainHoldersMove(calls, i, c, d);
    }
  }

  lemma BeginKeepsSlots(global: nat, domains: seq<nat>, calls: Calls, i: CallId, d: Domain, e: Endpoint)
    requires SlotsOk(global, domains, calls) && i !in calls
    ensures SlotsOk(global, domains, calls[i := NewCall(d, e)])
  {
    var next := calls[i := NewCall(d, e)];
    assert GlobalHolders(next) == GlobalHolders(calls);
    assert Between(next) == Between(calls);
    forall k | 0 <= k < |domains|
      ensures domains[k] == |DomainHolders(next, k)|
    {
      assert DomainHolders(next, k) == DomainHolders(calls, k);
    }
  }

  // ---------------------------------------------------------------------------
  // Probes
  // ---------------------------------------------------------------------------

  /** `i` is an invocation on endpoint `e` whose admission the breaker has not seen settled. */
  ghost predicate Owes(calls: Calls, i: CallId, e: Endpoint) {
    i in calls && calls[i].endpoint == e && Unsettled(calls[i].place)
  }

  ghost predicate ProbesOk(breakers: map<Endpoint, B.Fields>, calls: Calls) {
    forall e | e in breakers && breakers[e].probing :: exists i :: Owes(calls, i, e)
  }

  lemma CallNextSettles(c: Call, a: Action, b: B.Fields)
    requires CallNext(c, a, b).Some?
    ensures var p, q, after := c.place, CallNext(c, a, b).value.place, BreakerNext(a, b);
            && (after.probing ==> b.probing || Unsettled(q))
            && (Unsettled(p) && !Unsettled(q) ==> !after.probing)
  {
  }

  lemma DoKeepsProbes(breakers: map<Endpoint, B.Fields>, calls: Calls, i: CallId, a: Action)
    requires ProbesOk(breakers, calls) && i in calls
    requires CallNext(calls[i], a, BreakerOf(breakers, calls[i].endpoint)).Some?
    ensures var e := calls[i].endpoint;
            var b := BreakerOf(breakers, e);
            ProbesOk(breakers[e := BreakerNext(a, b)], calls[i := CallNext(calls[i], a, b).value])
  {
    var mine := calls[i].endpoint;
    var b := BreakerOf(breakers, mine);
    var c := CallNext(calls[i], a, b).value;
    var breakers', calls' := breakers[mine := BreakerNext(a, b)], calls[i := c];
    CallNextMovesSlots(calls[i], a, b);
    CallNextSettles(calls[i], a, b);
    forall e | e in breakers' && breakers'[e].probing
      ensures exists j :: Owes(calls', j, e)
    {
      if e == mine && Unsettled(c.place) {
        assert Owes(calls', i, e);
      } else {
        var j :| Owes(calls, j, e);
        assert Owes(calls', j, e);
      }
    }
  }

  // ---------------------------------------------------------------------------
  // Runs
  // ---------------------------------------------------------------------------

  ghost predicate Inv(cfg: Config, s: State) {
    && CapsOk(cfg, s.global, s.domains)
    && SlotsOk(s.global, s.domains, s.calls)
    && CallsOk(s.calls, |s.domains|)
    && ProbesOk(s.breakers, s.calls)
  }

  lemma InitHasInv(cfg: Config)
    ensures Inv(cfg, Init(cfg))
  {
    var s := Init(cfg);
    SumOfZeros(s.domains);
    assert GlobalHolders(s.calls) == {} && Between(s.calls) == {};
    forall d | 0 <= d < |s.domains|
      ensures s.domains[d] == |DomainHolders(s.calls, d)|
    {
      assert DomainHolders(s.calls, d) == {};
    }
  }

  lemma DoKeepsCalls(calls: Calls, n: nat, i: CallId, a: Action, b: B.Fields)
    requires CallsOk(calls, n) && i in calls && CallNext(calls[i], a, b).Some?
    requires a == CheckBudget(true) ==> calls[i].domain < n
    ensures CallsOk(calls[i := CallNext(calls[i], a, b).value], n)
  {
    CallNextKeepsOk(calls[i], a, b);
    CallNextMovesSlots(calls[i], a, b);
  }

  lemma StepKeepsInv(cfg: Config, s: State, step: Step)
    requires Inv(cfg, s) && Next(cfg, s, step).Some?
    ensures Inv(cfg, Next(cfg, s, step).value)
  {
    match step
    case Begin(i, d, e) => BeginKeepsInv(cfg, s, i, d, e);
    case Do(i, a) => DoKeepsInv(cfg, s, i, a);
  }

  lemma BeginKeepsInv(cfg: Config, s: State, i: CallId, d: Domain, e: Endpoint)
    requires Inv(cfg, s) && i !in s.calls
    ensures Inv(cfg, s.(calls := s.calls[i := NewCall(d, e)]))
  {
    BeginKeepsSlots(s.global, s.domains, s.calls, i, d, e);
    var next := s.calls[i := NewCall(d, e)];
    forall h | h in s.breakers && s.breakers[h].probing
      ensures exists j :: Owes(next, j, h)
    {
      var j :| Owes(s.calls, j, h);
      assert Owes(next, j, h);
    }
  }

  lemma DoKeepsInv(cfg: Config, s: State, i: CallId, a: Action)
    requires Inv(cfg, s) && Next(cfg, s, Do(i, a)).Some?
    ensures Inv(cfg, Next(cfg, s, Do(i, a)).value)
  {
    var b := BreakerOf(s.breakers, s.calls[i].endpoint);
    DoKeepsSlots(cfg, s.global, s.domains, s.calls, i, a, b);
    DoKeepsCalls(s.calls, |s.domains|, i, a, b);
    DoKeepsProbes(s.breakers, s.calls, i, a);
  }

  ghost predicate IsRun(cfg: Config, run: seq<State>, steps: seq<Step>) {
    && |run| == |steps| + 1
    && run[0] == Init(cfg)
    && (forall k | 0 <= k < |run| :: |run[k].domains| == |cfg.domainCaps|)
    && forall k | 0 <= k < |steps| :: Next(cfg, run[k], steps[k]) == Some(run[k + 1])
  }

  lemma {:induction false} RunKeepsInv(cfg: Config, run: seq<State>, steps: seq<Step>, k: nat)
    requires IsRun(cfg, run, steps) && k < |run|
    ensures Inv(cfg, run[k])
  {
    if k == 0 {
      InitHasInv(cfg);
    } else {
      RunKeepsInv(cfg, run, steps, k - 1);
      assert Next(cfg, run[k - 1], steps[k - 1]) == Some(run[k - 1 + 1]);
      StepKeepsInv(cfg, run[k - 1], steps[k - 1]);
    }
  }

  /**
   In every reachable state: slots in use are exactly those of the invocations holding
   them, the global count is the sum of the domain counts plus the callers between the two
   waits or mid-release, and neither limit is exceeded.
   */
  lemma SlotConservation(cfg: Config, run: seq<State>, steps: seq<Step>, k: nat)
    requires IsRun(cfg, run, steps) && k < |run|
    ensures var s := run[k];
            && s.global == Sum(s.domains) + |Between(s.calls)|
            && s.global == |GlobalHolders(s.calls)| <= cfg.globalCap
            && forall d | 0 <= d < |s.domains| :: s.domains[d] == |DomainHolders(s.calls, d)| <= cfg.domainCaps[d]
  {
    RunKeepsInv(cfg, run, steps, k);
  }

  lemma GlobalHolderIsCounted(global: nat, domains: seq<nat>, calls: Calls, i: CallId)
    requires SlotsOk(global, domains, calls) && i in calls && HoldsGlobal(calls[i].place)
    ensures global > 0
  {
    assert i in GlobalHolders(calls);
  }

  lemma DomainHolderIsCounted(global: nat, domains: seq<nat>, calls: Calls, i: CallId)
    requires SlotsOk(global, domains, calls) && i in calls && HoldsDomain(calls[i].place)
    requires calls[i].domain < |domains|
    ensures domains[calls[i].domain] > 0
  {
    assert i in DomainHolders(calls, calls[i].domain);
  }

  /** A repeated close of a response body frees nothing. */
  lemma RepeatedCloseFreesNothing(cfg: Config, s: State, i: CallId)
    requires |s.domains| == |cfg.domainCaps| && i in s.calls && s.calls[i].body && s.calls[i].place != Delivered
    ensures var next := Next(cfg, s, Do(i, CloseBody));
            && next.Some? && next.value.calls == s.calls
            && next.value.global == s.global && next.value.domains == s.domains
  {
    var b := BreakerOf(s.breakers, s.calls[i].endpoint);
    assert CallNext(s.calls[i], CloseBody, b) == Some(s.calls[i]);
    assert s.calls[i := s.calls[i]] == s.calls;
  }

  /** A release never blocks: whoever has a slot to return can return it at once. */
  lemma ReleaseNeverBlocks(cfg: Config, run: seq<State>, steps: seq<Step>, k: nat, i: CallId)
    requires IsRun(cfg, run, steps) && k < |run| && i in run[k].calls
    ensures run[k].calls[i].place == ReleasingDomain ==> Next(cfg, run[k], Do(i, PutDomain)).Some?
    ensures run[k].calls[i].place.ReleasingGlobal? || run[k].calls[i].place.GivingBack? ==>
              Next(cfg, run[k], Do(i, PutGlobal)).Some?
  {
    RunKeepsInv(cfg, run, steps, k);
    CanPut(cfg, run[k], i);
  }

  lemma CanDo(cfg: Config, s: State, i: CallId, a: Action)
    requires |s.domains| == |cfg.domainCaps| && i in s.calls && a != CheckBudget(true)
    requires CallNext(s.calls[i], a, BreakerOf(s.breakers, s.calls[i].endpoint)).Some?
    requires GlobalNext(s.global, cfg.globalCap, a).Some?
    requires DomainsNext(s.domains, cfg.domainCaps, s.calls[i].domain, a).Some?
    ensures Next(cfg, s, Do(i, a)).Some?
  {
  }

  lemma CanPut(cfg: Config, s: State, i: CallId)
    requires Inv(cfg, s) && i in s.calls
    ensures s.calls[i].place.ReleasingDomain? ==> Next(cfg, s, Do(i, PutDomain)).Some?
    ensures s.calls[i].place.ReleasingGlobal? || s.calls[i].place.GivingBack? ==> Next(cfg, s, Do(i, PutGlobal)).Some?
  {
    var c := s.calls[i];
    if c.place.ReleasingDomain? {
      assert CallOk(c);
      DomainHolderIsCounted(s.global, s.domains, s.calls, i);
      CanPutDomain(cfg, s, i);
    } else if c.place.ReleasingGlobal? || c.place.GivingBack? {
      GlobalHolderIsCounted(s.global, s.domains, s.calls, i);
      CanPutGlobal(cfg, s, i);
    }
  }

  lemma CanPutDomain(cfg: Config, s: State, i: CallId)
    requires |s.domains| == |cfg.domainCaps| && i in s.calls && s.calls[i].place.ReleasingDomain?
    requires s.calls[i].domain < |s.domains| && s.domains[s.calls[i].domain] > 0
    ensures Next(cfg, s, Do(i, PutDomain)).Some?
  {
    CanDo(cfg, s, i, PutDomain);
  }

  lemma CanPutGlobal(cfg: Config, s: State, i: CallId)
    requires |s.domains| == |cfg.domainCaps| && i in s.calls && s.global > 0
    requires s.calls[i].place.ReleasingGlobal? || s.calls[i].place.GivingBack?
    ensures Next(cfg, s, Do(i, PutGlobal)).Some?
  {
    CanDo(cfg, s, i, PutGlobal);
  }

  /**
   On every path: at most one dispatch, and only after every check passed; an admitted
   call gets exactly one verdict, the one its answer calls for, and has it by the time
   the invocation starts to leave.
   */
  lemma OneDispatchOneVerdict(cfg: Config, run: seq<State>, steps: seq<Step>, k: nat, i: CallId)
    requires IsRun(cfg, run, steps) && k < |run| && i in run[k].calls
    ensures var c := run[k].calls[i];
            && c.dispatches <= 1
            && (c.dispatches == 1 ==> c.passed == ALL_CHECKS)
            && c.admitted <= 1
            && (c.admitted == 1 <==> Circuit in c.passed)
            && (c.verdicts == (if c.admitted == 0 || Unsettled(c.place) then [] else [VerdictFor(c.answer)]))
            && (c.answer.Some? ==> c.dispatches == 1)
            && (c.body ==> c.answer.Some? && IsSuccess(c.answer.value))
  {
    RunKeepsInv(cfg, run, steps, k);
    var c := run[k].calls[i];
    assert CallOk(c);
    assert c.verdicts == if |c.verdicts| == 0 then [] else [c.verdicts[0]];
  }

  /** Nothing is running and no response body is open. */
  ghost predicate Quiet(calls: Calls) {
    forall i | i in calls :: calls[i].place == Returned
  }

  /**
   Once every invocation has returned and every body is closed, all slots are free and no
   breaker is left waiting for a probe: after its cooldown each one admits again.
   */
  lemma QuietStateIsClean(cfg: Config, run: seq<State>, steps: seq<Step>, k: nat, e: Endpoint, now: B.Time)
    requires IsRun(cfg, run, steps) && k < |run| && Quiet(run[k].calls)
    ensures run[k].global == 0 && forall d | 0 <= d < |run[k].domains| :: run[k].domains[d] == 0
    ensures var b := BreakerOf(run[k].breakers, e);
            !b.probing && (b.openUntil.None? || b.openUntil.value <= now ==> B.Admits(b, now))
    ensures forall i | i in run[k].calls :: |run[k].calls[i].verdicts| == run[k].calls[i].admitted
  {
    RunKeepsInv(cfg, run, steps, k);
    var s := run[k];
    assert GlobalHolders(s.calls) == {};
    forall d | 0 <= d < |s.domains|
      ensures s.domains[d] == 0
    {
      assert DomainHolders(s.calls, d) == {};
    }
  }

  /** What invocation `i` can always do next, without waiting for any other. */
  function WayOut(c: Call): Action {
    match c.place
    case Started => CheckArguments(false)
    case Validated => CheckPolicy(false)
    case Permitted => BuildRequest(false)
    case Built => CheckBudget(false)
    case Budgeted => QueueTimeout
    case HasGlobal => QueueTimeout
    case GivingBack => PutGlobal
    case Admitted => Connect(true)
    case Connected => AskBreaker(0)
    case Allowed => Authorize(true)
    case Authorized => Dispatch
    case InFlight => Settle(Unreachable, 0)
    case Settled => Finish
    case Delivered => CloseBody
    case ReleasingDomain => PutDomain
    case ReleasingGlobal => PutGlobal
    case Returned => CloseBody
  }

  /** How far an invocation is from having returned everything. */
  function Distance(p: Place): nat {
    match p
    case Started => 15 case Validated => 14 case Permitted => 13 case Built => 12 case Budgeted => 11
    case HasGlobal => 10 case GivingBack => 1 case Admitted => 9 case Connected => 8 case Allowed => 7
    case Authorized => 6 case InFlight => 5 case Settled => 4 case Delivered => 3
    case ReleasingDomain => 2 case ReleasingGlobal => 1 case Returned => 0
  }

  /** No invocation is ever stuck on another: each can move, and every move but a repeated close is progress. */
  lemma NoInvocationIsStuck(cfg: Config, run: seq<State>, steps: seq<Step>, k: nat, i: CallId)
    requires IsRun(cfg, run, steps) && k < |run|
    requires i in run[k].calls && run[k].calls[i].place != Returned
    ensures Next(cfg, run[k], Do(i, WayOut(run[k].calls[i]))).Some?
  {
    RunKeepsInv(cfg, run, steps, k);
    WayOutIsOpen(cfg, run[k], i);
  }

  lemma WayOutFits(c: Call, b: B.Fields)
    requires CallOk(c) && c.place != Returned
    ensures CallNext(c, WayOut(c), b).Some?
  {
  }

  lemma WayOutIsOpen(cfg: Config, s: State, i: CallId)
    requires Inv(cfg, s) && i in s.calls && s.calls[i].place != Returned
    ensures Next(cfg, s, Do(i, WayOut(s.calls[i]))).Some?
  {
    var c := s.calls[i];
    var a := WayOut(c);
    if a.PutDomain? || a.PutGlobal? {
      CanPut(cfg, s, i);
    } else {
      assert CallOk(c);
      CanGoOn(cfg, s, i);
    }
  }

  lemma CanGoOn(cfg: Config, s: State, i: CallId)
    requires |s.domains| == |cfg.domainCaps| && i in s.calls && CallOk(s.calls[i])
    requires s.calls[i].place != Returned && !WayOut(s.calls[i]).PutDomain? && !WayOut(s.calls[i]).PutGlobal?
    ensures Next(cfg, s, Do(i, WayOut(s.calls[i]))).Some?
  {
    WayOutFits(s.calls[i], BreakerOf(s.breakers, s.calls[i].endpoint));
    CanDo(cfg, s, i, WayOut(s.calls[i]));
  }

  lemma CallNextIsProgress(c: Call, a: Action, b: B.Fields)
    requires CallNext(c, a, b).Some?
    ensures var next := CallNext(c, a, b).value;
            Distance(next.place) < Distance(c.place) || (a.CloseBody? && next == c)
  {
  }

  lemma EveryActionIsProgress(cfg: Config, s: State, i: CallId, a: Action)
    requires |s.domains| == |cfg.domainCaps| && Next(cfg, s, Do(i, a)).Some?
    ensures var p, q := s.calls[i].place, Next(cfg, s, Do(i, a)).value.calls[i].place;
            Distance(q) < Distance(p) || (a.CloseBody? && q == p)
    ensures forall j | j in s.calls && j != i :: Next(cfg, s, Do(i, a)).value.calls[j] == s.calls[j]
  {
    CallNextIsProgress(s.calls[i], a, BreakerOf(s.breakers, s.calls[i].endpoint));
  }

  // ---------------------------------------------------------------------------
  // How many probes on one endpoint
  // ---------------------------------------------------------------------------

  predicate OnEndpoint(s: State, step: Step, e: Endpoint) {
    step.Do? && step.call in s.calls && s.calls[step.call].endpoint == e
  }

  /** The step admits a call on `e` while its breaker is open. */
  predicate AdmitsHalfOpen(s: State, step: Step, e: Endpoint) {
    && OnEndpoint(s, step, e) && step.action.AskBreaker?
    && BreakerOf(s.breakers, e).openUntil.Some? && B.Admits(BreakerOf(s.breakers, e), step.action.now)
  }

  /** The step settles a call on `e`. */
  predicate SettlesCall(s: State, step: Step, e: Endpoint) {
    OnEndpoint(s, step, e) && (step.action.Settle? || step.action == Authorize(false))
  }

  /** What a step does to the probe of `e`: settling ends it, a half-open admission starts it. */
  predicate ProbeRule(s: State, step: Step, next: State, e: Endpoint) {
    BreakerOf(next.breakers, e).probing ==
      if SettlesCall(s, step, e) then false
      else AdmitsHalfOpen(s, step, e) || BreakerOf(s.breakers, e).probing
  }

  lemma StepFollowsProbeRule(cfg: Config, s: State, step: Step, e: Endpoint)
    requires |s.domains| == |cfg.domainCaps| && Next(cfg, s, step).Some?
    ensures ProbeRule(s, step, Next(cfg, s, step).value, e)
  {
  }

  /** Some call on `e` has settled after step `p` and before state `m`, and none was admitted half-open after it. */
  ghost predicate SettledAndFree(run: seq<State>, steps: seq<Step>, p: nat, m: nat, e: Endpoint)
    requires m <= |steps| < |run|
  {
    exists q :: p < q < m && SettlesCall(run[q], steps[q], e)
                && forall k | q < k < m :: !AdmitsHalfOpen(run[k], steps[k], e)
  }

  lemma SettledAndFreeStep(run: seq<State>, steps: seq<Step>, p: nat, m: nat, e: Endpoint)
    requires p < m < |steps| < |run|
    ensures SettledAndFree(run, steps, p, m + 1, e) <==>
              || SettlesCall(run[m], steps[m], e)
              || (!AdmitsHalfOpen(run[m], steps[m], e) && SettledAndFree(run, steps, p, m, e))
  {
    if SettledAndFree(run, steps, p, m, e) && !AdmitsHalfOpen(run[m], steps[m], e) {
      var q :| p < q < m && SettlesCall(run[q], steps[q], e)
               && forall k | q < k < m :: !AdmitsHalfOpen(run[k], steps[k], e);
      assert forall k | q < k < m + 1 :: !AdmitsHalfOpen(run[k], steps[k], e);
    }
    if SettledAndFree(run, steps, p, m + 1, e) && !SettlesCall(run[m], steps[m], e) {
      var q :| p < q < m + 1 && SettlesCall(run[q], steps[q], e)
               && forall k | q < k < m + 1 :: !AdmitsHalfOpen(run[k], steps[k], e);
      assert q < m;
    }
  }

  lemma {:induction false} NotProbingIffSettledAndFree(run: seq<State>, steps: seq<Step>, p: nat, m: nat, e: Endpoint)
    requires p < m <= |steps| < |run| && AdmitsHalfOpen(run[p], steps[p], e)
    requires forall k | 0 <= k < |steps| :: ProbeRule(run[k], steps[k], run[k + 1], e)
    ensures !BreakerOf(run[m].breakers, e).probing <==> SettledAndFree(run, steps, p, m, e)
    decreases m
  {
    assert ProbeRule(run[m - 1], steps[m - 1], run[m - 1 + 1], e);
    if m > p + 1 {
      NotProbingIffSettledAndFree(run, steps, p, m - 1, e);
      SettledAndFreeStep(run, steps, p, m - 1, e);
    }
  }

  /** Invocations only move forward. */
  lemma {:induction false} DistanceFalls(cfg: Config, run: seq<State>, steps: seq<Step>, q: nat, m: nat, i: CallId)
    requires IsRun(cfg, run, steps) && q <= m < |run| && i in run[q].calls
    ensures i in run[m].calls && Distance(run[m].calls[i].place) <= Distance(run[q].calls[i].place)
    ensures run[m].calls[i].endpoint == run[q].calls[i].endpoint
    decreases m
  {
    if q < m {
      DistanceFalls(cfg, run, steps, q, m - 1, i);
      assert Next(cfg, run[m - 1], steps[m - 1]) == Some(run[m - 1 + 1]);
      StepMovesForward(cfg, run[m - 1], steps[m - 1], i);
    }
  }

  lemma StepMovesForward(cfg: Config, s: State, step: Step, i: CallId)
    requires |s.domains| == |cfg.domainCaps| && Next(cfg, s, step).Some? && i in s.calls
    ensures var next := Next(cfg, s, step).value.calls;
            && i in next && Distance(next[i].place) <= Distance(s.calls[i].place)
            && next[i].endpoint == s.calls[i].endpoint
  {
    if step.Do? {
      EveryActionIsProgress(cfg, s, step.call, step.action);
      CallNextMovesSlots(s.calls[step.call], step.action, BreakerOf(s.breakers, s.calls[step.call].endpoint));
    }
  }

  /** A call that settles is past being a probe. */
  lemma SettledCallIsPast(cfg: Config, s: State, step: Step, e: Endpoint)
    requires |s.domains| == |cfg.domainCaps| && Next(cfg, s, step).Some? && SettlesCall(s, step, e)
    ensures var next := Next(cfg, s, step).value.calls;
            step.call in next && Distance(next[step.call].place) < Distance(InFlight)
  {
  }

  /**
   Call `i` was admitted half-open at step `p` and is still unsettled at state `m`.  With the
   breaker open and its cooldown over, the next call to ask is admitted as a second probe if and
   only if, in the meantime, another call on the endpoint has settled and none was admitted
   half-open after that.
   */
  lemma SecondProbeIffAnotherSettled(
      cfg: Config, run: seq<State>, steps: seq<Step>, p: nat, m: nat, i: CallId, now: B.Time)
    requires IsRun(cfg, run, steps) && p < m <= |steps|
    requires steps[p].Do? && steps[p].call == i && i in run[p].calls
    requires AdmitsHalfOpen(run[p], steps[p], run[p].calls[i].endpoint)
    requires i in run[m].calls && Unsettled(run[m].calls[i].place)
    requires var b := BreakerOf(run[m].breakers, run[p].calls[i].endpoint);
             b.openUntil.Some? && b.openUntil.value <= now
    ensures var e := run[p].calls[i].endpoint;
            B.Admits(BreakerOf(run[m].breakers, e), now) <==>
              exists q :: && p < q < m && SettlesCall(run[q], steps[q], e) && steps[q].call != i
                          && forall k | q < k < m :: !AdmitsHalfOpen(run[k], steps[k], e)
  {
    var e := run[p].calls[i].endpoint;
    RunFollowsProbeRule(cfg, run, steps, e);
    NotProbingIffSettledAndFree(run, steps, p, m, e);
    forall q | p < q < m && SettlesCall(run[q], steps[q], e)
      ensures steps[q].call != i
    {
      SettledCallStaysPast(cfg, run, steps, q, m, e);
    }
  }

  lemma RunFollowsProbeRule(cfg: Config, run: seq<State>, steps: seq<Step>, e: Endpoint)
    requires IsRun(cfg, run, steps)
    ensures forall k | 0 <= k < |steps| :: ProbeRule(run[k], steps[k], run[k + 1], e)
  {
    forall k | 0 <= k < |steps|
      ensures ProbeRule(run[k], steps[k], run[k + 1], e)
    {
      assert Next(cfg, run[k], steps[k]) == Some(run[k + 1]);
      StepFollowsProbeRule(cfg, run[k], steps[k], e);
    }
  }

  lemma SettledCallStaysPast(cfg: Config, run: seq<State>, steps: seq<Step>, q: nat, m: nat, e: Endpoint)
    requires IsRun(cfg, run, steps) && q < m <= |steps| && SettlesCall(run[q], steps[q], e)
    ensures steps[q].call in run[m].calls && !Unsettled(run[m].calls[steps[q].call].place)
  {
    assert Next(cfg, run[q], steps[q]) == Some(run[q + 1]);
    SettledCallIsPast(cfg, run[q], steps[q], e);
    DistanceFalls(cfg, run, steps, q + 1, m, steps[q].call);
  }

  // ---------------------------------------------------------------------------
  // Where the actions lead
  // ---------------------------------------------------------------------------

  /** An invocation that passes every check on the way is admitted. */
  lemma PassingCallIsAdmitted(d: Domain, e: Endpoint, b: B.Fields)
    ensures var c1 := CallNext(NewCall(d, e), CheckArguments(true), b);
            c1.Some? &&
            var c2 := CallNext(c1.value, CheckPolicy(true), b);
            c2.Some? &&
            var c3 := CallNext(c2.value, BuildRequest(true), b);
            c3.Some? &&
            var c4 := CallNext(c3.value, CheckBudget(true), b);
            c4.Some? &&
            var c5 := CallNext(c4.value, TakeGlobal, b);
            c5.Some? &&
            var c6 := CallNext(c5.value, TakeDomain, b);
            c6.Some? && c6.value.place == Admitted
  {
  }

  /** An admitted invocation, with a transport, a breaker that admits and a credential, is dispatched. */
  lemma AdmittedCallIsDispatched(c: Call, b: B.Fields, now: B.Time)
    requires c.place == Admitted && B.Admits(b, now)
    ensures var c1 := CallNext(c, Connect(true), b);
            c1.Some? &&
            var c2 := CallNext(c1.value, AskBreaker(now), b);
            c2.Some? &&
            var c3 := CallNext(c2.value, Authorize(true), b);
            c3.Some? &&
            var c4 := CallNext(c3.value, Dispatch, b);
            c4.Some? && c4.value.place == InFlight && c4.value.dispatches == c.dispatches + 1
  {
  }

  /** A dispatched invocation delivers a body exactly for an answer in the two hundreds, and else starts to leave. */
  lemma AnswerDecidesDelivery(c: Call, b: B.Fields, answer: Answer, now: B.Time)
    requires c.place == InFlight
    ensures var settled := CallNext(c, Settle(answer, now), b);
            && settled.Some? && settled.value.answer == Some(answer)
            && settled.value.verdicts
               == c.verdicts + [if answer.Unreachable? || answer.code >= 500 then Failed else Succeeded]
            && (answer.Unreachable? ==> settled.value.place == ReleasingDomain)
            && (answer.Status? ==>
                  settled.value.place == Settled && CallNext(settled.value, Finish, b).Some? &&
                  var done := CallNext(settled.value, Finish, b).value;
                  && (200 <= answer.code < 300 ==> done.place == Delivered && done.body)
                  && (answer.code < 200 || 300 <= answer.code ==> done.place == ReleasingDomain && done.body == c.body))
  {
  }

  /** A failed check ends an invocation before admission; after it, the invocation starts to leave. */
  lemma FailedCheckEndsCall(c: Call, b: B.Fields, now: B.Time)
    ensures c.place == Started ==> CallNext(c, CheckArguments(false), b) == Some(c.(place := Returned))
    ensures c.place == Validated ==> CallNext(c, CheckPolicy(false), b) == Some(c.(place := Returned))
    ensures c.place == Permitted ==> CallNext(c, BuildRequest(false), b) == Some(c.(place := Returned))
    ensures c.place == Built ==> CallNext(c, CheckBudget(false), b) == Some(c.(place := Returned))
    ensures c.place == Admitted ==> CallNext(c, Connect(false), b) == Some(c.(place := ReleasingDomain))
    ensures c.place == Connected && !B.Admits(b, now) ==>
              CallNext(c, AskBreaker(now), b) == Some(c.(place := ReleasingDomain))
    ensures c.place == Allowed ==>
              CallNext(c, Authorize(false), b)
              == Some(c.(place := ReleasingDomain, verdicts := c.verdicts + [Ignored]))
  {
  }

  /** A caller gets a slot exactly while one is free; one that stops waiting gives back what it has. */
  lemma SlotsAreGrantedWhileFree(cfg: Config, s: State, i: CallId)
    requires |s.domains| == |cfg.domainCaps| && i in s.calls
    ensures s.calls[i].place == Budgeted ==>
              && (Next(cfg, s, Do(i, TakeGlobal)).Some? <==> s.global < cfg.globalCap)
              && Next(cfg, s, Do(i, QueueTimeout)).Some?
              && Next(cfg, s, Do(i, QueueTimeout)).value.calls[i].place == Returned
    ensures s.calls[i].place == HasGlobal && s.calls[i].domain < |s.domains| ==>
              && (Next(cfg, s, Do(i, TakeDomain)).Some? <==>
                    s.domains[s.calls[i].domain] < cfg.domainCaps[s.calls[i].domain])
              && Next(cfg, s, Do(i, QueueTimeout)).Some?
              && Next(cfg, s, Do(i, QueueTimeout)).value.calls[i].place == GivingBack
  {
  }

  // ---------------------------------------------------------------------------
  // What the breaker of an endpoint is told
  // ---------------------------------------------------------------------------

  /** What a step of an invocation on `e` adds to the history of its breaker. */
  function EventsOf(s: State, step: Step, e: Endpoint): B.History {
    if !OnEndpoint(s, step, e) then []
    else
      match step.action
      case AskBreaker(now) => [B.Allow(now, B.Admits(BreakerOf(s.breakers, e), now))]
      case Authorize(ok) => if ok then [] else [B.Ignore]
      case Settle(answer, now) =>
        if answer.Unreachable? || answer.code >= 500 then [B.Failure(now)] else [B.Success]
      case _ => []
  }

  /** The history of the breaker of `e` up to state `m`. */
  function HistoryOf(run: seq<State>, steps: seq<Step>, m: nat, e: Endpoint): B.History
    requires m <= |steps| < |run|
  {
    if m == 0 then [] else HistoryOf(run, steps, m - 1, e) + EventsOf(run[m - 1], steps[m - 1], e)
  }

  ghost predicate BreakerTracks(breakers: map<Endpoint, B.Fields>, e: Endpoint, h: B.History) {
    var b := BreakerOf(breakers, e);
    B.Tracks(b, h) && b.threshold == 5 && b.cooldown == 30_000_000_000
  }

  /** The breaker of an endpoint changes only by the actions of its invocations. */
  lemma BreakerAfter(cfg: Config, s: State, step: Step, e: Endpoint)
    requires |s.domains| == |cfg.domainCaps| && Next(cfg, s, step).Some?
    ensures BreakerOf(Next(cfg, s, step).value.breakers, e)
            == if OnEndpoint(s, step, e) then BreakerNext(step.action, BreakerOf(s.breakers, e))
               else BreakerOf(s.breakers, e)
  {
  }

  lemma ActionKeepsTracking(b: B.Fields, h: B.History, a: Action)
    requires B.Tracks(b, h)
    ensures BreakerNext(a, b).threshold == b.threshold && BreakerNext(a, b).cooldown == b.cooldown
    ensures match a
            case AskBreaker(now) => B.Tracks(BreakerNext(a, b), h + [B.Allow(now, B.Admits(b, now))])
            case Authorize(ok) => B.Tracks(BreakerNext(a, b), if ok then h else h + [B.Ignore])
            case Settle(answer, now) =>
              B.Tracks(BreakerNext(a, b),
                       h + [if answer.Unreachable? || answer.code >= 500 then B.Failure(now) else B.Success])
            case _ => B.Tracks(BreakerNext(a, b), h)
  {
    match a
    case AskBreaker(now) => B.AllowKeepsTracking(b, h, now);
    case Authorize(ok) => B.IgnoreKeepsTracking(b, h);
    case Settle(answer, now) =>
      B.FailureKeepsTracking(b, h, now);
      B.SuccessKeepsTracking(b, h);
    case _ =>
  }

  lemma StepKeepsTracking(cfg: Config, s: State, step: Step, e: Endpoint, h: B.History)
    requires |s.domains| == |cfg.domainCaps| && Next(cfg, s, step).Some? && BreakerTracks(s.breakers, e, h)
    ensures BreakerTracks(Next(cfg, s, step).value.breakers, e, h + EventsOf(s, step, e))
  {
    BreakerAfter(cfg, s, step, e);
    assert h + [] == h;
    if OnEndpoint(s, step, e) {
      ActionKeepsTracking(BreakerOf(s.breakers, e), h, step.action);
    }
  }

  /**
   Over every run, the breaker of each endpoint says what the history of its invocations says:
   failures are calls without an answer or with one of 500 and above.  So a call that asks is
   admitted exactly as that history specifies.
   */
  lemma {:induction false} BreakersFollowInvocations(
      cfg: Config, run: seq<State>, steps: seq<Step>, m: nat, e: Endpoint, now: B.Time)
    requires IsRun(cfg, run, steps) && m < |run|
    ensures BreakerTracks(run[m].breakers, e, HistoryOf(run, steps, m, e))
    ensures B.Admits(BreakerOf(run[m].breakers, e), now) <==>
              B.ShouldAdmit(HistoryOf(run, steps, m, e), 5, 30_000_000_000, now)
  {
    if m > 0 {
      BreakersFollowInvocations(cfg, run, steps, m - 1, e, now);
      assert Next(cfg, run[m - 1], steps[m - 1]) == Some(run[m - 1 + 1]);
      StepKeepsTracking(cfg, run[m - 1], steps[m - 1], e, HistoryOf(run, steps, m - 1, e));
    }
    B.AdmitsIffShouldAdmit(BreakerOf(run[m].breakers, e), HistoryOf(run, steps, m, e), now);
  }
}
