/**
 What the token cache promises over every sequence of operations: the answer to a
 lookup is decided by the last write of its key, and eviction by the order of last use.
 */
module CacheHistory {
  import opened Options
  import opened TokenCaches

  datatype Op =
    | Get(key: Key, now: Time)
    | PutToken(key: Key, token: Token, now: Time)
    | PutNegative(key: Key, error: string, now: Time)
    | Invalidate(key: Key)
    | Flush

  predicate IsPut(op: Op) {
    op.PutToken? || op.PutNegative?
  }

  function PayloadOf(config: Config, op: Op): Payload
    requires IsPut(op)
  {
    if op.PutToken? then Fresh(op.token, op.now, config.skew)
    else Negative(op.error, op.now + config.negativeTTL)
  }

  function Apply(config: Config, c: Recency, op: Op): Recency {
    match op
    case Get(k, now) => AfterLook(c, k, now)
    case PutToken(k, _, _) => Store(c, k, PayloadOf(config, op), config.capacity)
    case PutNegative(k, _, _) => Store(c, k, PayloadOf(config, op), config.capacity)
    case Invalidate(k) => Without(c, k)
    case Flush => []
  }

  /** The cache after `ops`, starting empty. */
  function Run(config: Config, ops: seq<Op>): Recency {
    if ops == [] then [] else Apply(config, Run(config, ops[..|ops| - 1]), ops[|ops| - 1])
  }

  /** The last operation that stored or removed `k`. */
  function LastWrite(ops: seq<Op>, k: Key): Option<Op> {
    if ops == [] then None
    else
      var op := ops[|ops| - 1];
      if op.Flush? || (!op.Get? && op.key == k) then Some(op) else LastWrite(ops[..|ops| - 1], k)
  }

  /** When `k` was last looked up or stored: a position in `ops`, or -1. */
  function LastUse(ops: seq<Op>, k: Key): int
    ensures -1 <= LastUse(ops, k) < |ops|
  {
    if ops == [] then -1
    else
      var op := ops[|ops| - 1];
      if (op.Get? || IsPut(op)) && op.key == k then |ops| - 1 else LastUse(ops[..|ops| - 1], k)
  }

  /** Most recently used first. */
  ghost predicate InUseOrder(c: Recency, ops: seq<Op>) {
    forall i, j | 0 <= i < j < |c| :: LastUse(ops, c[i].key) > LastUse(ops, c[j].key)
  }

  /** Every slot holds what the last write of its key put there. */
  ghost predicate HoldsLastWrites(config: Config, c: Recency, ops: seq<Op>) {
    forall x | x in c ::
      var w := LastWrite(ops, x.key);
      w.Some? && IsPut(w.value) && x.payload == PayloadOf(config, w.value)
  }

  lemma {:induction false} WithoutKeepsUseOrder(c: Recency, ops: seq<Op>, k: Key)
    requires InUseOrder(c, ops)
    ensures InUseOrder(Without(c, k), ops)
  {
    if c != [] {
      TailInUseOrder(c, ops);
      WithoutKeepsUseOrder(c[1..], ops, k);
      WithoutIsFilter(c[1..], k);
      HeadInUseOrder(c[0], Without(c[1..], k), ops);
    }
  }

  /** The head was used after everything behind it. */
  ghost predicate Leads(x: Slot, rest: Recency, ops: seq<Op>) {
    forall y | y in rest :: LastUse(ops, x.key) > LastUse(ops, y.key)
  }

  lemma TailInUseOrder(c: Recency, ops: seq<Op>)
    requires c != [] && InUseOrder(c, ops)
    ensures InUseOrder(c[1..], ops) && Leads(c[0], c[1..], ops)
  {
    var rest := c[1..];
    assert forall i | 0 <= i < |rest| :: rest[i] == c[i + 1];
  }

  lemma HeadInUseOrder(x: Slot, rest: Recency, ops: seq<Op>)
    requires InUseOrder(rest, ops) && Leads(x, rest, ops)
    ensures InUseOrder([x] + rest, ops)
  {
    var all := [x] + rest;
    assert forall i | 1 <= i < |all| :: all[i] == rest[i - 1] && rest[i - 1] in rest;
  }

  /** One more operation changes the last use of its own key only. */
  lemma LaterUseOrder(c: Recency, ops: seq<Op>, op: Op)
    requires InUseOrder(c, ops)
    requires op.Get? || IsPut(op) ==> !Has(c, op.key)
    ensures InUseOrder(c, ops + [op])
  {
    var more := ops + [op];
    assert more[..|more| - 1] == ops;
    assert forall i | 0 <= i < |c| :: LastUse(more, c[i].key) == LastUse(ops, c[i].key);
  }

  lemma ToFrontUseOrder(c: Recency, ops: seq<Op>, op: Op, payload: Payload)
    requires InUseOrder(c, ops) && (op.Get? || IsPut(op))
    ensures InUseOrder(ToFront(c, op.key, payload), ops + [op])
  {
    var rest, front, more := Without(c, op.key), ToFront(c, op.key, payload), ops + [op];
    WithoutKeepsUseOrder(c, ops, op.key);
    WithoutIsFilter(c, op.key);
    LaterUseOrder(rest, ops, op);
    assert more[..|more| - 1] == ops;
    forall i, j | 0 <= i < j < |front|
      ensures LastUse(more, front[i].key) > LastUse(more, front[j].key)
    {
      assert front[j] == rest[j - 1] && rest[j - 1].key != op.key;
      if i > 0 {
        assert front[i] == rest[i - 1];
      }
    }
  }

  lemma ApplyKeepsUseOrder(config: Config, c: Recency, ops: seq<Op>, op: Op)
    requires InUseOrder(c, ops)
    ensures InUseOrder(Apply(config, c, op), ops + [op])
  {
    match op
    case Get(k, now) =>
      FindIsSlot(c, k);
      if Find(c, k).None? {
        LaterUseOrder(c, ops, op);
      } else if Answered(Find(c, k).value, now).Miss? {
        WithoutKeepsUseOrder(c, ops, k);
        WithoutIsFilter(c, k);
        LaterUseOrder(Without(c, k), ops, op);
      } else {
        ToFrontUseOrder(c, ops, op, Find(c, k).value);
      }
    case PutToken(k, _, _) => ToFrontUseOrder(c, ops, op, PayloadOf(config, op));
    case PutNegative(k, _, _) => ToFrontUseOrder(c, ops, op, PayloadOf(config, op));
    case Invalidate(k) =>
      WithoutKeepsUseOrder(c, ops, k);
      LaterUseOrder(Without(c, k), ops, op);
    case Flush =>
  }

  lemma ApplyKeepsLastWrites(config: Config, c: Recency, ops: seq<Op>, op: Op)
    requires HoldsLastWrites(config, c, ops) && DistinctKeys(c)
    ensures HoldsLastWrites(config, Apply(config, c, op), ops + [op])
  {
    var more := ops + [op];
    assert more[..|more| - 1] == ops;
    var d := Apply(config, c, op);
    forall x | x in d
      ensures var w := LastWrite(more, x.key);
              w.Some? && IsPut(w.value) && x.payload == PayloadOf(config, w.value)
    {
      if !op.Flush? {
        WithoutIsFilter(c, op.key);
        FindIsSlot(c, op.key);
        if IsPut(op) {
          assert x == Slot(op.key, PayloadOf(config, op)) || x in Without(c, op.key);
        } else {
          assert x in c;
        }
      }
    }
  }

  lemma ApplyKeepsShape(config: Config, c: Recency, op: Op)
    requires DistinctKeys(c) && |c| <= config.capacity
    ensures DistinctKeys(Apply(config, c, op)) && |Apply(config, c, op)| <= config.capacity
  {
    if !op.Flush? {
      WithoutKeepsDistinct(c, op.key);
      WithoutIsFilter(c, op.key);
      FindIsSlot(c, op.key);
    }
  }

  lemma {:induction false} RunKeepsAll(config: Config, ops: seq<Op>)
    ensures var c := Run(config, ops);
            && DistinctKeys(c) && |c| <= config.capacity
            && InUseOrder(c, ops) && HoldsLastWrites(config, c, ops)
  {
    if ops != [] {
      var before, op := ops[..|ops| - 1], ops[|ops| - 1];
      assert before + [op] == ops;
      RunKeepsAll(config, before);
      ApplyKeepsShape(config, Run(config, before), op);
      ApplyKeepsUseOrder(config, Run(config, before), before, op);
      ApplyKeepsLastWrites(config, Run(config, before), before, op);
    }
  }

  /**
   What the last write of a present key makes of a lookup at `now`: a token is served fresh until
   the skew before its expiry, or until the time of its store if that is later, then as stale until
   it expires; an error is served for its lifetime.
   */
  predicate AnswersFor(config: Config, write: Op, now: Time, answer: Answer)
    requires IsPut(write)
  {
    match write
    case PutToken(_, token, at) =>
      && (answer == Hit(token) <==> now < token.expires && (now < token.expires - config.skew || now < at))
      && (answer == Stale(token) <==> now < token.expires && token.expires - config.skew <= now && at <= now)
      && (answer == Miss <==> token.expires <= now)
    case PutNegative(_, error, at) =>
      && (answer == Refused(error) <==> now < at + config.negativeTTL)
      && (answer == Miss <==> at + config.negativeTTL <= now)
  }

  /**
   The answer to any lookup after any history is decided by the last write of that key
   alone: a served token is the one stored last, unexpired at the time of the lookup, and
   an error is the one stored last, within its lifetime.
   */
  lemma AnswerIsLastWrite(config: Config, ops: seq<Op>, k: Key, now: Time)
    ensures var answer := Look(Run(config, ops), k, now);
            var w := LastWrite(ops, k);
            match answer
            case Hit(token) =>
              w.Some? && w.value.PutToken? && w.value.token == token && now < token.expires
            case Stale(token) =>
              w.Some? && w.value.PutToken? && w.value.token == token && now < token.expires
            case Refused(error) =>
              && w.Some? && w.value.PutNegative? && w.value.error == error
              && now < w.value.now + config.negativeTTL
            case Miss => true
    ensures !Has(Run(config, ops), k) ==> Look(Run(config, ops), k, now) == Miss
    ensures Has(Run(config, ops), k) ==>
              var w := LastWrite(ops, k);
              w.Some? && IsPut(w.value) && AnswersFor(config, w.value, now, Look(Run(config, ops), k, now))
  {
    RunKeepsAll(config, ops);
    FindIsSlot(Run(config, ops), k);
  }

  /**
   Storing a key drops at most one other key, only from a full cache, and the one dropped
   was used before every key that stays; the key just stored always stays.
   */
  lemma EvictsLeastRecentlyUsed(config: Config, ops: seq<Op>, op: Op)
    requires IsPut(op) && config.Accepted()
    ensures var before := Run(config, ops);
            var kept := Run(config, ops + [op]);
            && Has(kept, op.key)
            && (forall x, y | Dropped(before, kept, op.key, x) && y in kept && y.key != op.key ::
                  y in before && LastUse(ops, x.key) < LastUse(ops, y.key))
            && (forall x, y | Dropped(before, kept, op.key, x) && Dropped(before, kept, op.key, y) :: x == y)
            && (Has(before, op.key) || |before| < config.capacity ==>
                  forall x :: !Dropped(before, kept, op.key, x))
  {
    RunKeepsAll(config, ops);
    var before := Run(config, ops);
    var rest := Without(before, op.key);
    var kept := Run(config, ops + [op]);
    assert (ops + [op])[..|ops + [op]| - 1] == ops;
    StoreDropsLast(before, op.key, PayloadOf(config, op), config.capacity);
    WithoutIsFilter(before, op.key);
    WithoutKeepsUseOrder(before, ops, op.key);
    forall x, y | Dropped(before, kept, op.key, x) && y in kept && y.key != op.key
      ensures y in before && LastUse(ops, x.key) < LastUse(ops, y.key)
    {
      var j :| 0 <= j < config.capacity - 1 && j < |rest| && rest[j] == y;
    }
  }

  predicate Dropped(before: Recency, kept: Recency, k: Key, x: Slot) {
    x in before && x.key != k && !Has(kept, x.key)
  }

  /** `kept` is a new slot followed by the front of `rest`, as long as fits. */
  ghost predicate IsFront(rest: Recency, kept: Recency, capacity: nat) {
    && |kept| == (if |rest| < capacity then |rest| + 1 else capacity)
    && (forall i | 1 <= i < |kept| :: kept[i] == rest[i - 1])
  }

  lemma TrimShape(slot: Slot, rest: Recency, capacity: nat)
    requires 0 < capacity
    ensures IsFront(rest, Trim([slot] + rest, capacity), capacity) && Trim([slot] + rest, capacity)[0] == slot
  {
    var longer := [slot] + rest;
    assert forall i | 1 <= i < |longer| :: longer[i] == rest[i - 1];
  }

  lemma DroppedIsLast(rest: Recency, kept: Recency, capacity: nat, x: Slot)
    requires IsFront(rest, kept, capacity) && |rest| <= capacity && x in rest && !Has(kept, x.key)
    ensures |rest| == capacity && 0 < capacity && x == rest[capacity - 1]
  {
    FrontIsKept(rest, kept, capacity);
    var i :| 0 <= i < |rest| && rest[i] == x;
  }

  lemma FrontIsKept(rest: Recency, kept: Recency, capacity: nat)
    requires IsFront(rest, kept, capacity)
    ensures forall i | 0 <= i < |rest| && i + 1 < |kept| :: Has(kept, rest[i].key)
  {
    forall i | 0 <= i < |rest| && i + 1 < |kept|
      ensures Has(kept, rest[i].key)
    {
      assert kept[i + 1].key == rest[i].key;
    }
  }

  lemma KeptIsFront(rest: Recency, kept: Recency, capacity: nat, y: Slot)
    requires 0 < capacity && IsFront(rest, kept, capacity) && y in kept && y != kept[0]
    ensures y in rest[..if |rest| < capacity then |rest| else capacity - 1]
  {
    var j :| 0 <= j < |kept| && kept[j] == y;
    assert rest[..if |rest| < capacity then |rest| else capacity - 1][j - 1] == y;
  }

  /** A store keeps the new slot and all but perhaps the last of the others. */
  lemma StoreDropsLast(c: Recency, k: Key, payload: Payload, capacity: nat)
    requires DistinctKeys(c) && 0 < capacity && |c| <= capacity
    ensures var rest := Without(c, k);
            var kept := Store(c, k, payload, capacity);
            && Has(kept, k)
            && (forall x | Dropped(c, kept, k, x) :: |rest| == capacity && x == rest[capacity - 1])
            && (forall y | y in kept && y.key != k :: y in rest[..if |rest| < capacity then |rest| else capacity - 1])
            && (Has(c, k) || |c| < capacity ==> |rest| < capacity)
  {
    var rest := Without(c, k);
    var kept := Store(c, k, payload, capacity);
    WithoutKeepsDistinct(c, k);
    WithoutIsFilter(c, k);
    TrimShape(Slot(k, payload), rest, capacity);
    forall x | Dropped(c, kept, k, x)
      ensures |rest| == capacity && x == rest[capacity - 1]
    {
      DroppedIsLast(rest, kept, capacity, x);
    }
    forall y | y in kept && y.key != k
      ensures y in rest[..if |rest| < capacity then |rest| else capacity - 1]
    {
      KeptIsFront(rest, kept, capacity, y);
    }
  }
}
