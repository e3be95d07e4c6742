/**
 Pending downstream authorizations: two indexes over one-time states, and the critical
 sections of `Begin` and `Complete` that work on them.
 */
module Authorization {
  import opened Options
  import opened Sets

  type StateId = nat
  type Key = nat
  type Time = int

  const MAX_PENDING := 10_000

  datatype Attempt = Attempt(key: Key, verifier: nat, redirect: nat, expiresAt: Time)

  datatype Table = Table(pending: map<StateId, Attempt>, byKey: map<Key, StateId>)

  /** The two indexes are inverse to each other. */
  ghost predicate Inverse(t: Table) {
    && (forall s | s in t.pending :: Indexed(t, s))
    && (forall k | k in t.byKey :: PointsBack(t, k))
  }

  ghost predicate Indexed(t: Table, s: StateId)
    requires s in t.pending
  {
    t.pending[s].key in t.byKey && t.byKey[t.pending[s].key] == s
  }

  ghost predicate PointsBack(t: Table, k: Key)
    requires k in t.byKey
  {
    t.byKey[k] in t.pending && t.pending[t.byKey[k]].key == k
  }

  ghost predicate TableOk(t: Table) {
    Inverse(t) && |t.pending| <= MAX_PENDING
  }

  predicate Expired(a: Attempt, now: Time) {
    a.expiresAt <= now
  }

  /** The index entry of `a` goes only while it still points at `s`. */
  function Unindex(byKey: map<Key, StateId>, s: StateId, a: Attempt): map<Key, StateId> {
    if a.key in byKey && byKey[a.key] == s then byKey - {a.key} else byKey
  }

  function Purged(t: Table, now: Time): Table {
    Table(map s | s in t.pending && !Expired(t.pending[s], now) :: t.pending[s],
          map k | k in t.byKey
                  && !(t.byKey[k] in t.pending && t.pending[t.byKey[k]].key == k && Expired(t.pending[t.byKey[k]], now))
            :: t.byKey[k])
  }

  function Superseded(t: Table, k: Key): Table {
    t.(pending := if k in t.byKey then t.pending - {t.byKey[k]} else t.pending)
  }

  predicate Refuses(t: Table, k: Key, now: Time) {
    |Superseded(Purged(t, now), k).pending| >= MAX_PENDING
  }

  function AfterBegin(t: Table, s: StateId, a: Attempt, now: Time): Table {
    var room := Superseded(Purged(t, now), a.key);
    if Refuses(t, a.key, now) then room else Table(room.pending[s := a], room.byKey[a.key := s])
  }

  predicate Finds(t: Table, s: StateId, now: Time) {
    s in t.pending && !Expired(t.pending[s], now)
  }

  function AfterComplete(t: Table, s: StateId, now: Time): Table {
    var purged := Purged(t, now);
    if s in purged.pending then Table(purged.pending - {s}, Unindex(purged.byKey, s, purged.pending[s])) else purged
  }

  /** Purging removes exactly the expired attempts, from both indexes. */
  lemma PurgeKeepsTable(t: Table, now: Time)
    requires TableOk(t)
    ensures TableOk(Purged(t, now))
    ensures forall k | k in t.byKey ::
              k in Purged(t, now).byKey <==> !Expired(t.pending[t.byKey[k]], now)
  {
    SubsetSize(Purged(t, now).pending.Keys, t.pending.Keys);
  }

  /** A user who had a pending attempt, expired or not, is never refused for lack of capacity. */
  lemma OwnerIsNeverRefused(t: Table, k: Key, now: Time)
    requires TableOk(t) && k in t.byKey
    ensures !Refuses(t, k, now)
  {
    var s := t.byKey[k];
    var room := Superseded(Purged(t, now), k).pending.Keys;
    assert s in t.pending && s !in room;
    SubsetSize(room, t.pending.Keys);
  }

  /** `Begin` keeps both indexes inverse and bounded, whether it accepts or refuses. */
  lemma BeginKeepsTable(t: Table, s: StateId, a: Attempt, now: Time)
    requires TableOk(t) && s !in t.pending
    ensures TableOk(AfterBegin(t, s, a, now))
    ensures Refuses(t, a.key, now) ==> AfterBegin(t, s, a, now) == Purged(t, now)
  {
    PurgeKeepsTable(t, now);
    if a.key in t.byKey {
      OwnerIsNeverRefused(t, a.key, now);
    }
    if !Refuses(t, a.key, now) {
      ReplaceKeepsTable(Purged(t, now), s, a);
    }
  }

  function Replaced(t: Table, s: StateId, a: Attempt): Table {
    Table(Superseded(t, a.key).pending[s := a], t.byKey[a.key := s])
  }

  lemma ReplaceKeepsTable(t: Table, s: StateId, a: Attempt)
    requires Inverse(t) && s !in t.pending && |Superseded(t, a.key).pending| < MAX_PENDING
    ensures TableOk(Replaced(t, s, a))
  {
    ReplaceKeepsStates(t, s, a);
    ReplaceKeepsKeys(t, s, a);
    var room := Superseded(t, a.key).pending;
    assert room[s := a].Keys == room.Keys + {s};
  }

  lemma ReplaceKeepsStates(t: Table, s: StateId, a: Attempt)
    requires forall r | r in t.pending :: Indexed(t, r)
    ensures var next := Replaced(t, s, a);
            forall r | r in next.pending :: Indexed(next, r)
  {
    var next := Replaced(t, s, a);
    forall r | r in next.pending
      ensures Indexed(next, r)
    {
      assert r != s ==> Indexed(t, r);
    }
  }

  lemma ReplaceKeepsKeys(t: Table, s: StateId, a: Attempt)
    requires (forall k | k in t.byKey :: PointsBack(t, k)) && s !in t.pending
    ensures var next := Replaced(t, s, a);
            forall k | k in next.byKey :: PointsBack(next, k)
  {
    var next := Replaced(t, s, a);
    forall k | k in next.byKey
      ensures PointsBack(next, k)
    {
      assert k != a.key ==> PointsBack(t, k);
      assert a.key in t.byKey ==> PointsBack(t, a.key);
    }
  }

  lemma CompleteKeepsTable(t: Table, s: StateId, now: Time)
    requires TableOk(t)
    ensures TableOk(AfterComplete(t, s, now))
    ensures s !in AfterComplete(t, s, now).pending
    ensures forall r | r in AfterComplete(t, s, now).pending ::
              r in t.pending && AfterComplete(t, s, now).pending[r] == t.pending[r]
  {
    PurgeKeepsTable(t, now);
    SubsetSize(AfterComplete(t, s, now).pending.Keys, t.pending.Keys);
  }

  /** In the middle of a purge that still has to look at `todo`. */
  ghost predicate StatesPurged(
    before: map<StateId, Attempt>, todo: set<StateId>, pending: map<StateId, Attempt>, now: Time)
  {
    && (forall s | s in pending :: s in before && pending[s] == before[s])
    && (forall s | s in before && s !in todo :: s in pending <==> !Expired(before[s], now))
  }

  ghost predicate KeysPurged(before: Table, pending: map<StateId, Attempt>, byKey: map<Key, StateId>) {
    && (forall k | k in byKey :: k in before.byKey && byKey[k] == before.byKey[k])
    && (forall k | k in before.byKey :: k in byKey <==> before.byKey[k] in pending)
  }

  lemma StatesPurgeOne(
      before: map<StateId, Attempt>, todo: set<StateId>, pending: map<StateId, Attempt>, now: Time, s: StateId)
    requires StatesPurged(before, todo, pending, now) && s in todo && s in pending
    ensures StatesPurged(before, todo - {s}, if Expired(pending[s], now) then pending - {s} else pending, now)
  {
  }

  lemma KeysPurgeOne(before: Table, pending: map<StateId, Attempt>, byKey: map<Key, StateId>, s: StateId)
    requires Inverse(before) && KeysPurged(before, pending, byKey)
    requires s in pending && s in before.pending && pending[s] == before.pending[s]
    ensures KeysPurged(before, pending - {s}, Unindex(byKey, s, pending[s]))
  {
    assert Indexed(before, s);
    forall k | k in before.byKey
      ensures k in Unindex(byKey, s, pending[s]) <==> before.byKey[k] in pending - {s}
    {
      assert PointsBack(before, k);
    }
  }

  lemma PurgedIs(before: Table, now: Time, pending: map<StateId, Attempt>, byKey: map<Key, StateId>)
    requires Inverse(before) && StatesPurged(before.pending, {}, pending, now) && KeysPurged(before, pending, byKey)
    ensures Table(pending, byKey) == Purged(before, now)
  {
    assert pending == Purged(before, now).pending;
    forall k | k in before.byKey
      ensures k in byKey <==> k in Purged(before, now).byKey
    {
      assert PointsBack(before, k);
    }
    assert byKey == Purged(before, now).byKey;
  }

  class Broker {
    var pending: map<StateId, Attempt>
    var byKey: map<Key, StateId>

    ghost function View(): Table
      reads this
    {
      Table(pending, byKey)
    }

    ghost predicate Valid()
      reads this
    {
      TableOk(View())
    }

    constructor ()
      ensures Valid() && View() == Table(map[], map[])
    {
      pending, byKey := map[], map[];
    }

    method Purge(now: Time)
      requires Valid()
      modifies this
      ensures Valid() && View() == Purged(old(View()), now)
    {
      ghost var before := View();
      var todo := pending.Keys;
      while todo != {}
        invariant todo <= pending.Keys
        invariant StatesPurged(before.pending, todo, pending, now)
        invariant KeysPurged(before, pending, byKey)
        decreases |todo|
      {
        var s :| s in todo;
        StatesPurgeOne(before.pending, todo, pending, now, s);
        KeysPurgeOne(before, pending, byKey, s);
        todo := todo - {s};
        var a := pending[s];
        if Expired(a, now) {
          pending := pending - {s};
          byKey := Unindex(byKey, s, a);
        }
      }
      PurgedIs(before, now, pending, byKey);
      PurgeKeepsTable(before, now);
    }

    /** The critical section of `Begin`. */
    method Begin(s: StateId, a: Attempt, now: Time) returns (accepted: bool)
      requires Valid() && s !in pending
      modifies this
      ensures Valid() && View() == AfterBegin(old(View()), s, a, now)
      ensures accepted == !Refuses(old(View()), a.key, now)
      ensures old(a.key in byKey) ==> accepted
    {
      ghost var before := View();
      BeginKeepsTable(before, s, a, now);
      if a.key in byKey {
        OwnerIsNeverRefused(before, a.key, now);
      }
      Purge(now);
      if a.key in byKey {
        pending := pending - {byKey[a.key]};
      }
      if |pending| >= MAX_PENDING {
        return false;
      }
      pending := pending[s := a];
      byKey := byKey[a.key := s];
      accepted := true;
    }

    /** The critical section of `Complete`: a state is found at most once. */
    method Consume(s: StateId, now: Time) returns (found: Option<Attempt>)
      requires Valid()
      modifies this
      ensures Valid() && View() == AfterComplete(old(View()), s, now)
      ensures found == if Finds(old(View()), s, now) then Some(old(pending)[s]) else None
      ensures s !in pending
    {
      CompleteKeepsTable(View(), s, now);
      Purge(now);
      if s in pending {
        var a := pending[s];
        pending := pending - {s};
        byKey := Unindex(byKey, s, a);
        found := Some(a);
      } else {
        found := None;
      }
    }
  }
}
