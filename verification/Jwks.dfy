/** Rotation of the trusted key set: what `Current` returns, against the history of replies. */
module Jwks {
  import opened Options

  type Time = int
  type KeyId = string

  datatype Key = Key(id: KeyId, material: nat)

  type KeySet = seq<Key>

  const SECOND := 1_000_000_000
  const MINUTE := 60 * SECOND
  const MAX_MISSING := 1024

  predicate HasId(keys: KeySet, id: KeyId) {
    exists k | k in keys :: k.id == id
  }

  predicate IdsOk(keys: KeySet) {
    && (forall k | k in keys :: k.id != "")
    && (forall i, j | 0 <= i < j < |keys| :: keys[i].id != keys[j].id)
  }

  /** The keys of `newer`, then those of `older` whose IDs are not taken. */
  function Merge(newer: KeySet, older: KeySet): KeySet {
    if older == [] then newer
    else
      var merged := Merge(newer, older[..|older| - 1]);
      var last := older[|older| - 1];
      if HasId(merged, last.id) then merged else merged + [last]
  }

  lemma {:induction false} MergeIsMerge(newer: KeySet, older: KeySet)
    requires IdsOk(newer) && IdsOk(older)
    ensures IdsOk(Merge(newer, older))
    ensures newer <= Merge(newer, older)
    ensures forall k :: k in Merge(newer, older) <==> k in newer || (k in older && !HasId(newer, k.id))
    ensures forall id :: HasId(Merge(newer, older), id) <==> HasId(newer, id) || HasId(older, id)
  {
    MergeHasIds(newer, older);
    MergeHasKeys(newer, older);
    if older != [] {
      var init, last := older[..|older| - 1], older[|older| - 1];
      PrefixIdsOk(older);
      assert last in older;
      MergeIsMerge(newer, init);
      if !HasId(Merge(newer, init), last.id) {
        AppendIdsOk(Merge(newer, init), last);
      }
    }
  }

  lemma AppendIdsOk(keys: KeySet, k: Key)
    requires IdsOk(keys) && k.id != "" && !HasId(keys, k.id)
    ensures IdsOk(keys + [k])
  {
  }

  lemma {:induction false} MergeHasIds(newer: KeySet, older: KeySet)
    ensures forall id :: HasId(Merge(newer, older), id) <==> HasId(newer, id) || HasId(older, id)
  {
    if older != [] {
      var init, last := older[..|older| - 1], older[|older| - 1];
      MergeHasIds(newer, init);
      assert older == init + [last];
      forall id
        ensures HasId(Merge(newer, older), id) <==> HasId(newer, id) || HasId(older, id)
      {
        HasIdOfAppend(init, last, id);
        HasIdOfAppend(Merge(newer, init), last, id);
      }
    }
  }

  lemma {:induction false} MergeHasKeys(newer: KeySet, older: KeySet)
    requires IdsOk(older)
    ensures forall k :: k in Merge(newer, older) <==> k in newer || (k in older && !HasId(newer, k.id))
  {
    if older != [] {
      var init, last := older[..|older| - 1], older[|older| - 1];
      PrefixIdsOk(older);
      MergeHasKeys(newer, init);
      MergeHasIds(newer, init);
      assert older == init + [last];
    }
  }

  lemma PrefixIdsOk(keys: KeySet)
    requires IdsOk(keys) && keys != []
    ensures IdsOk(keys[..|keys| - 1]) && !HasId(keys[..|keys| - 1], keys[|keys| - 1].id)
  {
  }

  lemma HasIdOfAppend(keys: KeySet, k: Key, id: KeyId)
    ensures HasId(keys + [k], id) <==> HasId(keys, id) || k.id == id
  {
    assert k in keys + [k];
    if HasId(keys, id) {
      var x :| x in keys && x.id == id;
      assert x in keys + [k];
    }
  }

  // ---------------------------------------------------------------------------
  // The history
  // ---------------------------------------------------------------------------

  /** Replies that count: a new key set, or confirmation of the cached one. */
  datatype Fetch = NewKeys(keys: KeySet, now: Time) | Confirmed(now: Time)

  type History = seq<Fetch>

  function Older(h: History): History
    requires h != []
  {
    h[..|h| - 1]
  }

  function Last(h: History): Fetch
    requires h != []
  {
    h[|h| - 1]
  }

  /** The history up to and including the last new key set. */
  function UpToLastKeys(h: History): History {
    if h == [] || Last(h).NewKeys? then h else UpToLastKeys(Older(h))
  }

  function LatestKeys(h: History): KeySet {
    var known := UpToLastKeys(h);
    if known == [] || Last(known).Confirmed? then [] else Last(known).keys
  }

  /** The key set that the latest one replaced. */
  function ReplacedKeys(h: History): KeySet {
    var known := UpToLastKeys(h);
    if known == [] then [] else LatestKeys(Older(known))
  }

  function ChangedAt(h: History): Time {
    var known := UpToLastKeys(h);
    if known == [] then 0 else Last(known).now
  }

  /** What may be trusted at time `now`: the latest keys, with the replaced ones during the overlap, unless stale. */
  function Trusted(h: History, overlap: Time, stale: Time, now: Time): Option<KeySet> {
    if h == [] || now - Last(h).now > stale then None
    else if now < ChangedAt(h) + overlap then Some(Merge(LatestKeys(h), ReplacedKeys(h)))
    else Some(LatestKeys(h))
  }

  /** A history starts with a key set, and every key set in it is valid and not empty. */
  ghost predicate HistoryOk(h: History) {
    && (h != [] ==> h[0].NewKeys?)
    && (forall f | f in h && f.NewKeys? :: IdsOk(f.keys) && f.keys != [])
  }

  lemma {:induction false} KeysAreFromHistory(h: History)
    requires HistoryOk(h)
    ensures IdsOk(LatestKeys(h)) && IdsOk(ReplacedKeys(h)) && (h != [] ==> LatestKeys(h) != [])
    ensures h != [] ==> UpToLastKeys(h) != [] && Last(UpToLastKeys(h)).NewKeys?
    decreases |h|
  {
    if h != [] {
      PrefixOk(h);
      KeysAreFromHistory(Older(h));
      if Last(h).Confirmed? {
        assert |h| > 1;
      } else {
        assert Last(h) in h;
      }
    }
  }

  lemma PrefixOk(h: History)
    requires HistoryOk(h) && h != []
    ensures HistoryOk(Older(h))
  {
    assert forall f | f in Older(h) :: f in h;
  }

  /**
   Trusted exactly: the keys of the latest set, and during the overlap those of the set it
   replaced whose IDs it does not reuse.  Key IDs are distinct and the latest set comes first.
   */
  lemma TrustedExactly(h: History, overlap: Time, stale: Time, now: Time)
    requires HistoryOk(h) && Trusted(h, overlap, stale, now).Some?
    ensures var keys := Trusted(h, overlap, stale, now).value;
            && IdsOk(keys) && keys != [] && LatestKeys(h) <= keys
            && (forall k :: k in keys <==>
                  || k in LatestKeys(h)
                  || (k in ReplacedKeys(h) && !HasId(LatestKeys(h), k.id) && now < ChangedAt(h) + overlap))
  {
    KeysAreFromHistory(h);
    MergeIsMerge(LatestKeys(h), ReplacedKeys(h));
  }

  /** No new key set came after position `i`. */
  ghost predicate IsLatest(h: History, i: nat)
    requires i < |h|
  {
    h[i].NewKeys? && forall j | i < j < |h| :: h[j].Confirmed?
  }

  lemma {:induction false} LatestAt(h: History, i: nat)
    requires i < |h| && IsLatest(h, i)
    ensures LatestKeys(h) == h[i].keys && ReplacedKeys(h) == LatestKeys(h[..i]) && ChangedAt(h) == h[i].now
    decreases |h|
  {
    UpToLatest(h, i);
    assert Older(h[..i + 1]) == h[..i];
  }

  lemma {:induction false} UpToLatest(h: History, i: nat)
    requires i < |h| && IsLatest(h, i)
    ensures UpToLastKeys(h) == h[..i + 1]
    decreases |h|
  {
    if i == |h| - 1 {
      assert h[..i + 1] == h;
    } else {
      UpToLatest(Older(h), i);
      assert Older(h)[..i + 1] == h[..i + 1];
    }
  }

  /** The position of the last new key set. */
  lemma {:induction false} FindLatest(h: History) returns (i: nat)
    requires h != [] && h[0].NewKeys?
    ensures i < |h| && IsLatest(h, i)
    decreases |h|
  {
    if Last(h).NewKeys? {
      i := |h| - 1;
    } else {
      i := FindLatest(Older(h));
      assert forall j | i < j < |h| - 1 :: Older(h)[j].Confirmed?;
    }
  }

  lemma {:induction false} HistoryPrefixOk(h: History, i: nat)
    requires HistoryOk(h) && i <= |h|
    ensures HistoryOk(h[..i])
  {
    assert forall f | f in h[..i] :: f in h;
  }

  /** The set at position `i` removed `k`, and no later one brought it back. */
  ghost predicate RemovedAt(h: History, i: nat, k: Key)
    requires i < |h|
  {
    && h[i].NewKeys? && k in LatestKeys(h[..i]) && !HasId(h[i].keys, k.id)
    && forall j | i < j < |h| && h[j].NewKeys? :: k !in h[j].keys
  }

  /**
   A removed key does not last for the whole overlap: it is trusted exactly while no further
   key set has come, and within the overlap of the set that removed it.
   */
  lemma RemovedKeyIsTrustedIff(h: History, i: nat, k: Key, overlap: Time, stale: Time, now: Time)
    requires HistoryOk(h) && i < |h| && RemovedAt(h, i, k) && Trusted(h, overlap, stale, now).Some?
    ensures k in Trusted(h, overlap, stale, now).value <==> IsLatest(h, i) && now < h[i].now + overlap
  {
    TrustedExactly(h, overlap, stale, now);
    if IsLatest(h, i) {
      LatestAt(h, i);
      NoIdNoKey(h[i].keys, k);
    } else {
      GoneFromLatestTwo(h, i, k);
    }
  }

  lemma NoIdNoKey(keys: KeySet, k: Key)
    requires !HasId(keys, k.id)
    ensures k !in keys
  {
  }

  lemma GoneFromLatestTwo(h: History, i: nat, k: Key)
    requires HistoryOk(h) && i < |h| && RemovedAt(h, i, k) && !IsLatest(h, i)
    ensures k !in LatestKeys(h) && k !in ReplacedKeys(h)
  {
    NoIdNoKey(h[i].keys, k);
    var j := FindLatest(h);
    LatestAt(h, j);
    assert i < j && k !in h[j].keys;
    HistoryPrefixOk(h, j);
    var m := FindLatest(h[..j]);
    LatestAt(h[..j], m);
    assert h[..j][m] == h[m] && h[..j][i] == h[i];
    assert i <= m;
  }

  /** The overlap is cut short by any further key set, even an identical one. */
  lemma RemovedKeyIsLostEarly(k: Key, a: Key, overlap: Time, stale: Time)
    requires k.id != "" && a.id != "" && k.id != a.id && overlap > 3 && stale > 3
    ensures var before := [NewKeys([k], 0), NewKeys([a], 1)];
            var after := before + [NewKeys([a], 2)];
            && HistoryOk(after) && RemovedAt(after, 1, k)
            && Trusted(before, overlap, stale, 3).Some? && k in Trusted(before, overlap, stale, 3).value
            && Trusted(after, overlap, stale, 3).Some? && k !in Trusted(after, overlap, stale, 3).value
            && 3 < after[1].now + overlap
  {
    var before := [NewKeys([k], 0), NewKeys([a], 1)];
    var after := before + [NewKeys([a], 2)];
    assert HistoryOk(after) && HistoryOk(before);
    assert before[..1] == [NewKeys([k], 0)] && after[..1] == before[..1];
    LatestAt(before[..1], 0);
    assert RemovedAt(before, 1, k) && RemovedAt(after, 1, k);
    assert after[2].NewKeys?;
    RemovedKeyIsTrustedIff(before, 1, k, overlap, stale, 3);
    RemovedKeyIsTrustedIff(after, 1, k, overlap, stale, 3);
  }

  // ---------------------------------------------------------------------------
  // The manager
  // ---------------------------------------------------------------------------

  datatype Reply = Failed | NotModified | Body(keys: KeySet)

  datatype Snapshot = Snapshot(current: KeySet, withPrevious: KeySet, previousUntil: Time, fetchedAt: Time)

  /** The snapshot says what the history says. */
  ghost predicate Tracks(snapshot: Option<Snapshot>, h: History, overlap: Time) {
    if snapshot.None? then h == []
    else
      && h != []
      && snapshot.value.current == LatestKeys(h)
      && snapshot.value.withPrevious == Merge(LatestKeys(h), ReplacedKeys(h))
      && snapshot.value.previousUntil == ChangedAt(h) + overlap
      && snapshot.value.fetchedAt == Last(h).now
  }

  lemma NewKeysTrack(snapshot: Option<Snapshot>, h: History, overlap: Time, keys: KeySet, now: Time)
    requires Tracks(snapshot, h, overlap) && HistoryOk(h) && IdsOk(keys) && keys != []
    ensures var older := if snapshot.Some? then snapshot.value.current else [];
            Tracks(Some(Snapshot(keys, Merge(keys, older), now + overlap, now)), h + [NewKeys(keys, now)], overlap)
    ensures HistoryOk(h + [NewKeys(keys, now)])
  {
    var more := h + [NewKeys(keys, now)];
    assert Older(more) == h && Last(more) == NewKeys(keys, now);
  }

  lemma ConfirmationTracks(snapshot: Option<Snapshot>, h: History, overlap: Time, now: Time)
    requires Tracks(snapshot, h, overlap) && HistoryOk(h) && snapshot.Some?
    ensures Tracks(Some(snapshot.value.(fetchedAt := now)), h + [Confirmed(now)], overlap)
    ensures HistoryOk(h + [Confirmed(now)])
  {
    var more := h + [Confirmed(now)];
    assert Older(more) == h && Last(more) == Confirmed(now);
  }

  method ValidateKeyIds(keys: KeySet) returns (ok: bool)
    ensures ok <==> IdsOk(keys)
  {
    var seen: set<KeyId> := {};
    for i := 0 to |keys|
      invariant IdsOk(keys[..i])
      invariant forall j | 0 <= j < i :: keys[j].id in seen
      invariant forall id | id in seen :: exists j :: 0 <= j < i && keys[j].id == id
    {
      if keys[i].id == "" || keys[i].id in seen {
        assert keys[i] in keys;
        return false;
      }
      seen := seen + {keys[i].id};
      assert keys[..i + 1] == keys[..i] + [keys[i]];
    }
    assert keys[..|keys|] == keys;
    ok := true;
  }

  method MergeKeys(newer: KeySet, older: KeySet) returns (combined: KeySet)
    ensures combined == Merge(newer, older)
  {
    combined := newer;
    for i := 0 to |older|
      invariant combined == Merge(newer, older[..i])
    {
      assert older[..i + 1][..i] == older[..i];
      if !HasId(combined, older[i].id) {
        combined := combined + [older[i]];
      }
    }
    assert older[..|older|] == older;
  }

  /** A reply that changes what is trusted. */
  predicate Counts(h: History, reply: Reply) {
    (reply.NotModified? && h != []) || (reply.Body? && reply.keys != [] && IdsOk(reply.keys))
  }

  function AfterReply(h: History, reply: Reply, now: Time): History {
    if !Counts(h, reply) then h
    else h + [if reply.Body? then NewKeys(reply.keys, now) else Confirmed(now)]
  }

  class Manager {
    const overlap: Time
    const stale: Time
    var snapshot: Option<Snapshot>
    var lastAttempt: Option<Time>
    var missing: map<KeyId, Time>
    ghost var history: History

    ghost predicate Valid()
      reads this
    {
      HistoryOk(history) && Tracks(snapshot, history, overlap) && |missing| <= MAX_MISSING + 1
    }

    constructor (overlap: Time, stale: Time)
      ensures Valid() && history == [] && this.overlap == overlap && this.stale == stale
    {
      this.overlap, this.stale := overlap, stale;
      snapshot, lastAttempt, missing, history := None, None, map[], [];
    }

    /** The trusted keys at time `now`. */
    method Current(now: Time) returns (keys: Option<KeySet>)
      requires Valid()
      ensures keys == Trusted(history, overlap, stale, now)
    {
      if snapshot.None? || now - snapshot.value.fetchedAt > stale {
        return None;
      }
      if now < snapshot.value.previousUntil {
        return Some(snapshot.value.withPrevious);
      }
      return Some(snapshot.value.current);
    }

    /** One request to the endpoint: only a valid key set or a confirmation of one changes anything. */
    method RefreshLocked(reply: Reply, now: Time) returns (ok: bool)
      requires Valid()
      modifies this
      ensures Valid() && missing == old(missing) && lastAttempt == Some(now)
      ensures ok == Counts(old(history), reply) && history == AfterReply(old(history), reply, now)
    {
      lastAttempt := Some(now);
      match reply
      case Failed => ok := false;
      case NotModified =>
        if snapshot.None? {
          return false;
        }
        ConfirmationTracks(snapshot, history, overlap, now);
        snapshot := Some(snapshot.value.(fetchedAt := now));
        history := history + [Confirmed(now)];
        ok := true;
      case Body(keys) =>
        if keys == [] {
          return false;
        }
        ok := ValidateKeyIds(keys);
        if ok {
          var combined := MergeKeys(keys, if snapshot.Some? then snapshot.value.current else []);
          NewKeysTrack(snapshot, history, overlap, keys, now);
          snapshot := Some(Snapshot(keys, combined, now + overlap, now));
          history := history + [NewKeys(keys, now)];
        }
    }

    /** Calls within one second of the last attempt are answered from the cache, if there is anything to trust. */
    method Refresh(reply: Reply, now: Time) returns (asked: bool)
      requires Valid()
      modifies this
      ensures Valid() && missing == old(missing)
      ensures !asked <==>
                old(lastAttempt).Some? && now - old(lastAttempt).value < SECOND
                && Trusted(old(history), overlap, stale, now).Some?
      ensures history == if asked then AfterReply(old(history), reply, now) else old(history)
    {
      if lastAttempt.Some? && now - lastAttempt.value < SECOND {
        var keys := Current(now);
        if keys.Some? {
          return false;
        }
      }
      var _ := RefreshLocked(reply, now);
      asked := true;
    }

    /** Asks at most once a minute for the same unknown key ID, and remembers a bounded number of them. */
    method RefreshUnknownKey(id: KeyId, reply: Reply, now: Time) returns (asked: bool)
      requires Valid()
      modifies this
      ensures Valid()
      ensures !asked <==>
                || (var trusted := Trusted(old(history), overlap, stale, now);
                    trusted.Some? && HasId(trusted.value, id))
                || (id in old(missing) && now - old(missing)[id] < MINUTE)
      ensures asked ==> id in missing && missing[id] == now && history == AfterReply(old(history), reply, now)
      ensures !asked ==> missing == old(missing) && history == old(history)
    {
      var keys := Current(now);
      if keys.Some? && HasId(keys.value, id) {
        return false;
      }
      if id in missing && now - missing[id] < MINUTE {
        return false;
      }
      if |missing| > MAX_MISSING {
        missing := map[];
      }
      ghost var before := missing;
      missing := missing[id := now];
      assert missing.Keys == before.Keys + {id};
      assert |missing.Keys| <= MAX_MISSING + 1;
      var _ := RefreshLocked(reply, now);
      asked := true;
    }
  }
}
