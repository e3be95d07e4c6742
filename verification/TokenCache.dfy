/**
 The bounded token cache.  `Recency` is the simple view: slots in order of last use,
 most recent first.  `TokenCache` is the implementation: a map of entries and a linked
 list of elements that point at each other.
 */
module TokenCaches {
  import opened Options

  type Key = string
  type Time = int

  datatype Token = Token(access: string, expires: Time)

  /** What an entry holds: a token served until `serveUntil`, or an error until `until`. */
  datatype Payload =
    | Positive(token: Token, serveUntil: Time)
    | Negative(error: string, until: Time)

  datatype Slot = Slot(key: Key, payload: Payload)

  type Recency = seq<Slot>

  datatype Answer = Miss | Hit(token: Token) | Stale(token: Token) | Refused(error: string)

  /** Capacity, refresh skew and lifetime of negative entries, as the constructor accepts them. */
  datatype Config = Config(capacity: nat, skew: nat, negativeTTL: nat) {
    predicate Accepted() {
      capacity > 0
    }
  }

  // ---------------------------------------------------------------------------
  // The recency-ordered view
  // ---------------------------------------------------------------------------

  predicate Has(c: Recency, k: Key) {
    exists i | 0 <= i < |c| :: c[i].key == k
  }

  function Find(c: Recency, k: Key): Option<Payload> {
    if c == [] then None else if c[0].key == k then Some(c[0].payload) else Find(c[1..], k)
  }

  function Without(c: Recency, k: Key): Recency {
    if c == [] then [] else (if c[0].key == k then [] else [c[0]]) + Without(c[1..], k)
  }

  function Trim(c: Recency, capacity: nat): Recency {
    if |c| > capacity then c[..capacity] else c
  }

  function ToFront(c: Recency, k: Key, payload: Payload): Recency {
    [Slot(k, payload)] + Without(c, k)
  }

  function Answered(payload: Payload, now: Time): Answer {
    match payload
    case Negative(error, until) => if now < until then Refused(error) else Miss
    case Positive(token, serveUntil) =>
      if now >= token.expires then Miss else if now < serveUntil then Hit(token) else Stale(token)
  }

  function Look(c: Recency, k: Key, now: Time): Answer {
    var found := Find(c, k);
    if found.None? then Miss else Answered(found.value, now)
  }

  /** A lookup refreshes the slot, or drops it once it has nothing left to serve. */
  function AfterLook(c: Recency, k: Key, now: Time): Recency {
    var found := Find(c, k);
    if found.None? then c
    else if Answered(found.value, now).Miss? then Without(c, k)
    else ToFront(c, k, found.value)
  }

  function Fresh(token: Token, now: Time, skew: nat): Payload {
    Positive(token, if token.expires - skew < now then now else token.expires - skew)
  }

  function Store(c: Recency, k: Key, payload: Payload, capacity: nat): Recency {
    Trim(ToFront(c, k, payload), capacity)
  }

  predicate DistinctKeys(c: Recency) {
    forall i, j | 0 <= i < j < |c| :: c[i].key != c[j].key
  }

  lemma {:induction false} WithoutIsFilter(c: Recency, k: Key)
    ensures forall x :: x in Without(c, k) <==> x in c && x.key != k
    ensures !Has(Without(c, k), k)
  {
    if c != [] {
      WithoutIsFilter(c[1..], k);
      assert c == [c[0]] + c[1..];
    }
    assert forall i | 0 <= i < |Without(c, k)| :: Without(c, k)[i] in Without(c, k);
  }

  lemma {:induction false} WithoutAbsent(c: Recency, k: Key)
    requires !Has(c, k)
    ensures Without(c, k) == c
  {
    if c != [] {
      assert c[0].key != k;
      assert forall i | 0 <= i < |c[1..]| :: c[1..][i] == c[i + 1];
      WithoutAbsent(c[1..], k);
    }
  }

  lemma {:induction false} WithoutKeepsDistinct(c: Recency, k: Key)
    requires DistinctKeys(c)
    ensures DistinctKeys(Without(c, k))
    ensures |Without(c, k)| == if Has(c, k) then |c| - 1 else |c|
  {
    if c != [] {
      var rest := Without(c[1..], k);
      TailIsDistinct(c);
      WithoutKeepsDistinct(c[1..], k);
      WithoutIsFilter(c[1..], k);
      HasInTail(c, k);
      HeadIsDistinct(c[0], rest);
    }
  }

  /** No slot of `rest` has the key of `x`. */
  predicate IsNewTo(x: Slot, rest: Recency) {
    forall y | y in rest :: y.key != x.key
  }

  lemma TailIsDistinct(c: Recency)
    requires c != [] && DistinctKeys(c)
    ensures DistinctKeys(c[1..]) && IsNewTo(c[0], c[1..]) && !Has(c[1..], c[0].key)
  {
    var rest := c[1..];
    assert forall i | 0 <= i < |rest| :: rest[i] == c[i + 1];
  }

  lemma HeadIsDistinct(x: Slot, rest: Recency)
    requires DistinctKeys(rest) && IsNewTo(x, rest)
    ensures DistinctKeys([x] + rest)
  {
    var all := [x] + rest;
    assert forall i | 1 <= i < |all| :: all[i] == rest[i - 1] && rest[i - 1] in rest;
  }

  lemma HasInTail(c: Recency, k: Key)
    requires c != []
    ensures Has(c, k) <==> c[0].key == k || Has(c[1..], k)
  {
    var rest := c[1..];
    assert forall i | 0 <= i < |rest| :: rest[i] == c[i + 1];
    if i :| 1 <= i < |c| && c[i].key == k {
      assert rest[i - 1].key == k;
    }
  }

  lemma {:induction false} FindIsSlot(c: Recency, k: Key)
    ensures Find(c, k).Some? <==> Has(c, k)
    ensures Find(c, k).Some? ==> Slot(k, Find(c, k).value) in c
    ensures forall i | 0 <= i < |c| && c[i].key == k :: DistinctKeys(c) ==> Find(c, k) == Some(c[i].payload)
  {
    if c != [] {
      FindIsSlot(c[1..], k);
      if c[0].key != k {
        forall i | 0 <= i < |c| && c[i].key == k
          ensures c[1..][i - 1] == c[i]
        {
        }
        if Find(c, k).Some? {
          var i :| 0 <= i < |c[1..]| && c[1..][i].key == k;
          assert c[i + 1].key == k;
        }
      }
    }
  }

  // ---------------------------------------------------------------------------
  // The map and the linked list
  // ---------------------------------------------------------------------------

  /** An entry knows its list element; `element` is that element's identity. */
  datatype Entry = Entry(key: Key, payload: Payload, element: nat)

  /** A list element holds the entry it was pushed for, named by its key. */
  datatype Element = Element(id: nat, key: Key)

  function WithoutElement(lru: seq<Element>, id: nat): seq<Element> {
    if lru == [] then [] else (if lru[0].id == id then [] else [lru[0]]) + WithoutElement(lru[1..], id)
  }

  /** Elements and entries point at each other, and no element occurs twice. */
  ghost predicate Linked(entries: map<Key, Entry>, lru: seq<Element>, next: nat) {
    && (forall i | 0 <= i < |lru| ::
          && lru[i].key in entries && lru[i].id < next
          && entries[lru[i].key].element == lru[i].id && entries[lru[i].key].key == lru[i].key)
    && (forall i, j | 0 <= i < j < |lru| :: lru[i].id != lru[j].id)
    && (forall k | k in entries :: Element(entries[k].element, k) in lru)
  }

  function Slots(entries: map<Key, Entry>, lru: seq<Element>): Recency
    requires forall e | e in lru :: e.key in entries
  {
    if lru == [] then []
    else [Slot(lru[0].key, entries[lru[0].key].payload)] + Slots(entries, lru[1..])
  }

  lemma {:induction false} SlotsAt(entries: map<Key, Entry>, lru: seq<Element>)
    requires forall e | e in lru :: e.key in entries
    ensures |Slots(entries, lru)| == |lru|
    ensures forall i | 0 <= i < |lru| ::
              Slots(entries, lru)[i] == Slot(lru[i].key, entries[lru[i].key].payload)
  {
    if lru != [] {
      SlotsAt(entries, lru[1..]);
    }
  }

  lemma {:induction false} SlotsSame(entries: map<Key, Entry>, entries': map<Key, Entry>, lru: seq<Element>)
    requires forall e | e in lru :: e.key in entries && e.key in entries' && entries[e.key] == entries'[e.key]
    ensures Slots(entries, lru) == Slots(entries', lru)
  {
    if lru != [] {
      SlotsSame(entries, entries', lru[1..]);
    }
  }

  lemma LinkedKeysDistinct(entries: map<Key, Entry>, lru: seq<Element>, next: nat)
    requires Linked(entries, lru, next)
    ensures DistinctKeys(Slots(entries, lru))
  {
    SlotsAt(entries, lru);
  }

  lemma {:induction false} WithoutElementIsFilter(lru: seq<Element>, id: nat)
    requires forall i, j | 0 <= i < j < |lru| :: lru[i].id != lru[j].id
    ensures |WithoutElement(lru, id)| <= |lru|
    ensures forall e :: e in WithoutElement(lru, id) <==> e in lru && e.id != id
    ensures var r := WithoutElement(lru, id); forall i, j | 0 <= i < j < |r| :: r[i].id != r[j].id
  {
    if lru != [] {
      WithoutElementIsFilter(lru[1..], id);
      assert lru == [lru[0]] + lru[1..];
      var rest := WithoutElement(lru[1..], id);
      forall j | 0 <= j < |rest|
        ensures rest[j].id != lru[0].id
      {
        assert rest[j] in lru[1..];
      }
    }
  }

  /** Removing an entry's element is removing its key from the recency order. */
  lemma {:induction false} SlotsWithout(entries: map<Key, Entry>, lru: seq<Element>, k: Key, id: nat)
    requires forall e | e in lru :: e.key in entries && (e.key == k <==> e.id == id)
    requires forall e | e in WithoutElement(lru, id) :: e.key in entries - {k}
    ensures Slots(entries - {k}, WithoutElement(lru, id)) == Without(Slots(entries, lru), k)
  {
    if lru != [] {
      var rest := WithoutElement(lru[1..], id);
      assert forall e | e in rest :: e in WithoutElement(lru, id);
      SlotsWithout(entries, lru[1..], k, id);
      assert Slots(entries, lru)[1..] == Slots(entries, lru[1..]);
      if lru[0].id != id {
        SlotsCons(entries - {k}, lru[0], rest);
      } else {
        assert WithoutElement(lru, id) == rest;
      }
    }
  }

  lemma SlotsCons(entries: map<Key, Entry>, e: Element, rest: seq<Element>)
    requires e.key in entries && forall x | x in rest :: x.key in entries
    ensures Slots(entries, [e] + rest) == [Slot(e.key, entries[e.key].payload)] + Slots(entries, rest)
  {
    assert ([e] + rest)[1..] == rest;
  }

  lemma RemoveKeepsLinked(entries: map<Key, Entry>, lru: seq<Element>, next: nat, k: Key)
    requires Linked(entries, lru, next) && k in entries
    ensures var id := entries[k].element;
            && Linked(entries - {k}, WithoutElement(lru, id), next)
            && Slots(entries - {k}, WithoutElement(lru, id)) == Without(Slots(entries, lru), k)
  {
    var id := entries[k].element;
    WithoutElementIsFilter(lru, id);
    ElementsOfKey(entries, lru, next, k);
    RestIsLinked(entries, lru, WithoutElement(lru, id), next, k);
    SlotsWithout(entries, lru, k, id);
  }

  /** The element of an entry is the only one with its key, and the only one with its identity. */
  lemma ElementsOfKey(entries: map<Key, Entry>, lru: seq<Element>, next: nat, k: Key)
    requires Linked(entries, lru, next) && k in entries
    ensures forall e | e in lru :: e.key in entries && (e.key == k <==> e.id == entries[k].element)
  {
    var id := entries[k].element;
    forall e | e in lru
      ensures e.key in entries && (e.key == k <==> e.id == id)
    {
      var i :| 0 <= i < |lru| && lru[i] == e;
      var j :| 0 <= j < |lru| && lru[j] == Element(id, k);
    }
  }

  lemma RestIsLinked(entries: map<Key, Entry>, lru: seq<Element>, rest: seq<Element>, next: nat, k: Key)
    requires Linked(entries, lru, next) && k in entries
    requires forall e | e in lru :: e.key in entries && (e.key == k <==> e.id == entries[k].element)
    requires forall e :: e in rest <==> e in lru && e.id != entries[k].element
    requires forall i, j | 0 <= i < j < |rest| :: rest[i].id != rest[j].id
    ensures Linked(entries - {k}, rest, next)
  {
    forall i | 0 <= i < |rest|
      ensures rest[i].key in entries - {k} && rest[i].id < next
      ensures (entries - {k})[rest[i].key].element == rest[i].id && (entries - {k})[rest[i].key].key == rest[i].key
    {
      assert rest[i] in lru;
      var j :| 0 <= j < |lru| && lru[j] == rest[i];
    }
  }

  lemma PushKeepsLinked(
      entries: map<Key, Entry>, lru: seq<Element>, next: nat, k: Key, payload: Payload, id: nat)
    requires Linked(entries, lru, next) && k !in entries && id <= next
    requires forall e | e in lru :: e.id != id
    ensures var entries' := entries[k := Entry(k, payload, id)];
            && Linked(entries', [Element(id, k)] + lru, if id < next then next else next + 1)
            && Slots(entries', [Element(id, k)] + lru) == [Slot(k, payload)] + Slots(entries, lru)
  {
    var entries' := entries[k := Entry(k, payload, id)];
    var lru' := [Element(id, k)] + lru;
    assert lru'[1..] == lru;
    SlotsSame(entries, entries', lru);
    PushKeepsElements(entries, lru, next, k, payload, id);
    forall h | h in entries'
      ensures Element(entries'[h].element, h) in lru'
    {
      if h == k {
        assert lru'[0] == Element(id, k);
      } else {
        assert Element(entries[h].element, h) in lru;
      }
    }
  }

  lemma PushKeepsElements(
      entries: map<Key, Entry>, lru: seq<Element>, next: nat, k: Key, payload: Payload, id: nat)
    requires Linked(entries, lru, next) && k !in entries && id <= next
    requires forall e | e in lru :: e.id != id
    ensures var entries', lru' := entries[k := Entry(k, payload, id)], [Element(id, k)] + lru;
            && (forall i | 0 <= i < |lru'| ::
                  && lru'[i].key in entries' && lru'[i].id < (if id < next then next else next + 1)
                  && entries'[lru'[i].key].element == lru'[i].id && entries'[lru'[i].key].key == lru'[i].key)
            && (forall i, j | 0 <= i < j < |lru'| :: lru'[i].id != lru'[j].id)
  {
    var lru' := [Element(id, k)] + lru;
    assert forall i | 1 <= i < |lru'| :: lru'[i] == lru[i - 1] && lru[i - 1] in lru;
  }

  lemma {:induction false} CountsAgree(entries: map<Key, Entry>, lru: seq<Element>, next: nat)
    requires Linked(entries, lru, next)
    ensures |entries| == |lru| == |Slots(entries, lru)|
    decreases |lru|
  {
    if lru == [] {
      assert entries.Keys == {} by {
        if k :| k in entries {
          assert Element(entries[k].element, k) in lru;
        }
      }
    } else {
      var k := lru[0].key;
      RemoveKeepsLinked(entries, lru, next, k);
      SlotsAt(entries, lru);
      var rest := WithoutElement(lru, lru[0].id);
      SlotsAt(entries - {k}, rest);
      LinkedKeysDistinct(entries, lru, next);
      var c := Slots(entries, lru);
      assert c[0].key == k;
      WithoutKeepsDistinct(c, k);
      CountsAgree(entries - {k}, rest, next);
      assert (entries - {k}).Keys == entries.Keys - {k};
      assert |entries.Keys - {k}| == |entries.Keys| - 1;
    }
  }

  lemma AbsentKey(entries: map<Key, Entry>, lru: seq<Element>, next: nat, k: Key)
    requires Linked(entries, lru, next) && k !in entries
    ensures !Has(Slots(entries, lru), k)
    ensures Without(Slots(entries, lru), k) == Slots(entries, lru)
    ensures Find(Slots(entries, lru), k).None?
  {
    SlotsAt(entries, lru);
    WithoutAbsent(Slots(entries, lru), k);
    FindIsSlot(Slots(entries, lru), k);
  }

  lemma PresentKey(entries: map<Key, Entry>, lru: seq<Element>, next: nat, k: Key)
    requires Linked(entries, lru, next) && k in entries
    ensures Find(Slots(entries, lru), k) == Some(entries[k].payload)
  {
    var c := Slots(entries, lru);
    SlotsAt(entries, lru);
    LinkedKeysDistinct(entries, lru, next);
    FindIsSlot(c, k);
    var i :| 0 <= i < |lru| && lru[i] == Element(entries[k].element, k);
    assert c[i].key == k;
  }

  lemma EntryOfKey(entries: map<Key, Entry>, lru: seq<Element>, next: nat, k: Key)
    requires Linked(entries, lru, next) && k in entries
    ensures entries[k] == Entry(k, entries[k].payload, entries[k].element) && entries[k].element < next
    ensures forall e | e in WithoutElement(lru, entries[k].element) :: e.id != entries[k].element
    ensures k !in entries - {k}
  {
    var i :| 0 <= i < |lru| && lru[i] == Element(entries[k].element, k);
    WithoutElementIsFilter(lru, entries[k].element);
  }

  /** Moving an entry's element to the front is moving its key to the front. */
  lemma MoveKeepsLinked(entries: map<Key, Entry>, lru: seq<Element>, next: nat, k: Key)
    requires Linked(entries, lru, next) && k in entries
    ensures var id := entries[k].element;
            var moved := [Element(id, k)] + WithoutElement(lru, id);
            && Linked(entries, moved, next)
            && Slots(entries, moved) == ToFront(Slots(entries, lru), k, entries[k].payload)
  {
    EntryOfKey(entries, lru, next, k);
    RemoveKeepsLinked(entries, lru, next, k);
    RelinkAtFront(entries, WithoutElement(lru, entries[k].element), next, k);
  }

  lemma RelinkAtFront(entries: map<Key, Entry>, rest: seq<Element>, next: nat, k: Key)
    requires k in entries && entries[k] == Entry(k, entries[k].payload, entries[k].element)
    requires entries[k].element < next && forall e | e in rest :: e.id != entries[k].element
    requires Linked(entries - {k}, rest, next)
    ensures var moved := [Element(entries[k].element, k)] + rest;
            && Linked(entries, moved, next)
            && Slots(entries, moved) == [Slot(k, entries[k].payload)] + Slots(entries - {k}, rest)
  {
    PushKeepsLinked(entries - {k}, rest, next, k, entries[k].payload, entries[k].element);
    assert (entries - {k})[k := entries[k]] == entries;
  }

  lemma {:induction false} LastWithout(c: Recency, k: Key)
    requires DistinctKeys(c) && c != [] && c[|c| - 1].key == k
    ensures Without(c, k) == c[..|c| - 1]
  {
    if |c| > 1 {
      assert c[1..][|c[1..]| - 1] == c[|c| - 1];
      LastWithout(c[1..], k);
      assert c[0].key != k;
      assert [c[0]] + c[1..][..|c| - 2] == c[..|c| - 1];
    }
  }
  /** The back of the list is the end of the recency order. */
  lemma LastEntry(entries: map<Key, Entry>, lru: seq<Element>, next: nat)
    requires Linked(entries, lru, next) && lru != []
    ensures var c := Slots(entries, lru);
            |c| == |lru| && Without(c, lru[|lru| - 1].key) == c[..|c| - 1]
  {
    SlotsAt(entries, lru);
    LinkedKeysDistinct(entries, lru, next);
    LastWithout(Slots(entries, lru), lru[|lru| - 1].key);
  }

  class TokenCache {
    const config: Config
    var entries: map<Key, Entry>
    var lru: seq<Element>
    var nextElement: nat

    ghost predicate Valid()
      reads this
    {
      Linked(entries, lru, nextElement)
    }

    ghost function Contents(): Recency
      reads this
      requires Valid()
    {
      Slots(entries, lru)
    }

    constructor (config: Config)
      ensures this.config == config && Valid() && Contents() == []
    {
      this.config := config;
      entries, lru, nextElement := map[], [], 0;
    }

    method Remove(k: Key)
      requires Valid()
      modifies this
      ensures Valid() && Contents() == Without(old(Contents()), k)
      ensures k !in entries && nextElement == old(nextElement)
    {
      if k in entries {
        RemoveKeepsLinked(entries, lru, nextElement, k);
        lru := WithoutElement(lru, entries[k].element);
        entries := entries - {k};
      } else {
        AbsentKey(entries, lru, nextElement, k);
      }
    }

    /** `PushFront` of a new entry. */
    method Push(k: Key, payload: Payload)
      requires Valid() && k !in entries
      modifies this
      ensures Valid() && Contents() == [Slot(k, payload)] + old(Contents())
    {
      PushKeepsLinked(entries, lru, nextElement, k, payload, nextElement);
      entries := entries[k := Entry(k, payload, nextElement)];
      lru := [Element(nextElement, k)] + lru;
      nextElement := nextElement + 1;
    }

    /** `MoveToFront` of an existing entry, which keeps its element. */
    method MoveToFront(k: Key)
      requires Valid() && k in entries
      modifies this
      ensures Valid() && entries == old(entries)
      ensures Find(old(Contents()), k) == Some(entries[k].payload)
      ensures Contents() == ToFront(old(Contents()), k, entries[k].payload)
    {
      PresentKey(entries, lru, nextElement, k);
      MoveKeepsLinked(entries, lru, nextElement, k);
      lru := [Element(entries[k].element, k)] + WithoutElement(lru, entries[k].element);
    }

    method Lookup(k: Key, now: Time) returns (answer: Answer)
      requires Valid()
      modifies this
      ensures Valid()
      ensures answer == Look(old(Contents()), k, now)
      ensures Contents() == AfterLook(old(Contents()), k, now)
    {
      ghost var c := Contents();
      if k !in entries {
        AbsentKey(entries, lru, nextElement, k);
        return Miss;
      }
      MoveToFront(k);
      var payload := entries[k].payload;
      answer := Answered(payload, now);
      if answer.Miss? {
        Remove(k);
        WithoutIsFilter(c, k);
        WithoutAbsent(Without(c, k), k);
        assert Without(ToFront(c, k, payload), k) == Without(Without(c, k), k);
      }
    }

    method Evict()
      requires Valid()
      modifies this
      ensures Valid() && Contents() == Trim(old(Contents()), config.capacity)
    {
      ghost var c := Contents();
      CountsAgree(entries, lru, nextElement);
      while |entries| > config.capacity
        invariant Valid()
        invariant Contents() == Trim(c, |entries|)
        invariant |entries| == |Contents()| <= |c| && (|entries| == |c| || |entries| >= config.capacity)
      {
        RemoveOldest();
      }
    }

    /** Removes the entry at the back of the list. */
    method RemoveOldest()
      requires Valid() && |entries| > 0
      modifies this
      ensures Valid() && |entries| == old(|entries|) - 1 == |Contents()|
      ensures old(|Contents()|) > 0 && Contents() == old(Contents())[..old(|Contents()|) - 1]
    {
      CountsAgree(entries, lru, nextElement);
      LastEntry(entries, lru, nextElement);
      Remove(lru[|lru| - 1].key);
      CountsAgree(entries, lru, nextElement);
    }

    /** Replaces the entry of `k` by a new one in front, and evicts what no longer fits. */
    method Replace(k: Key, payload: Payload)
      requires Valid()
      modifies this
      ensures Valid() && Contents() == Store(old(Contents()), k, payload, config.capacity)
    {
      Remove(k);
      Push(k, payload);
      Evict();
    }

    method StoreToken(k: Key, token: Token, now: Time)
      requires Valid()
      modifies this
      ensures Valid()
      ensures Contents() == Store(old(Contents()), k, Fresh(token, now, config.skew), config.capacity)
    {
      var serveUntil := token.expires - config.skew;
      if serveUntil < now {
        serveUntil := now;
      }
      Replace(k, Positive(token, serveUntil));
    }

    method StoreNegative(k: Key, error: string, now: Time)
      requires Valid()
      modifies this
      ensures Valid()
      ensures Contents() ==
              Store(old(Contents()), k, Negative(error, now + config.negativeTTL), config.capacity)
    {
      Replace(k, Negative(error, now + config.negativeTTL));
    }

    method Invalidate(k: Key)
      requires Valid()
      modifies this
      ensures Valid() && Contents() == Without(old(Contents()), k)
    {
      Remove(k);
    }

    method Flush()
      requires Valid()
      modifies this
      ensures Valid() && Contents() == []
    {
      entries, lru := map[], [];
    }
  }

}
