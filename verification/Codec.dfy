/**
 Codecs for the token store: one that can be inverted exists, and every one of them has maps
 whose encoding is longer than any given bound.
 */
module Codecs {
  import opened Options
  import opened Texts
  import opened Sets
  import opened TokenStores

  // ---------------------------------------------------------------------------
  // A codec that can be inverted
  // ---------------------------------------------------------------------------

  function Unary(n: nat): Text {
    seq(n, _ => 1) + [0]
  }

  function EncodeChars(s: string): Text {
    if s == [] then [] else Unary(s[0] as int) + EncodeChars(s[1..])
  }

  function EncodeString(s: string): Text {
    Unary(|s|) + EncodeChars(s)
  }

  function EncodeInt(n: int): Text {
    Unary(if n >= 0 then 2 * n else -2 * n - 1)
  }

  datatype Item = Item(key: Key, token: Token)

  function EncodeItem(x: Item): Text {
    EncodeString(x.key)
    + (EncodeString(x.token.access) + (EncodeString(x.token.refresh) + EncodeInt(x.token.expiresAt)))
  }

  function EncodeItems(xs: seq<Item>): Text {
    if xs == [] then [] else EncodeItem(xs[0]) + EncodeItems(xs[1..])
  }

  /** The entries of a map, in some order. */
  ghost function Items(m: Records): seq<Item>
    decreases |m|
  {
    if m == map[] then []
    else
      var k :| k in m;
      assert (m - {k}).Keys == m.Keys - {k};
      assert |(m - {k}).Keys| == |m.Keys| - 1;
      [Item(k, m[k])] + Items(m - {k})
  }

  function FromItems(xs: seq<Item>): Records {
    if xs == [] then map[] else FromItems(xs[1..])[xs[0].key := xs[0].token]
  }

  lemma {:induction false} ItemsRoundTrip(m: Records)
    ensures FromItems(Items(m)) == m
    decreases |m|
  {
    if m != map[] {
      var k := Items(m)[0].key;
      assert Items(m)[1..] == Items(m - {k});
      assert (m - {k}).Keys == m.Keys - {k};
      assert |(m - {k}).Keys| == |m.Keys| - 1;
      ItemsRoundTrip(m - {k});
      assert m == (m - {k})[k := m[k]];
    }
  }

  lemma UnaryIsPrefixFree(a: nat, x: Text, b: nat, y: Text)
    requires Unary(a) + x == Unary(b) + y
    ensures a == b && x == y
  {
    var whole := Unary(a) + x;
    assert whole[a] == 0 && whole[b] == 0;
    assert forall i | 0 <= i < a :: whole[i] == 1;
    assert forall i | 0 <= i < b :: (Unary(b) + y)[i] == 1;
    assert whole[a + 1..] == x && whole[b + 1..] == y;
  }

  lemma {:induction false} CharsArePrefixFree(a: string, x: Text, b: string, y: Text)
    requires |a| == |b| && EncodeChars(a) + x == EncodeChars(b) + y
    ensures a == b && x == y
  {
    if a == [] {
      assert EncodeChars(a) + x == x && EncodeChars(b) + y == y;
    } else {
      assert EncodeChars(a) + x == Unary(a[0] as int) + (EncodeChars(a[1..]) + x);
      assert EncodeChars(b) + y == Unary(b[0] as int) + (EncodeChars(b[1..]) + y);
      UnaryIsPrefixFree(a[0] as int, EncodeChars(a[1..]) + x, b[0] as int, EncodeChars(b[1..]) + y);
      CharsArePrefixFree(a[1..], x, b[1..], y);
      assert a == [a[0]] + a[1..] && b == [b[0]] + b[1..];
    }
  }

  lemma StringIsPrefixFree(a: string, x: Text, b: string, y: Text)
    requires EncodeString(a) + x == EncodeString(b) + y
    ensures a == b && x == y
  {
    assert EncodeString(a) + x == Unary(|a|) + (EncodeChars(a) + x);
    assert EncodeString(b) + y == Unary(|b|) + (EncodeChars(b) + y);
    UnaryIsPrefixFree(|a|, EncodeChars(a) + x, |b|, EncodeChars(b) + y);
    CharsArePrefixFree(a, x, b, y);
  }

  lemma ItemIsPrefixFree(a: Item, x: Text, b: Item, y: Text)
    requires EncodeItem(a) + x == EncodeItem(b) + y
    ensures a == b && x == y
  {
    var a3, b3 := EncodeInt(a.token.expiresAt) + x, EncodeInt(b.token.expiresAt) + y;
    var a2, b2 := EncodeString(a.token.refresh) + a3, EncodeString(b.token.refresh) + b3;
    var a1, b1 := EncodeString(a.token.access) + a2, EncodeString(b.token.access) + b2;
    ItemUnfolds(a, x);
    ItemUnfolds(b, y);
    StringIsPrefixFree(a.key, a1, b.key, b1);
    StringIsPrefixFree(a.token.access, a2, b.token.access, b2);
    StringIsPrefixFree(a.token.refresh, a3, b.token.refresh, b3);
    var m, n := a.token.expiresAt, b.token.expiresAt;
    UnaryIsPrefixFree(if m >= 0 then 2 * m else -2 * m - 1, x, if n >= 0 then 2 * n else -2 * n - 1, y);
  }

  lemma ItemUnfolds(a: Item, x: Text)
    ensures EncodeItem(a) + x
            == EncodeString(a.key)
               + (EncodeString(a.token.access) + (EncodeString(a.token.refresh) + (EncodeInt(a.token.expiresAt) + x)))
  {
    var k, t := EncodeString(a.key), EncodeString(a.token.access);
    var r, e := EncodeString(a.token.refresh), EncodeInt(a.token.expiresAt);
    assert (k + (t + (r + e))) + x == k + (t + (r + (e + x)));
  }

  lemma {:induction false} ItemsAreInjective(xs: seq<Item>, ys: seq<Item>)
    requires EncodeItems(xs) == EncodeItems(ys)
    ensures xs == ys
  {
    if xs != [] && ys != [] {
      ItemIsPrefixFree(xs[0], EncodeItems(xs[1..]), ys[0], EncodeItems(ys[1..]));
      ItemsAreInjective(xs[1..], ys[1..]);
      assert xs == [xs[0]] + xs[1..] && ys == [ys[0]] + ys[1..];
    }
  }

  ghost function EncodeMap(m: Records): Text {
    EncodeItems(Items(m))
  }

  lemma MapsAreInjective(m: Records, n: Records)
    requires EncodeMap(m) == EncodeMap(n)
    ensures m == n
  {
    ItemsAreInjective(Items(m), Items(n));
    ItemsRoundTrip(m);
    ItemsRoundTrip(n);
  }

  ghost function DecodeMap(b: Text): Option<Records> {
    if exists m :: EncodeMap(m) == b then
      var m :| EncodeMap(m) == b;
      Some(m)
    else None
  }

  /** The premise of the store's theorems can be met. */
  lemma InvertibleCodecExists() returns (c: Codec)
    ensures Invertible(c)
  {
    c := Codec((m, nonce) => EncodeMap(m), b => DecodeMap(b));
    forall m: Records, n: Nonce
      ensures c.decode(c.encode(m, n)) == Some(m)
    {
      var found := DecodeMap(EncodeMap(m));
      assert EncodeMap(m) == EncodeMap(m);
      MapsAreInjective(m, found.value);
    }
  }

  // ---------------------------------------------------------------------------
  // Every codec outgrows every bound
  // ---------------------------------------------------------------------------

  /** Byte strings as numbers, in bijective base 256. */
  function ValueOf(b: Text): nat {
    if b == [] then 0 else 1 + b[0] + 256 * ValueOf(b[1..])
  }

  function Cap(n: nat): nat {
    if n == 0 then 1 else 256 * Cap(n - 1) + 1
  }

  lemma {:induction false} ValueIsInjective(a: Text, b: Text)
    requires ValueOf(a) == ValueOf(b)
    ensures a == b
  {
    if a != [] && b != [] {
      DigitsAreUnique(a[0], ValueOf(a[1..]), b[0], ValueOf(b[1..]));
      ValueIsInjective(a[1..], b[1..]);
      assert a == [a[0]] + a[1..] && b == [b[0]] + b[1..];
    }
  }

  lemma DigitsAreUnique(d: Byte, x: nat, e: Byte, y: nat)
    requires 1 + d + 256 * x == 1 + e + 256 * y
    ensures d == e && x == y
  {
  }

  lemma {:induction false} ValueIsBounded(b: Text, n: nat)
    requires |b| <= n
    ensures ValueOf(b) < Cap(n)
    decreases n
  {
    if b != [] {
      ValueIsBounded(b[1..], n - 1);
    } else if n > 0 {
      ValueIsBounded(b, n - 1);
    }
  }

  lemma {:induction false} ImageSize(f: nat -> nat, n: nat)
    requires forall i: nat, j: nat | i < j :: f(i) != f(j)
    ensures |set i | 0 <= i < n :: f(i)| == n
  {
    if n > 0 {
      ImageSize(f, n - 1);
      assert (set i | 0 <= i < n :: f(i)) == (set i | 0 <= i < n - 1 :: f(i)) + {f(n - 1)};
    }
  }

  function Below(p: nat): (r: set<nat>)
    ensures |r| == p && forall i: nat :: i in r <==> i < p
  {
    if p == 0 then {} else Below(p - 1) + {p - 1}
  }

  /** An injective function on the naturals takes a value of at least `p`. */
  lemma SomeValueIsLarge(f: nat -> nat, p: nat) returns (i: nat)
    requires forall i: nat, j: nat | i < j :: f(i) != f(j)
    ensures f(i) >= p
  {
    if j: nat :| j <= p && f(j) >= p {
      i := j;
    } else {
      ImageSize(f, p + 1);
      SubsetSize(set j | 0 <= j < p + 1 :: f(j), Below(p));
      assert false;
    }
  }

  function Sample(i: nat): Token {
    Token("a", "r", i)
  }

  /** Some one-token map is encoded in more than `n` bytes. */
  lemma EveryCodecOutgrows(c: Codec, key: Key, nonce: Nonce, n: nat) returns (token: Token)
    requires Invertible(c)
    ensures token.access != "" && |c.encode(map[key := token], nonce)| > n
  {
    var f: nat -> nat := i => ValueOf(c.encode(map[key := Sample(i)], nonce));
    forall i: nat, j: nat | i < j
      ensures f(i) != f(j)
    {
      var a, b := map[key := Sample(i)], map[key := Sample(j)];
      assert a[key] != b[key];
      assert c.decode(c.encode(a, nonce)) == Some(a) && c.decode(c.encode(b, nonce)) == Some(b);
      if f(i) == f(j) {
        ValueIsInjective(c.encode(a, nonce), c.encode(b, nonce));
      }
    }
    var i := SomeValueIsLarge(f, Cap(n));
    token := Sample(i);
    var encoded := c.encode(map[key := token], nonce);
    if |encoded| <= n {
      ValueIsBounded(encoded, n);
    }
  }

  /** Whatever the codec, some first save succeeds and leaves a store that cannot be opened again. */
  lemma SaveCanOutgrowTheLoader(c: Codec, key: Key, nonce: Nonce) returns (token: Token)
    requires Invertible(c) && key != ""
    ensures token.access != ""
    ensures var saved := AfterDo(c, Start(), Put(key, token), Weather({}, 0, nonce, []));
            saved.memory == map[key := token] && HasVersion(saved.disk) && Reload(c, Current(saved.disk)).None?
  {
    token := EveryCodecOutgrows(c, key, nonce, MAX_BYTES);
    SavedStoreReopensIffItFits(c, Start(), Put(key, token), Weather({}, 0, nonce, []));
  }
}
