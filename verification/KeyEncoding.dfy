/**
 The byte string fed to the HMAC that names cache entries and stored grants: each part
 preceded by its length in four bytes, most significant first.
 */
module KeyEncoding {
  import opened Texts

  const LIMIT := 0x1_0000_0000

  /** Four shifted and truncated bytes, as `byte(n >> 24)` and so on compute them. */
  function Length4(n: nat): seq<Byte> {
    [n / 0x100_0000 % 256, n / 0x1_0000 % 256, n / 0x100 % 256, n % 256]
  }

  function EncodePart(part: seq<Byte>): seq<Byte> {
    Length4(|part|) + part
  }

  function Encode(parts: seq<seq<Byte>>): seq<Byte> {
    if parts == [] then [] else EncodePart(parts[0]) + Encode(parts[1..])
  }

  method EncodeLoop(parts: seq<seq<Byte>>) returns (written: seq<Byte>)
    ensures written == Encode(parts)
  {
    written := [];
    for i := 0 to |parts|
      invariant written + Encode(parts[i..]) == Encode(parts)
    {
      assert parts[i..][0] == parts[i] && parts[i..][1..] == parts[i + 1..];
      written := written + Length4(|parts[i]|);
      written := written + parts[i];
    }
  }

  predicate Short(parts: seq<seq<Byte>>) {
    forall part | part in parts :: |part| < LIMIT
  }

  function Value4(b: seq<Byte>): nat
    requires |b| == 4
  {
    b[0] as int * 0x100_0000 + b[1] as int * 0x1_0000 + b[2] as int * 0x100 + b[3] as int
  }

  lemma LengthRoundTrip(n: nat)
    requires n < LIMIT
    ensures Value4(Length4(n)) == n
  {
    DivideByPowers(n);
    var high, middle := n / 0x100, n / 0x1_0000;
    assert n == high * 256 + n % 256;
    assert high == middle * 256 + high % 256;
    assert middle == n / 0x100_0000 * 256 + middle % 256;
    assert n / 0x100_0000 < 256;
  }

  lemma DivideByPowers(n: nat)
    ensures n / 0x1_0000 == n / 0x100 / 256 && n / 0x100_0000 == n / 0x1_0000 / 256
  {
  }

  /** Below the limit, the first part can be read back from the front of the encoding. */
  lemma FirstPartIsDetermined(a: seq<Byte>, b: seq<Byte>, restA: seq<Byte>, restB: seq<Byte>)
    requires |a| < LIMIT && |b| < LIMIT
    requires EncodePart(a) + restA == EncodePart(b) + restB
    ensures a == b && restA == restB
  {
    var whole := EncodePart(a) + restA;
    assert whole[..4] == Length4(|a|) && whole[..4] == Length4(|b|);
    LengthRoundTrip(|a|);
    LengthRoundTrip(|b|);
    assert whole[4..4 + |a|] == a && whole[4..4 + |b|] == b;
    assert whole[4 + |a|..] == restA && whole[4 + |b|..] == restB;
  }

  /**
   The encoding is injective on lists of parts shorter than 2^32 bytes, whatever the
   number of parts and however many of them are empty.
   */
  lemma {:induction false} EncodingIsInjective(a: seq<seq<Byte>>, b: seq<seq<Byte>>)
    requires Short(a) && Short(b)
    ensures Encode(a) == Encode(b) <==> a == b
    decreases |a|
  {
    if Encode(a) == Encode(b) {
      if a == [] || b == [] {
        assert a == [] ==> (b == [] || |Encode(b)| >= 4);
        assert b == [] ==> (a == [] || |Encode(a)| >= 4);
      } else {
        FirstPartIsDetermined(a[0], b[0], Encode(a[1..]), Encode(b[1..]));
        EncodingIsInjective(a[1..], b[1..]);
        assert a == [a[0]] + a[1..] && b == [b[0]] + b[1..];
      }
    }
  }

  function Zeros(n: nat): (r: seq<Byte>)
    ensures |r| == n
  {
    seq(n, _ => 0)
  }

  function Empties(n: nat): (r: seq<seq<Byte>>)
    ensures |r| == n
  {
    seq(n, _ => [])
  }

  lemma {:induction false} EncodeEmpties(n: nat)
    ensures Encode(Empties(n)) == Zeros(4 * n)
  {
    if n > 0 {
      EncodeEmpties(n - 1);
      assert Empties(n)[1..] == Empties(n - 1) && Empties(n)[0] == [];
      assert EncodePart([]) == Zeros(4);
      assert Zeros(4) + Zeros(4 * (n - 1)) == Zeros(4 * n);
    }
  }

  /** The bound is sharp: a part of exactly 2^32 zero bytes collides with 2^30 + 1 empty parts. */
  lemma LongPartsCollide()
    ensures Encode([Zeros(LIMIT)]) == Encode(Empties(0x4000_0001))
    ensures [Zeros(LIMIT)] != Empties(0x4000_0001)
  {
    EncodeEmpties(0x4000_0001);
    assert Length4(LIMIT) == [0, 0, 0, 0];
    assert Encode([Zeros(LIMIT)]) == Length4(LIMIT) + Zeros(LIMIT);
    assert Length4(LIMIT) + Zeros(LIMIT) == Zeros(4 * 0x4000_0001);
  }
}
