/** Byte strings: joining, splitting, and the percent-encoding of path segments. */
module Texts {
  import opened Options

  type Byte = x: int | 0 <= x < 256
  type Text = seq<Byte>

  const SLASH: Byte := 47
  const DOT: Byte := 46
  const DASH: Byte := 45
  const UNDERSCORE: Byte := 95
  const PERCENT: Byte := 37
  const OPEN_BRACE: Byte := 123
  const CLOSE_BRACE: Byte := 125
  const BACKSLASH: Byte := 92

  predicate IsLower(b: Byte) {
    97 <= b <= 122
  }

  predicate IsUpper(b: Byte) {
    65 <= b <= 90
  }

  predicate IsDigit(b: Byte) {
    48 <= b <= 57
  }

  /** The bytes of an ASCII string. */
  function Ascii(s: string): Text {
    seq(|s|, i requires 0 <= i < |s| => if s[i] as int < 128 then s[i] as int else 0)
  }

  function Lower(s: Text): Text {
    seq(|s|, i requires 0 <= i < |s| => if IsUpper(s[i]) then s[i] + 32 else s[i])
  }

  // ---------------------------------------------------------------------------
  // Join and split
  // ---------------------------------------------------------------------------

  function Join(parts: seq<Text>, sep: Byte): Text {
    if parts == [] then []
    else if |parts| == 1 then parts[0]
    else parts[0] + [sep] + Join(parts[1..], sep)
  }

  function Split(s: Text, sep: Byte): (r: seq<Text>)
    ensures r != []
  {
    if s == [] then [[]]
    else if s[0] == sep then [[]] + Split(s[1..], sep)
    else
      var rest := Split(s[1..], sep);
      [[s[0]] + rest[0]] + rest[1..]
  }

  lemma {:induction false} SplitWhole(s: Text, sep: Byte)
    requires sep !in s
    ensures Split(s, sep) == [s]
  {
    if s != [] {
      SplitWhole(s[1..], sep);
      assert [s[0]] + s[1..] == s;
    }
  }

  lemma {:induction false} SplitAtFirst(s: Text, rest: Text, sep: Byte)
    requires sep !in s
    ensures Split(s + [sep] + rest, sep) == [s] + Split(rest, sep)
  {
    var whole := s + [sep] + rest;
    if s == [] {
      assert whole[1..] == rest;
    } else {
      SplitAtFirst(s[1..], rest, sep);
      assert whole[1..] == s[1..] + [sep] + rest;
      assert [s[0]] + s[1..] == s;
    }
  }

  /** Splitting undoes joining when no part contains the separator. */
  lemma {:induction false} SplitJoin(parts: seq<Text>, sep: Byte)
    requires parts != [] && forall p | p in parts :: sep !in p
    ensures Split(Join(parts, sep), sep) == parts
  {
    if |parts| == 1 {
      SplitWhole(parts[0], sep);
    } else {
      SplitJoin(parts[1..], sep);
      SplitAtFirst(parts[0], Join(parts[1..], sep), sep);
    }
  }

  // ---------------------------------------------------------------------------
  // Percent-encoding
  // ---------------------------------------------------------------------------

  /** Bytes that a path segment carries as they are: letters, digits and - _ . ~ $ & + : = @ */
  predicate IsPlain(b: Byte) {
    IsLower(b) || IsUpper(b) || IsDigit(b) || b in {45, 95, 46, 126, 36, 38, 43, 58, 61, 64}
  }

  function HexDigit(n: int): Byte
    requires 0 <= n < 16
  {
    if n < 10 then 48 + n else 55 + n
  }

  function HexValue(b: Byte): Option<int> {
    if IsDigit(b) then Some(b - 48)
    else if 97 <= b <= 102 then Some(b - 87)
    else if 65 <= b <= 70 then Some(b - 55)
    else None
  }

  function EscapeByte(b: Byte): Text {
    if IsPlain(b) then [b] else [PERCENT, HexDigit(b / 16), HexDigit(b % 16)]
  }

  function PathEscape(s: Text): Text {
    if s == [] then [] else EscapeByte(s[0]) + PathEscape(s[1..])
  }

  predicate StartsEscape(s: Text) {
    |s| >= 3 && HexValue(s[1]).Some? && HexValue(s[2]).Some?
  }

  function Unhex(high: Byte, low: Byte): Byte
    requires HexValue(high).Some? && HexValue(low).Some?
  {
    HexValue(high).value * 16 + HexValue(low).value
  }

  function Prepend(b: Byte, rest: Option<Text>): Option<Text> {
    if rest.None? then None else Some([b] + rest.value)
  }

  /** Section 2.1 of RFC 3986; a percent sign without two hexadecimal digits is an error. */
  function PathUnescape(s: Text): Option<Text> {
    if s == [] then Some([])
    else if s[0] != PERCENT then Prepend(s[0], PathUnescape(s[1..]))
    else if StartsEscape(s) then Prepend(Unhex(s[1], s[2]), PathUnescape(s[3..]))
    else None
  }

  lemma EscapeByteRoundTrip(b: Byte, rest: Text)
    ensures PathUnescape(EscapeByte(b) + rest) == Prepend(b, PathUnescape(rest))
    ensures SLASH !in EscapeByte(b)
  {
    var whole := EscapeByte(b) + rest;
    if IsPlain(b) {
      assert whole[1..] == rest;
    } else {
      assert whole[0] == PERCENT && whole[1] == HexDigit(b / 16) && whole[2] == HexDigit(b % 16);
      assert whole[3..] == rest;
    }
  }

  /** Decoding undoes encoding, and an encoded segment contains no slash. */
  lemma {:induction false} EscapeRoundTrip(s: Text)
    ensures PathUnescape(PathEscape(s)) == Some(s)
    ensures SLASH !in PathEscape(s)
  {
    if s != [] {
      EscapeRoundTrip(s[1..]);
      EscapeByteRoundTrip(s[0], PathEscape(s[1..]));
      assert [s[0]] + s[1..] == s;
    }
  }

  /** Nothing that ends or divides a path: / ? # ; , a space or a control character. */
  predicate IsInert(b: Byte) {
    b > 32 && b < 127 && b != SLASH && b != 63 && b != 35 && b != 59 && b != 44
  }

  /** An encoded segment has no byte that could end or divide the path it stands in. */
  lemma {:induction false} EscapedIsInert(s: Text)
    ensures forall b | b in PathEscape(s) :: IsInert(b)
  {
    if s != [] {
      EscapedIsInert(s[1..]);
      assert forall b | b in EscapeByte(s[0]) :: IsInert(b);
    }
  }

  function Append(a: Option<Text>, b: Option<Text>): Option<Text> {
    if a.None? || b.None? then None else Some(a.value + b.value)
  }

  /** After a well-formed beginning, decoding goes on independently. */
  lemma {:induction false} UnescapeAppend(a: Text, b: Text)
    requires PathUnescape(a).Some?
    ensures PathUnescape(a + b) == Append(PathUnescape(a), PathUnescape(b))
    decreases |a|
  {
    if a == [] {
      assert a + b == b;
      assert PathUnescape(b).Some? ==> [] + PathUnescape(b).value == PathUnescape(b).value;
    } else if a[0] != PERCENT {
      assert (a + b)[1..] == a[1..] + b;
      UnescapeAppend(a[1..], b);
      AppendPrepend(a[0], PathUnescape(a[1..]), PathUnescape(b));
    } else {
      assert (a + b)[1] == a[1] && (a + b)[2] == a[2];
      assert (a + b)[3..] == a[3..] + b;
      UnescapeAppend(a[3..], b);
      AppendPrepend(Unhex(a[1], a[2]), PathUnescape(a[3..]), PathUnescape(b));
    }
  }

  lemma AppendPrepend(c: Byte, a: Option<Text>, b: Option<Text>)
    ensures Append(Prepend(c, a), b) == Prepend(c, Append(a, b))
  {
    if a.Some? && b.Some? {
      assert [c] + a.value + b.value == [c] + (a.value + b.value);
    }
  }

  /** What stands before a slash is well-formed on its own. */
  lemma {:induction false} UnescapeBeforeSlash(a: Text, b: Text)
    requires PathUnescape(a + [SLASH] + b).Some?
    ensures PathUnescape(a).Some?
    decreases |a|
  {
    var whole := a + [SLASH] + b;
    if a != [] {
      if a[0] != PERCENT {
        assert whole[1..] == a[1..] + [SLASH] + b;
        UnescapeBeforeSlash(a[1..], b);
      } else {
        assert whole[|a|] == SLASH && HexValue(SLASH).None?;
        assert |a| >= 3;
        assert whole[1] == a[1] && whole[2] == a[2];
        assert whole[3..] == a[3..] + [SLASH] + b;
        UnescapeBeforeSlash(a[3..], b);
      }
    }
  }
}
