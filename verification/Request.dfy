/** Arguments of an invocation, and the path of the upstream request built from them. */
module Requests {
  import opened Options
  import opened Texts
  import opened Commands

  type Args = map<Text, Value>

  /** How the program prints a value into a path. */
  type Show = Value -> Text

  // ---------------------------------------------------------------------------
  // Arguments
  // ---------------------------------------------------------------------------

  function TextsOf(items: seq<Value>): Option<seq<Text>> {
    if items == [] then Some([])
    else
      var rest := TextsOf(items[..|items| - 1]);
      if rest.None? || !items[|items| - 1].AText? then None
      else Some(rest.value + [items[|items| - 1].text])
  }

  function Normalize(kind: FlagType, v: Value): Option<Value> {
    match kind
    case StringFlag => if v.AText? then Some(v) else None
    case IntFlag =>
      if v.AnInt? then Some(v)
      else if v.ANumber? && v.integral.Some? then Some(AnInt(v.integral.value))
      else None
    case BoolFlag => if v.ABool? then Some(v) else None
    case ArrayFlag =>
      if v.ATexts? then Some(v)
      else if v.AList? && TextsOf(v.items).Some? then Some(ATexts(TextsOf(v.items).value))
      else None
    case UnknownType => None
  }

  method NormalizeList(items: seq<Value>) returns (texts: Option<seq<Text>>)
    ensures texts == TextsOf(items)
    ensures texts.Some? <==> forall item | item in items :: item.AText?
    ensures texts.Some? ==> |texts.value| == |items| && forall i | 0 <= i < |items| :: items[i] == AText(texts.value[i])
  {
    var result: seq<Text> := [];
    for i := 0 to |items|
      invariant TextsOf(items[..i]) == Some(result)
      invariant |result| == i && forall j | 0 <= j < i :: items[j] == AText(result[j])
    {
      assert items[..i + 1][..i] == items[..i];
      if !items[i].AText? {
        NoTexts(items, i);
        return None;
      }
      result := result + [items[i].text];
    }
    assert items[..|items|] == items;
    texts := Some(result);
  }

  lemma {:induction false} NoTexts(items: seq<Value>, i: nat)
    requires i < |items| && !items[i].AText?
    ensures TextsOf(items).None?
  {
    if i < |items| - 1 {
      NoTexts(items[..|items| - 1], i);
    }
  }

  /** What flag `f` contributes: its supplied value, normalized, or else its default. */
  function ValueOf(f: Flag, supplied: Args): Option<Value> {
    if f.name in supplied then Normalize(f.kind, supplied[f.name]) else f.fallback
  }

  predicate FlagAccepts(f: Flag, supplied: Args) {
    if f.name in supplied then Normalize(f.kind, supplied[f.name]).Some?
    else f.fallback.Some? || !f.required
  }

  /** Only declared arguments, each of its type, and no required one missing. */
  predicate Accepted(flags: seq<Flag>, supplied: Args) {
    supplied.Keys <= Names(flags) && forall f | f in flags :: FlagAccepts(f, supplied)
  }

  predicate Distinct(flags: seq<Flag>) {
    forall i, j | 0 <= i < j < |flags| :: flags[i].name != flags[j].name
  }

  /** `result` has exactly the flags with a value, each with its own. */
  ghost predicate IsResult(flags: seq<Flag>, supplied: Args, result: Args) {
    && (forall f | f in flags && ValueOf(f, supplied).Some? ::
          f.name in result && result[f.name] == ValueOf(f, supplied).value)
    && (forall name | name in result :: exists f :: f in flags && f.name == name && ValueOf(f, supplied).Some?)
  }

  lemma ResultExtend(flags: seq<Flag>, f: Flag, supplied: Args, result: Args)
    requires IsResult(flags, supplied, result) && f.name !in Names(flags)
    ensures ValueOf(f, supplied).Some? ==>
              IsResult(flags + [f], supplied, result[f.name := ValueOf(f, supplied).value])
    ensures ValueOf(f, supplied).None? ==> IsResult(flags + [f], supplied, result)
  {
    assert forall g | g in flags :: g.name in Names(flags);
    forall name | name in result
      ensures exists g :: g in flags + [f] && g.name == name && ValueOf(g, supplied).Some?
    {
      var g :| g in flags && g.name == name && ValueOf(g, supplied).Some?;
      assert g in flags + [f];
    }
    assert f in flags + [f];
  }

  lemma PrefixNames(flags: seq<Flag>, i: nat)
    requires Distinct(flags) && i < |flags|
    ensures flags[i].name !in Names(flags[..i])
  {
  }

  /** Accepts exactly the well-typed, complete arguments, and then returns every flag's value. */
  method ValidateArguments(flags: seq<Flag>, supplied: Args) returns (result: Option<Args>)
    ensures result.Some? <==> Accepted(flags, supplied)
    ensures result.Some? && Distinct(flags) ==> IsResult(flags, supplied, result.value)
  {
    var known := Names(flags);
    if !(supplied.Keys <= known) {
      return None;
    }
    var values: Args := map[];
    for i := 0 to |flags|
      invariant forall f | f in flags[..i] :: FlagAccepts(f, supplied)
      invariant Distinct(flags) ==> IsResult(flags[..i], supplied, values)
    {
      var f := flags[i];
      if Distinct(flags) {
        PrefixNames(flags, i);
        ResultExtend(flags[..i], f, supplied, values);
      }
      assert flags[..i + 1] == flags[..i] + [f];
      if f.name in supplied {
        var normalized := Normalize(f.kind, supplied[f.name]);
        if normalized.None? {
          assert f in flags;
          return None;
        }
        values := values[f.name := normalized.value];
      } else if f.fallback.Some? {
        values := values[f.name := f.fallback.value];
      } else if f.required {
        assert f in flags;
        return None;
      }
    }
    assert flags[..|flags|] == flags;
    result := Some(values);
  }

  /** After validation of the command and of the arguments, every placeholder has a value. */
  lemma PlaceholdersHaveValues(c: Command, supplied: Args, result: Args)
    requires CommandOk(c) && Accepted(c.flags, supplied) && IsResult(c.flags, supplied, result)
    ensures Placeholders(Segments(c.endpoint)) <= result.Keys
  {
    forall p | p in Placeholders(Segments(c.endpoint))
      ensures p in result
    {
      var f :| f in c.flags && f.name == p && f.location.InPath? && f.required;
      assert FlagAccepts(f, supplied);
    }
  }

  // ---------------------------------------------------------------------------
  // The path
  // ---------------------------------------------------------------------------

  /** The builder's own test for a placeholder: braces at both ends. */
  predicate IsBraced(s: Text) {
    s != [] && s[0] == OPEN_BRACE && s[|s| - 1] == CLOSE_BRACE
  }

  /** On every segment the validator lets through, its pattern and the builder's test agree. */
  lemma BuilderAgreesWithValidator(s: Text)
    requires SegmentOk(s)
    ensures IsBraced(s) <==> IsPlaceholder(s)
  {
    if IsBraced(s) {
      assert OPEN_BRACE in s;
    }
  }

  /** What a missing argument is printed as. */
  const NIL: Text := [60, 110, 105, 108, 62]

  /** The text that a segment stands for. */
  function Expand(show: Show, s: Text, args: Args): Text {
    if IsBraced(s) then if Inner(s) in args then show(args[Inner(s)]) else NIL else s
  }

  function ExpandAll(show: Show, segments: seq<Text>, args: Args): seq<Text> {
    seq(|segments|, i requires 0 <= i < |segments| => Expand(show, segments[i], args))
  }

  function EscapeAll(texts: seq<Text>): seq<Text> {
    seq(|texts|, i requires 0 <= i < |texts| => PathEscape(texts[i]))
  }

  function TrimTrailingSlash(s: Text): Text {
    if s != [] && s[|s| - 1] == SLASH then s[..|s| - 1] else s
  }

  lemma EscapedPartsHaveNoSlash(texts: seq<Text>)
    ensures forall p | p in EscapeAll(texts) :: SLASH !in p
  {
    forall p | p in EscapeAll(texts)
      ensures SLASH !in p
    {
      var i :| 0 <= i < |texts| && EscapeAll(texts)[i] == p;
      EscapeRoundTrip(texts[i]);
    }
  }

  /** Decoding the joined path gives the texts joined. */
  lemma {:induction false} JoinDecodes(texts: seq<Text>)
    requires texts != []
    ensures PathUnescape(Join(EscapeAll(texts), SLASH)) == Some(Join(texts, SLASH))
  {
    EscapeRoundTrip(texts[0]);
    if |texts| > 1 {
      var rest := texts[1..];
      JoinDecodes(rest);
      assert EscapeAll(texts)[1..] == EscapeAll(rest);
      SlashBetween(PathEscape(texts[0]), texts[0], Join(EscapeAll(rest), SLASH), Join(rest, SLASH));
    }
  }

  lemma SlashBetween(a: Text, x: Text, b: Text, y: Text)
    requires PathUnescape(a) == Some(x) && PathUnescape(b) == Some(y)
    ensures PathUnescape(a + [SLASH] + b) == Some(x + [SLASH] + y)
  {
    UnescapeAppend(a, [SLASH] + b);
    assert a + ([SLASH] + b) == a + [SLASH] + b;
    assert ([SLASH] + b)[1..] == b;
    assert x + ([SLASH] + y) == x + [SLASH] + y;
  }

  /** A base path is well-formed exactly when it is so without its trailing slash. */
  lemma TrimKeepsWellFormed(base: Text)
    ensures PathUnescape(TrimTrailingSlash(base)).Some? <==> PathUnescape(base).Some?
  {
    var trimmed := TrimTrailingSlash(base);
    if trimmed != base {
      assert base == trimmed + [SLASH] + [];
      if PathUnescape(base).Some? {
        UnescapeBeforeSlash(trimmed, []);
      }
      if PathUnescape(trimmed).Some? {
        SlashBetween(trimmed, PathUnescape(trimmed).value, [], []);
      }
    }
  }

  method EscapeSegments(show: Show, segments: seq<Text>, args: Args) returns (parts: seq<Text>)
    ensures parts == EscapeAll(ExpandAll(show, segments, args))
  {
    parts := [];
    for i := 0 to |segments|
      invariant |parts| == i
      invariant forall j | 0 <= j < i :: parts[j] == PathEscape(Expand(show, segments[j], args))
    {
      var s := segments[i];
      if s != [] && s[0] == OPEN_BRACE && s[|s| - 1] == CLOSE_BRACE {
        var name := s[1..|s| - 1];
        parts := parts + [PathEscape(if name in args then show(args[name]) else NIL)];
      } else {
        parts := parts + [PathEscape(s)];
      }
    }
  }

  function RawPath(base: Text, texts: seq<Text>): Text {
    TrimTrailingSlash(base) + [SLASH] + Join(EscapeAll(texts), SLASH)
  }

  /** Decoding the raw path fails only for a malformed base path, and otherwise gives base and texts joined. */
  lemma RawPathDecodes(base: Text, texts: seq<Text>)
    requires texts != []
    ensures PathUnescape(RawPath(base, texts)).Some? <==> PathUnescape(base).Some?
    ensures PathUnescape(base).Some? ==>
              PathUnescape(RawPath(base, texts))
              == Append(PathUnescape(TrimTrailingSlash(base)), Some([SLASH] + Join(texts, SLASH)))
  {
    var prefix, rest := TrimTrailingSlash(base), Join(EscapeAll(texts), SLASH);
    TrimKeepsWellFormed(base);
    JoinDecodes(texts);
    if PathUnescape(RawPath(base, texts)).Some? {
      UnescapeBeforeSlash(prefix, rest);
    }
    if PathUnescape(prefix).Some? {
      var decoded := PathUnescape(prefix).value;
      SlashBetween(prefix, decoded, rest, Join(texts, SLASH));
      assert decoded + [SLASH] + Join(texts, SLASH) == decoded + ([SLASH] + Join(texts, SLASH));
    }
  }

  /** The raw and the decoded path of the request. */
  method BuildPath(show: Show, base: Text, segments: seq<Text>, args: Args) returns (raw: Text, decoded: Option<Text>)
    requires segments != []
    ensures raw == RawPath(base, ExpandAll(show, segments, args))
    ensures decoded == PathUnescape(raw)
    ensures decoded.Some? <==> PathUnescape(base).Some?
  {
    var parts := EscapeSegments(show, segments, args);
    raw := TrimTrailingSlash(base) + [SLASH] + Join(parts, SLASH);
    decoded := PathUnescape(raw);
    RawPathDecodes(base, ExpandAll(show, segments, args));
  }

  /** Splitting the endpoint part of the path and decoding each part gives back the texts, in order. */
  lemma PathRoundTrip(texts: seq<Text>)
    requires texts != []
    ensures var parts := Split(Join(EscapeAll(texts), SLASH), SLASH);
            |parts| == |texts| && forall i | 0 <= i < |texts| :: PathUnescape(parts[i]) == Some(texts[i])
  {
    EscapedPartsHaveNoSlash(texts);
    SplitJoin(EscapeAll(texts), SLASH);
    forall i | 0 <= i < |texts|
      ensures PathUnescape(EscapeAll(texts)[i]) == Some(texts[i])
    {
      EscapeRoundTrip(texts[i]);
    }
  }

  /**
   For every validated command and accepted arguments: the endpoint part of the built path,
   split on slashes and decoded, is the static segments and the argument values in order.
   */
  lemma RequestPathIsFaithful(show: Show, c: Command, supplied: Args, args: Args, i: nat)
    requires CommandOk(c) && Accepted(c.flags, supplied) && IsResult(c.flags, supplied, args)
    requires i < |Segments(c.endpoint)|
    ensures var segments := Segments(c.endpoint);
            var parts := Split(Join(EscapeAll(ExpandAll(show, segments, args)), SLASH), SLASH);
            && |parts| == |segments|
            && (IsPlaceholder(segments[i]) ==>
                  Inner(segments[i]) in args && PathUnescape(parts[i]) == Some(show(args[Inner(segments[i])])))
            && (!IsPlaceholder(segments[i]) ==> PathUnescape(parts[i]) == Some(segments[i]))
  {
    var segments := Segments(c.endpoint);
    PathRoundTrip(ExpandAll(show, segments, args));
    PlaceholdersHaveValues(c, supplied, args);
    assert SegmentOk(segments[i]);
    BuilderAgreesWithValidator(segments[i]);
    assert IsPlaceholder(segments[i]) ==> Inner(segments[i]) in Placeholders(segments);
  }

  lemma DotsEscapeToDots(s: Text)
    ensures IsDots(PathEscape(s)) <==> IsDots(s)
  {
    EscapeRoundTrip(s);
    var one, two := [DOT], [DOT, DOT];
    assert one[1..] == [] && two[1..] == one;
    assert PathEscape([]) == [] && PathEscape(one) == one && PathEscape(two) == EscapeByte(DOT) + one == two;
    assert PathUnescape([]) == Some([]) && PathUnescape(one) == Some(one);
    assert PathUnescape(two) == Prepend(DOT, PathUnescape(one)) == Some(two);
  }

  /**
   The empty and dot segments that are forbidden in an endpoint can come back through arguments:
   the built endpoint part has one exactly when some path argument prints as one.
   */
  lemma DotSegmentsComeFromArguments(show: Show, c: Command, supplied: Args, args: Args)
    requires CommandOk(c) && Accepted(c.flags, supplied) && IsResult(c.flags, supplied, args)
    ensures var segments := Segments(c.endpoint);
            var parts := Split(Join(EscapeAll(ExpandAll(show, segments, args)), SLASH), SLASH);
            (exists part :: part in parts && IsDots(part))
            <==> exists p :: p in Placeholders(segments) && p in args && IsDots(show(args[p]))
  {
    var segments := Segments(c.endpoint);
    var texts := ExpandAll(show, segments, args);
    var parts := EscapeAll(texts);
    EscapedPartsHaveNoSlash(texts);
    SplitJoin(parts, SLASH);
    PlaceholdersHaveValues(c, supplied, args);
    if part :| part in parts && IsDots(part) {
      var i :| 0 <= i < |parts| && parts[i] == part;
      DotsFromSegment(show, c, args, i);
      assert Inner(segments[i]) in Placeholders(segments);
    }
    if p :| p in Placeholders(segments) && p in args && IsDots(show(args[p])) {
      var i :| 0 <= i < |segments| && IsPlaceholder(segments[i]) && Inner(segments[i]) == p;
      DotsFromSegment(show, c, args, i);
      assert parts[i] in parts;
    }
  }

  /** The endpoint `/{i}` with one string argument `i`. */
  function Lookup(name: Text): Command {
    var endpoint := [SLASH, OPEN_BRACE, 105, CLOSE_BRACE];
    Command([name], Get, Read, false, Endpoint(endpoint, Some(endpoint)),
            [Flag([105], StringFlag, InPath, true, None, [], [])])
  }

  lemma LookupIsOk(name: Text)
    ensures Segments(Lookup(name).endpoint) == [[OPEN_BRACE, 105, CLOSE_BRACE]]
    ensures CommandOk(Lookup(name))
  {
    var c := Lookup(name);
    var segment := [OPEN_BRACE, 105, CLOSE_BRACE];
    assert TrimSlash(c.endpoint.raw) == segment;
    SplitWhole(segment, SLASH);
    LookupSegments();
    LookupFlags(c.flags[0]);
    assert c.flags == [c.flags[0]] && c.flags[0] in c.flags;
  }

  lemma LookupSegments()
    ensures var segments := [[OPEN_BRACE, 105, CLOSE_BRACE]];
            SegmentsOk(segments) && Placeholders(segments) == {[105]}
  {
    var segment := [OPEN_BRACE, 105, CLOSE_BRACE];
    assert Inner(segment) == [105] && IsName([105]) && IsPlaceholder(segment);
    assert Placeholders([segment]) == {[105]};
  }

  lemma LookupFlags(f: Flag)
    requires f == Flag([105], StringFlag, InPath, true, None, [], [])
    ensures FlagsOk([f], Get)
  {
    assert IsName([105]) && [105] != CONFIRM;
  }

  /** An accepted argument that puts the segment `..` into the path. */
  lemma DotArgumentBecomesDotSegment(show: Show, name: Text)
    requires forall t :: show(AText(t)) == t
    ensures var c, args := Lookup(name), map[[105] := AText([DOT, DOT])];
            && CommandOk(c) && Accepted(c.flags, args) && IsResult(c.flags, args, args)
            && [DOT, DOT] in Split(Join(EscapeAll(ExpandAll(show, Segments(c.endpoint), args)), SLASH), SLASH)
  {
    var c, args := Lookup(name), map[[105] := AText([DOT, DOT])];
    LookupIsOk(name);
    var segment := [OPEN_BRACE, 105, CLOSE_BRACE];
    assert Inner(segment) == [105];
    var f := c.flags[0];
    assert c.flags == [f] && Names(c.flags) == {[105]} && f in c.flags;
    assert ValueOf(f, args) == Some(AText([DOT, DOT]));
    assert ExpandAll(show, [segment], args) == [[DOT, DOT]];
    DotsAreKept();
    assert EscapeAll([[DOT, DOT]]) == [[DOT, DOT]];
    SplitWhole([DOT, DOT], SLASH);
  }

  lemma DotsAreKept()
    ensures PathEscape([DOT, DOT]) == [DOT, DOT]
  {
    assert [DOT][1..] == [] && [DOT, DOT][1..] == [DOT];
    assert PathEscape([DOT]) == EscapeByte(DOT) + PathEscape([]);
    assert PathEscape([DOT, DOT]) == EscapeByte(DOT) + PathEscape([DOT]);
  }

  lemma DotsFromSegment(show: Show, c: Command, args: Args, i: nat)
    requires CommandOk(c) && i < |Segments(c.endpoint)| && Placeholders(Segments(c.endpoint)) <= args.Keys
    ensures var s := Segments(c.endpoint)[i];
            IsDots(PathEscape(Expand(show, s, args)))
            <==> IsPlaceholder(s) && Inner(s) in args && IsDots(show(args[Inner(s)]))
  {
    var s := Segments(c.endpoint)[i];
    assert SegmentOk(s);
    BuilderAgreesWithValidator(s);
    DotsEscapeToDots(Expand(show, s, args));
    assert IsPlaceholder(s) ==> Inner(s) in Placeholders(Segments(c.endpoint));
  }

  /** A supplied string argument arrives in the path unchanged. */
  lemma StringArgumentArrives(show: Show, c: Command, supplied: Args, args: Args, i: nat, f: Flag)
    requires CommandOk(c) && Accepted(c.flags, supplied) && IsResult(c.flags, supplied, args)
    requires forall t :: show(AText(t)) == t
    requires i < |Segments(c.endpoint)| && IsPlaceholder(Segments(c.endpoint)[i])
    requires f in c.flags && f.name == Inner(Segments(c.endpoint)[i]) && f.kind.StringFlag? && f.name in supplied
    ensures var parts := Split(Join(EscapeAll(ExpandAll(show, Segments(c.endpoint), args)), SLASH), SLASH);
            && supplied[f.name].AText? && i < |parts|
            && PathUnescape(parts[i]) == Some(supplied[f.name].text)
  {
    RequestPathIsFaithful(show, c, supplied, args, i);
    assert FlagAccepts(f, supplied);
    assert args[f.name] == ValueOf(f, supplied).value;
  }

  /**
   What an accepted argument arrives as: a string, a boolean or an integer as itself, a whole
   number as that integer, a list of strings as those strings in order.
   */
  lemma ArgumentArrives(flags: seq<Flag>, supplied: Args, args: Args, f: Flag)
    requires Accepted(flags, supplied) && IsResult(flags, supplied, args)
    requires f in flags && f.name in supplied
    ensures f.name in args
    ensures var given, got := supplied[f.name], args[f.name];
            match f.kind
            case StringFlag => given.AText? && got == given
            case BoolFlag => given.ABool? && got == given
            case IntFlag =>
              || (given.AnInt? && got == given)
              || (given.ANumber? && given.integral.Some? && got == AnInt(given.integral.value))
            case ArrayFlag =>
              || (given.ATexts? && got == given)
              || (given.AList? && got.ATexts?
                  && given.items == seq(|got.texts|, i requires 0 <= i < |got.texts| => AText(got.texts[i])))
            case UnknownType => false
  {
    assert FlagAccepts(f, supplied);
    if f.kind.ArrayFlag? && supplied[f.name].AList? {
      TextsOfMeans(supplied[f.name].items);
    }
  }

  lemma {:induction false} TextsOfMeans(items: seq<Value>)
    requires TextsOf(items).Some?
    ensures var texts := TextsOf(items).value;
            items == seq(|texts|, i requires 0 <= i < |texts| => AText(texts[i]))
  {
    if items != [] {
      TextsOfMeans(items[..|items| - 1]);
      assert items == items[..|items| - 1] + [items[|items| - 1]];
    }
  }

  /** An argument that is not supplied arrives as its default, or not at all if it has none. */
  lemma MissingArgumentDefaults(flags: seq<Flag>, supplied: Args, args: Args, f: Flag)
    requires Distinct(flags) && Accepted(flags, supplied) && IsResult(flags, supplied, args)
    requires f in flags && f.name !in supplied
    ensures f.fallback.Some? ==> f.name in args && args[f.name] == f.fallback.value
    ensures f.fallback.None? ==> f.name !in args && !f.required
  {
    assert FlagAccepts(f, supplied);
    if f.name in args {
      var g :| g in flags && g.name == f.name && ValueOf(g, supplied).Some?;
      var i :| 0 <= i < |flags| && flags[i] == f;
      var j :| 0 <= j < |flags| && flags[j] == g;
      assert i == j;
    }
  }
}
