/** Commands of a manifest and the validator's rules for one of them. */
module Commands {
  import opened Options
  import opened Texts

  datatype FlagType = StringFlag | IntFlag | BoolFlag | ArrayFlag | UnknownType

  datatype Location = InBody | InQuery | InPath | InHeader | UnknownLocation

  datatype Verb = Get | Post | Put | Patch | Delete | UnknownVerb

  datatype Risk = Read | Write | Destroy | UnknownRisk

  /** A value as the decoders of manifests and requests produce it. */
  datatype Value =
    | AText(text: Text)
    | AnInt(n: int)
    | ANumber(integral: Option<int>)
    | ABool(b: bool)
    | ATexts(texts: seq<Text>)
    | AList(items: seq<Value>)
    | Another

  datatype Flag = Flag(
    name: Text,
    kind: FlagType,
    location: Location,
    required: bool,
    fallback: Option<Value>,
    headerName: Text,
    queryName: Text)

  /** An endpoint as written, and the path the URL parser finds in it, if it is a plain path at all. */
  datatype Endpoint = Endpoint(raw: Text, path: Option<Text>)

  datatype Command = Command(
    path: seq<Text>,
    verb: Verb,
    risk: Risk,
    confirm: bool,
    endpoint: Endpoint,
    flags: seq<Flag>)

  datatype Problem =
    | BadVerb | BadRisk | NotConfirmed | BadEndpoint | BadSegment | RepeatedPlaceholder
    | BadFlagName | RepeatedFlag | BadFlag | NoFlagForPlaceholder | NoPlaceholderForFlag
    | BadDomainName | BadDomain | RepeatedDomain | NoDomains | NoCommands
    | BadPart | NoPath | RepeatedKey | RepeatedTool

  /** The reserved argument name `confirm`. */
  const CONFIRM: Text := [99, 111, 110, 102, 105, 114, 109]

  predicate IsName(s: Text) {
    1 <= |s| <= 32 && IsLower(s[0]) && forall b | b in s :: IsLower(b) || IsDigit(b) || b == DASH
  }

  // ---------------------------------------------------------------------------
  // Endpoints
  // ---------------------------------------------------------------------------

  function TrimSlash(s: Text): Text {
    if s != [] && s[0] == SLASH then s[1..] else s
  }

  /** The segments of an endpoint, as both the validator and the compiler compute them. */
  function Segments(e: Endpoint): (r: seq<Text>)
    ensures r != []
  {
    Split(TrimSlash(if e.path.Some? then e.path.value else []), SLASH)
  }

  function Inner(s: Text): Text
    requires |s| >= 2
  {
    s[1..|s| - 1]
  }

  /** The validator's pattern for a placeholder. */
  predicate IsPlaceholder(s: Text) {
    |s| >= 2 && s[0] == OPEN_BRACE && s[|s| - 1] == CLOSE_BRACE && IsName(Inner(s))
  }

  predicate IsDots(s: Text) {
    s == [] || s == [DOT] || s == [DOT, DOT]
  }

  predicate SegmentOk(s: Text) {
    !IsDots(s) && (IsPlaceholder(s) || (OPEN_BRACE !in s && CLOSE_BRACE !in s))
  }

  predicate SegmentsOk(segments: seq<Text>) {
    && (forall s | s in segments :: SegmentOk(s))
    && (forall i, j | 0 <= i < j < |segments| && IsPlaceholder(segments[i]) :: segments[i] != segments[j])
  }

  predicate EndpointOk(e: Endpoint) {
    e.raw != [] && e.raw[0] == SLASH && e.path.Some? && BACKSLASH !in e.raw && SegmentsOk(Segments(e))
  }

  function Placeholders(segments: seq<Text>): set<Text> {
    set s | s in segments && IsPlaceholder(s) :: Inner(s)
  }

  lemma InnerIsInjective(x: Text, y: Text)
    requires IsPlaceholder(x) && IsPlaceholder(y) && Inner(x) == Inner(y)
    ensures x == y
  {
    assert x == [OPEN_BRACE] + Inner(x) + [CLOSE_BRACE];
    assert y == [OPEN_BRACE] + Inner(y) + [CLOSE_BRACE];
  }

  lemma SegmentsExtend(segments: seq<Text>, s: Text)
    ensures SegmentsOk(segments + [s]) <==>
              SegmentsOk(segments) && SegmentOk(s) && (IsPlaceholder(s) ==> Inner(s) !in Placeholders(segments))
    ensures Placeholders(segments + [s]) == Placeholders(segments) + (if IsPlaceholder(s) then {Inner(s)} else {})
  {
    var more := segments + [s];
    assert more[|segments|] == s;
    forall x | x in segments && IsPlaceholder(x) && IsPlaceholder(s) && Inner(x) == Inner(s)
      ensures x == s
    {
      InnerIsInjective(x, s);
    }
    if SegmentsOk(more) {
      assert forall i | 0 <= i < |segments| :: segments[i] == more[i];
      assert forall x | x in segments :: x in more;
      assert s in more;
    }
  }

  /** Finds no problem exactly in a well-formed endpoint, and then returns its placeholders. */
  method ValidateEndpoint(e: Endpoint) returns (placeholders: set<Text>, problems: seq<Problem>)
    ensures problems == [] <==> EndpointOk(e)
    ensures problems == [] ==> placeholders == Placeholders(Segments(e))
  {
    placeholders, problems := {}, [];
    if e.raw == [] || e.raw[0] != SLASH || e.path.None? {
      return {}, [BadEndpoint];
    }
    if BACKSLASH in e.raw {
      problems := [BadEndpoint];
    }
    var segments := Segments(e);
    for i := 0 to |segments|
      invariant problems == [] <==> BACKSLASH !in e.raw && SegmentsOk(segments[..i])
      invariant problems == [] ==> placeholders == Placeholders(segments[..i])
    {
      var s := segments[i];
      SegmentsExtend(segments[..i], s);
      assert segments[..i + 1] == segments[..i] + [s];
      if IsDots(s) {
        problems := problems + [BadSegment];
      } else if IsPlaceholder(s) {
        if Inner(s) in placeholders {
          problems := problems + [RepeatedPlaceholder];
        }
        placeholders := placeholders + {Inner(s)};
      } else if OPEN_BRACE in s || CLOSE_BRACE in s {
        problems := problems + [BadSegment];
      }
    }
    assert segments[..|segments|] == segments;
  }

  // ---------------------------------------------------------------------------
  // Flags
  // ---------------------------------------------------------------------------

  predicate FallbackOk(kind: FlagType, v: Value) {
    match kind
    case StringFlag => v.AText?
    case IntFlag => v.AnInt?
    case BoolFlag => v.ABool?
    case ArrayFlag => v.AList? && forall item | item in v.items :: item.AText?
    case UnknownType => false
  }

  /** The characters of an HTTP token. */
  predicate IsHeaderName(s: Text) {
    s != [] && forall b | b in s ::
      IsLower(b) || IsUpper(b) || IsDigit(b) || b in {33, 35, 36, 37, 38, 39, 42, 43, 45, 46, 94, 95, 96, 124, 126}
  }

  predicate HasPrefix(s: Text, prefix: Text) {
    prefix <= s
  }

  /** Headers that command arguments may not set. */
  predicate IsForbiddenHeader(name: Text) {
    var lower := Lower(name);
    || HasPrefix(lower, Ascii("x-cli-gateway-"))
    || HasPrefix(lower, Ascii("x-forwarded-"))
    || lower in [Ascii("authorization"), Ascii("host"), Ascii("content-length"), Ascii("transfer-encoding"),
                 Ascii("connection"), Ascii("keep-alive"), Ascii("proxy-connection"), Ascii("te"), Ascii("trailer"),
                 Ascii("upgrade"), Ascii("cookie"), Ascii("set-cookie"), Ascii("forwarded")]
  }

  predicate HeaderNameOk(f: Flag) {
    if f.location.InHeader? then IsHeaderName(f.headerName) && !IsForbiddenHeader(f.headerName)
    else f.headerName == []
  }

  predicate FlagOk(f: Flag, verb: Verb) {
    && !f.kind.UnknownType?
    && !f.location.UnknownLocation?
    && (f.location.InPath? ==> f.required)
    && (f.location.InBody? ==> verb.Post? || verb.Put? || verb.Patch?)
    && (f.location.InHeader? ==> !f.kind.ArrayFlag?)
    && HeaderNameOk(f)
    && (f.queryName != [] ==> f.location.InQuery?)
    && (f.fallback.Some? ==> FallbackOk(f.kind, f.fallback.value))
  }

  predicate FlagFits(f: Flag, verb: Verb) {
    IsName(f.name) && f.name != CONFIRM && FlagOk(f, verb)
  }

  predicate FlagsOk(flags: seq<Flag>, verb: Verb) {
    && (forall f | f in flags :: FlagFits(f, verb))
    && (forall i, j | 0 <= i < j < |flags| :: flags[i].name != flags[j].name)
  }

  function Names(flags: seq<Flag>): set<Text> {
    set f | f in flags :: f.name
  }

  lemma FlagsExtend(flags: seq<Flag>, f: Flag, verb: Verb)
    ensures FlagsOk(flags + [f], verb) <==>
              FlagsOk(flags, verb) && FlagFits(f, verb) && f.name !in Names(flags)
    ensures Names(flags + [f]) == Names(flags) + {f.name}
  {
    var more := flags + [f];
    assert more[|flags|] == f;
    if FlagsOk(more, verb) {
      assert forall i | 0 <= i < |flags| :: flags[i] == more[i];
      assert forall x | x in flags :: x in more;
      assert f in more;
    }
  }

  /** `seen` maps each name to its flag. */
  ghost predicate Indexes(seen: map<Text, Flag>, flags: seq<Flag>) {
    seen.Keys == Names(flags) && forall f | f in flags :: seen[f.name] == f
  }

  lemma FlagsStep(flags: seq<Flag>, i: nat, verb: Verb)
    requires i < |flags|
    ensures FlagsOk(flags[..i + 1], verb) <==>
              FlagsOk(flags[..i], verb) && FlagFits(flags[i], verb) && flags[i].name !in Names(flags[..i])
  {
    FlagsExtend(flags[..i], flags[i], verb);
    assert flags[..i + 1] == flags[..i] + [flags[i]];
  }

  lemma IndexesStep(seen: map<Text, Flag>, flags: seq<Flag>, i: nat)
    requires i < |flags| && Indexes(seen, flags[..i]) && flags[i].name !in seen
    ensures Indexes(seen[flags[i].name := flags[i]], flags[..i + 1])
  {
    assert flags[..i + 1] == flags[..i] + [flags[i]];
    forall f | f in flags[..i]
      ensures f.name != flags[i].name
    {
      assert f.name in Names(flags[..i]);
    }
  }

  method ValidateFlags(flags: seq<Flag>, verb: Verb) returns (seen: map<Text, Flag>, problems: seq<Problem>)
    ensures problems == [] <==> FlagsOk(flags, verb)
    ensures problems == [] ==> Indexes(seen, flags)
  {
    seen, problems := map[], [];
    for i := 0 to |flags|
      invariant problems == [] <==> FlagsOk(flags[..i], verb)
      invariant problems == [] ==> Indexes(seen, flags[..i])
    {
      var f := flags[i];
      FlagsStep(flags, i, verb);
      if problems == [] && f.name !in seen {
        IndexesStep(seen, flags, i);
      }
      if !IsName(f.name) || f.name == CONFIRM {
        problems := problems + [BadFlagName];
      }
      if f.name in seen {
        problems := problems + [RepeatedFlag];
      }
      seen := seen[f.name := f];
      if !FlagOk(f, verb) {
        problems := problems + [BadFlag];
      }
    }
    assert flags[..|flags|] == flags;
  }

  // ---------------------------------------------------------------------------
  // Commands
  // ---------------------------------------------------------------------------

  /** Every placeholder has a required path flag. */
  ghost predicate PlaceholdersCovered(placeholders: set<Text>, flags: seq<Flag>) {
    forall p | p in placeholders :: exists f :: f in flags && f.name == p && f.location.InPath? && f.required
  }

  /** Every path flag is used. */
  ghost predicate PathFlagsUsed(placeholders: set<Text>, flags: seq<Flag>) {
    forall f | f in flags && f.location.InPath? :: f.name in placeholders
  }

  ghost predicate CommandOk(c: Command) {
    && !c.verb.UnknownVerb?
    && !c.risk.UnknownRisk?
    && (c.risk.Destroy? ==> c.confirm)
    && EndpointOk(c.endpoint)
    && FlagsOk(c.flags, c.verb)
    && PlaceholdersCovered(Placeholders(Segments(c.endpoint)), c.flags)
    && PathFlagsUsed(Placeholders(Segments(c.endpoint)), c.flags)
  }

  method MatchPlaceholders(placeholders: set<Text>, seen: map<Text, Flag>) returns (problems: seq<Problem>)
    ensures problems == [] <==>
              forall p | p in placeholders :: p in seen && seen[p].location.InPath? && seen[p].required
  {
    problems := [];
    var todo := placeholders;
    while todo != {}
      invariant todo <= placeholders
      invariant problems == [] <==>
                forall p | p in placeholders && p !in todo :: p in seen && seen[p].location.InPath? && seen[p].required
      decreases |todo|
    {
      var p :| p in todo;
      todo := todo - {p};
      if p !in seen || !seen[p].location.InPath? || !seen[p].required {
        problems := problems + [NoFlagForPlaceholder];
      }
    }
  }

  method MatchPathFlags(placeholders: set<Text>, seen: map<Text, Flag>) returns (problems: seq<Problem>)
    ensures problems == [] <==> forall name | name in seen && seen[name].location.InPath? :: name in placeholders
  {
    problems := [];
    var todo := seen.Keys;
    while todo != {}
      invariant todo <= seen.Keys
      invariant problems == [] <==>
                forall name | name in seen && name !in todo && seen[name].location.InPath? :: name in placeholders
      decreases |todo|
    {
      var name :| name in todo;
      todo := todo - {name};
      if seen[name].location.InPath? && name !in placeholders {
        problems := problems + [NoPlaceholderForFlag];
      }
    }
  }

  /** On distinct flags, what the two matching loops look at in the map is what the rules say about the flags. */
  lemma MatchingMeans(placeholders: set<Text>, seen: map<Text, Flag>, flags: seq<Flag>)
    requires Indexes(seen, flags)
    ensures PlaceholdersCovered(placeholders, flags) <==>
              forall p | p in placeholders :: p in seen && seen[p].location.InPath? && seen[p].required
    ensures PathFlagsUsed(placeholders, flags) <==>
              forall name | name in seen && seen[name].location.InPath? :: name in placeholders
  {
    forall p | p in seen
      ensures seen[p] in flags && seen[p].name == p
    {
      var f :| f in flags && f.name == p;
      assert seen[p] == f;
    }
  }

  /** Finds no problem exactly in a well-formed command. */
  method ValidateCommand(c: Command) returns (problems: seq<Problem>)
    ensures problems == [] <==> CommandOk(c)
  {
    problems := [];
    if c.verb.UnknownVerb? {
      problems := problems + [BadVerb];
    }
    if c.risk.UnknownRisk? {
      problems := problems + [BadRisk];
    }
    if c.risk.Destroy? && !c.confirm {
      problems := problems + [NotConfirmed];
    }
    var placeholders, inEndpoint := ValidateEndpoint(c.endpoint);
    var seen, inFlags := ValidateFlags(c.flags, c.verb);
    var uncovered := MatchPlaceholders(placeholders, seen);
    var unused := MatchPathFlags(placeholders, seen);
    problems := problems + inEndpoint + inFlags + uncovered + unused;
    if inEndpoint == [] && inFlags == [] {
      MatchingMeans(placeholders, seen, c.flags);
    }
  }
}
