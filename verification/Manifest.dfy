/** Validation and compilation of a whole manifest: command keys and tool names. */
module Manifests {
  import opened Texts
  import opened Commands

  /** `sound` is the outcome of the rules for upstream, TLS, timeout, authentication and limits. */
  datatype Domain = Domain(name: Text, commands: seq<Command>, sound: bool)

  /** One declared command with its domain. */
  datatype Entry = Entry(domain: Text, command: Command)

  function EntriesOf(d: Domain): seq<Entry> {
    seq(|d.commands|, i requires 0 <= i < |d.commands| => Entry(d.name, d.commands[i]))
  }

  /** All declared commands, in the order of the manifest. */
  function Entries(domains: seq<Domain>): seq<Entry> {
    if domains == [] then []
    else Entries(domains[..|domains| - 1]) + EntriesOf(domains[|domains| - 1])
  }

  function KeyOf(e: Entry): Text {
    e.domain + [DOT] + Join(e.command.path, DOT)
  }

  function ReplaceAll(s: Text, from: Byte, into: Byte): Text {
    seq(|s|, i requires 0 <= i < |s| => if s[i] == from then into else s[i])
  }

  function ToolOf(e: Entry): Text {
    ReplaceAll(Join([e.domain] + e.command.path, UNDERSCORE), DASH, UNDERSCORE)
  }

  predicate PathOk(path: seq<Text>) {
    path != [] && forall part | part in path :: IsName(part)
  }

  ghost predicate EntryOk(e: Entry) {
    CommandOk(e.command) && PathOk(e.command.path)
  }

  predicate DistinctNames(es: seq<Entry>) {
    forall i, j | 0 <= i < j < |es| :: KeyOf(es[i]) != KeyOf(es[j]) && ToolOf(es[i]) != ToolOf(es[j])
  }

  ghost predicate EntriesOk(es: seq<Entry>) {
    (forall e | e in es :: EntryOk(e)) && DistinctNames(es)
  }

  predicate DomainsOk(domains: seq<Domain>) {
    && (forall d | d in domains :: IsName(d.name) && d.commands != [] && d.sound)
    && (forall i, j | 0 <= i < j < |domains| :: domains[i].name != domains[j].name)
  }

  /** The manifests without a problem in their domains and commands. */
  ghost predicate Accepts(domains: seq<Domain>) {
    domains != [] && DomainsOk(domains) && EntriesOk(Entries(domains))
  }

  function Keys(es: seq<Entry>): set<Text> {
    set e | e in es :: KeyOf(e)
  }

  function Tools(es: seq<Entry>): set<Text> {
    set e | e in es :: ToolOf(e)
  }

  lemma EntriesExtend(es: seq<Entry>, e: Entry)
    ensures EntriesOk(es + [e]) <==> EntriesOk(es) && EntryOk(e) && KeyOf(e) !in Keys(es) && ToolOf(e) !in Tools(es)
    ensures Keys(es + [e]) == Keys(es) + {KeyOf(e)} && Tools(es + [e]) == Tools(es) + {ToolOf(e)}
  {
    DistinctExtend(es, e);
    assert forall x :: x in es + [e] <==> x in es || x == e;
  }

  lemma DistinctExtend(es: seq<Entry>, e: Entry)
    ensures DistinctNames(es + [e]) <==> DistinctNames(es) && KeyOf(e) !in Keys(es) && ToolOf(e) !in Tools(es)
  {
    var more := es + [e];
    assert more[|es|] == e;
    assert forall i | 0 <= i < |es| :: es[i] == more[i];
  }

  function DomainNames(domains: seq<Domain>): set<Text> {
    set d | d in domains :: d.name
  }

  lemma DomainsExtend(domains: seq<Domain>, d: Domain, names: set<Text>)
    requires names == DomainNames(domains)
    ensures DomainsOk(domains + [d]) <==>
              DomainsOk(domains) && IsName(d.name) && d.commands != [] && d.sound && d.name !in names
    ensures names + {d.name} == DomainNames(domains + [d])
  {
    var more := domains + [d];
    assert more[|domains|] == d;
    if DomainsOk(more) {
      assert forall i | 0 <= i < |domains| :: domains[i] == more[i];
      assert forall x | x in domains :: x in more;
      assert d in more;
    }
  }

  lemma EntriesStep(domains: seq<Domain>, i: nat)
    requires i < |domains|
    ensures Entries(domains[..i + 1]) == Entries(domains[..i]) + EntriesOf(domains[i])
  {
    assert domains[..i + 1][..i] == domains[..i];
  }

  lemma DomainsStep(domains: seq<Domain>, i: nat, names: set<Text>)
    requires i < |domains| && names == DomainNames(domains[..i])
    ensures DomainsOk(domains[..i + 1]) <==>
              && DomainsOk(domains[..i]) && IsName(domains[i].name) && domains[i].commands != [] && domains[i].sound
              && domains[i].name !in names
    ensures names + {domains[i].name} == DomainNames(domains[..i + 1])
  {
    assert domains[..i + 1] == domains[..i] + [domains[i]];
    DomainsExtend(domains[..i], domains[i], names);
  }

  // ---------------------------------------------------------------------------
  // Validation
  // ---------------------------------------------------------------------------

  method CheckPath(path: seq<Text>) returns (ok: bool, problems: seq<Problem>)
    ensures ok <==> PathOk(path)
    ensures problems == [] <==> ok
  {
    ok, problems := |path| > 0, [];
    for i := 0 to |path|
      invariant problems == [] <==> forall part | part in path[..i] :: IsName(part)
      invariant ok <==> path != [] && problems == []
    {
      assert path[..i + 1] == path[..i] + [path[i]];
      if !IsName(path[i]) {
        problems := problems + [BadPart];
        ok := false;
      }
    }
    assert path[..|path|] == path;
    if path == [] {
      problems := problems + [NoPath];
    }
  }

  /** The rules for one command, against the keys and tool names seen so far. */
  method CheckEntry(e: Entry, keys: set<Text>, tools: map<Text, Text>)
    returns (keys': set<Text>, tools': map<Text, Text>, problems: seq<Problem>)
    ensures problems == [] <==> EntryOk(e) && KeyOf(e) !in keys && ToolOf(e) !in tools
    ensures problems == [] ==> keys' == keys + {KeyOf(e)} && tools'.Keys == tools.Keys + {ToolOf(e)}
  {
    keys', tools' := keys, tools;
    problems := ValidateCommand(e.command);
    var partsValid, inPath := CheckPath(e.command.path);
    problems := problems + inPath;
    if partsValid {
      var key := KeyOf(e);
      if key in keys {
        problems := problems + [RepeatedKey];
      }
      keys' := keys + {key};
      var tool := ToolOf(e);
      if tool in tools {
        problems := problems + [RepeatedTool];
      }
      tools' := tools[tool := key];
    }
  }

  method CheckDomain(d: Domain, names: set<Text>) returns (problems: seq<Problem>)
    ensures problems == [] <==> IsName(d.name) && d.commands != [] && d.sound && d.name !in names
  {
    problems := [];
    if !IsName(d.name) {
      problems := problems + [BadDomainName];
    }
    if d.name in names {
      problems := problems + [RepeatedDomain];
    }
    if !d.sound {
      problems := problems + [BadDomain];
    }
    if d.commands == [] {
      problems := problems + [NoCommands];
    }
  }

  /** No rule is broken by the first `i` domains. */
  ghost predicate AcceptsUpTo(domains: seq<Domain>, i: nat)
    requires i <= |domains|
  {
    domains != [] && DomainsOk(domains[..i]) && EntriesOk(Entries(domains[..i]))
  }

  lemma AcceptsAll(domains: seq<Domain>)
    ensures AcceptsUpTo(domains, |domains|) <==> Accepts(domains)
    ensures AcceptsUpTo(domains, 0) <==> domains != []
  {
    assert domains[..|domains|] == domains;
  }

  /** Reports no problem exactly for the manifests that satisfy every rule. */
  method Validate(domains: seq<Domain>) returns (problems: seq<Problem>)
    ensures problems == [] <==> Accepts(domains)
  {
    AcceptsAll(domains);
    problems := if domains == [] then [NoDomains] else [];
    var names: set<Text>, keys: set<Text>, tools: map<Text, Text> := {}, {}, map[];
    for i := 0 to |domains|
      invariant problems == [] <==> AcceptsUpTo(domains, i)
      invariant names == DomainNames(domains[..i])
      invariant problems == [] ==> SeenUpTo(domains, i, keys, tools)
    {
      keys, tools, problems := CheckNext(domains, i, names, keys, tools, problems);
      DomainsStep(domains, i, names);
      names := names + {domains[i].name};
    }
  }

  /** The keys and tool names of the first `i` domains. */
  ghost predicate SeenUpTo(domains: seq<Domain>, i: nat, keys: set<Text>, tools: map<Text, Text>)
    requires i <= |domains|
  {
    keys == Keys(Entries(domains[..i])) && tools.Keys == Tools(Entries(domains[..i]))
  }

  /** One turn of the outer loop of `Validate`. */
  method CheckNext(
      domains: seq<Domain>, i: nat, names: set<Text>,
      keys0: set<Text>, tools0: map<Text, Text>, problems0: seq<Problem>)
    returns (keys: set<Text>, tools: map<Text, Text>, problems: seq<Problem>)
    requires i < |domains| && names == DomainNames(domains[..i])
    requires problems0 == [] <==> AcceptsUpTo(domains, i)
    requires problems0 == [] ==> SeenUpTo(domains, i, keys0, tools0)
    ensures problems == [] <==> AcceptsUpTo(domains, i + 1)
    ensures problems == [] ==> SeenUpTo(domains, i + 1, keys, tools)
  {
    DomainsStep(domains, i, names);
    EntriesStep(domains, i);
    var inDomain := CheckDomain(domains[i], names);
    keys, tools, problems :=
      CheckCommands(domains[i], Entries(domains[..i]), domains != [] && DomainsOk(domains[..i + 1]),
                    keys0, tools0, problems0 + inDomain);
  }

  /** The inner loop of `Validate`, over the commands of one domain; `es` are the entries before it. */
  method CheckCommands(
      d: Domain, ghost es: seq<Entry>, ghost domainOk: bool,
      keys0: set<Text>, tools0: map<Text, Text>, problems0: seq<Problem>)
    returns (keys: set<Text>, tools: map<Text, Text>, problems: seq<Problem>)
    requires problems0 == [] <==> domainOk && EntriesOk(es)
    requires problems0 == [] ==> keys0 == Keys(es) && tools0.Keys == Tools(es)
    ensures problems == [] <==> domainOk && EntriesOk(es + EntriesOf(d))
    ensures problems == [] ==> keys == Keys(es + EntriesOf(d)) && tools.Keys == Tools(es + EntriesOf(d))
  {
    keys, tools, problems := keys0, tools0, problems0;
    ghost var mine := EntriesOf(d);
    assert es + mine[..0] == es;
    for j := 0 to |d.commands|
      invariant problems == [] <==> domainOk && EntriesOk(es + mine[..j])
      invariant problems == [] ==> keys == Keys(es + mine[..j]) && tools.Keys == Tools(es + mine[..j])
    {
      var e := Entry(d.name, d.commands[j]);
      EntriesExtend(es + mine[..j], e);
      assert es + mine[..j + 1] == es + mine[..j] + [e];
      var inEntry;
      keys, tools, inEntry := CheckEntry(e, keys, tools);
      problems := problems + inEntry;
    }
    assert es + mine[..|d.commands|] == es + mine;
  }

  // ---------------------------------------------------------------------------
  // Keys and tool names
  // ---------------------------------------------------------------------------

  lemma NameHasNoDot(s: Text)
    requires IsName(s)
    ensures DOT !in s
  {
    assert !IsLower(DOT) && !IsDigit(DOT) && DOT != DASH;
  }

  /** A command key can be read back: its parts between the dots are the domain and the path. */
  lemma KeySplits(e: Entry)
    requires IsName(e.domain) && PathOk(e.command.path)
    ensures Split(KeyOf(e), DOT) == [e.domain] + e.command.path
  {
    var parts := [e.domain] + e.command.path;
    forall p | p in parts
      ensures DOT !in p
    {
      NameHasNoDot(p);
    }
    assert parts[1..] == e.command.path;
    SplitJoin(parts, DOT);
  }

  lemma KeyIsUnambiguous(e: Entry, f: Entry)
    requires IsName(e.domain) && PathOk(e.command.path) && IsName(f.domain) && PathOk(f.command.path)
    ensures KeyOf(e) == KeyOf(f) <==> e.domain == f.domain && e.command.path == f.command.path
  {
    KeySplits(e);
    KeySplits(f);
    assert ([e.domain] + e.command.path)[1..] == e.command.path;
    assert ([f.domain] + f.command.path)[1..] == f.command.path;
  }

  lemma {:induction false} EntriesAreNamed(domains: seq<Domain>)
    requires forall d | d in domains :: IsName(d.name)
    ensures forall e | e in Entries(domains) :: IsName(e.domain)
  {
    if domains != [] {
      EntriesAreNamed(domains[..|domains| - 1]);
      assert domains[|domains| - 1] in domains;
    }
  }

  /**
   In an accepted manifest the position of a command, its (domain, path) pair, its key and
   its tool name determine each other.
   */
  lemma NamesAreInBijection(domains: seq<Domain>, i: nat, j: nat)
    requires Accepts(domains) && i < |Entries(domains)| && j < |Entries(domains)|
    ensures var e, f := Entries(domains)[i], Entries(domains)[j];
            && (i == j <==> KeyOf(e) == KeyOf(f))
            && (i == j <==> ToolOf(e) == ToolOf(f))
            && (i == j <==> e.domain == f.domain && e.command.path == f.command.path)
  {
    var es := Entries(domains);
    EntriesAreNamed(domains);
    assert EntryOk(es[i]) && EntryOk(es[j]);
    KeyIsUnambiguous(es[i], es[j]);
  }

  /**
   Tool naming alone is not injective: two well-named commands with different keys can share
   a tool name, and a manifest that declares both is refused.
   */
  lemma ToolNamingIsNotInjective(c: Command, d: Command)
    requires c.path == [[99]] && d.path == [[98], [99]]
    ensures var e, f := Entry([97, DASH, 98], c), Entry([97], d);
            && IsName(e.domain) && PathOk(e.command.path) && IsName(f.domain) && PathOk(f.command.path)
            && KeyOf(e) != KeyOf(f) && ToolOf(e) == ToolOf(f)
            && !Accepts([Domain(e.domain, [c], true), Domain(f.domain, [d], true)])
  {
    var e, f := Entry([97, DASH, 98], c), Entry([97], d);
    KeyIsUnambiguous(e, f);
    assert ([f.domain] + d.path)[1..] == d.path == [[98], [99]];
    JoinOfTwo(e.domain, [99], UNDERSCORE);
    JoinOfTwo([98], [99], UNDERSCORE);
    assert [e.domain] + c.path == [e.domain, [99]];
    assert Join([f.domain] + d.path, UNDERSCORE) == [97] + [UNDERSCORE] + ([98] + [UNDERSCORE] + [99]);
    assert ToolOf(e) == [97, UNDERSCORE, 98, UNDERSCORE, 99];
    assert ToolOf(f) == [97, UNDERSCORE, 98, UNDERSCORE, 99];
    assert EntriesOf(Domain(e.domain, [c], true)) == [e] && EntriesOf(Domain(f.domain, [d], true)) == [f];
    EntriesOfTwo(Domain(e.domain, [c], true), Domain(f.domain, [d], true));
    SharedToolIsRefused(e, f);
    assert [e] + [f] == [e, f];
  }

  lemma JoinOfTwo(a: Text, b: Text, sep: Byte)
    ensures Join([a, b], sep) == a + [sep] + b
  {
    assert [a, b][1..] == [b];
  }

  lemma SharedToolIsRefused(e: Entry, f: Entry)
    requires ToolOf(e) == ToolOf(f)
    ensures !EntriesOk([e, f])
  {
    var es := [e, f];
    assert ToolOf(es[0]) == ToolOf(es[1]);
  }

  lemma EntriesOfTwo(a: Domain, b: Domain)
    ensures Entries([a, b]) == EntriesOf(a) + EntriesOf(b)
  {
    assert [a, b][..1] == [a] && [a][..0] == [];
    assert Entries([a]) == Entries([]) + EntriesOf(a);
  }

  // ---------------------------------------------------------------------------
  // Sorting
  // ---------------------------------------------------------------------------

  /** Byte-wise lexicographic order. */
  predicate Leq(a: Text, b: Text) {
    a == [] || (b != [] && (a[0] < b[0] || (a[0] == b[0] && Leq(a[1..], b[1..]))))
  }

  lemma {:induction false} LeqIsTotal(a: Text, b: Text)
    ensures Leq(a, b) || Leq(b, a)
  {
    if a != [] && b != [] && a[0] == b[0] {
      LeqIsTotal(a[1..], b[1..]);
    }
  }

  lemma {:induction false} LeqIsTransitive(a: Text, b: Text, c: Text)
    requires Leq(a, b) && Leq(b, c)
    ensures Leq(a, c)
  {
    if a != [] && a[0] == b[0] == c[0] {
      LeqIsTransitive(a[1..], b[1..], c[1..]);
    }
  }

  predicate IsSorted(s: seq<Text>) {
    forall i, j | 0 <= i < j < |s| :: Leq(s[i], s[j])
  }

  function Insert(k: Text, s: seq<Text>): seq<Text> {
    if s == [] || Leq(k, s[0]) then [k] + s else [s[0]] + Insert(k, s[1..])
  }

  lemma {:induction false} InsertSorts(k: Text, s: seq<Text>)
    requires IsSorted(s)
    ensures IsSorted(Insert(k, s))
  {
    if s != [] {
      if Leq(k, s[0]) {
        forall j | 0 <= j < |s|
          ensures Leq(k, s[j])
        {
          if j > 0 {
            LeqIsTransitive(k, s[0], s[j]);
          }
        }
      } else {
        LeqIsTotal(k, s[0]);
        InsertSorts(k, s[1..]);
        InsertAdds(k, s[1..]);
        var rest := Insert(k, s[1..]);
        forall j | 0 <= j < |rest|
          ensures Leq(s[0], rest[j])
        {
          assert rest[j] in multiset(rest);
          assert rest[j] == k || rest[j] in s[1..];
        }
      }
    }
  }

  lemma {:induction false} InsertAdds(k: Text, s: seq<Text>)
    ensures multiset(Insert(k, s)) == multiset(s) + multiset{k}
  {
    if s != [] && !Leq(k, s[0]) {
      InsertAdds(k, s[1..]);
      assert s == [s[0]] + s[1..];
    }
  }

  method SortTexts(texts: seq<Text>) returns (sorted: seq<Text>)
    ensures IsSorted(sorted) && multiset(sorted) == multiset(texts)
  {
    sorted := [];
    for i := 0 to |texts|
      invariant IsSorted(sorted) && multiset(sorted) == multiset(texts[..i])
    {
      InsertSorts(texts[i], sorted);
      InsertAdds(texts[i], sorted);
      sorted := Insert(texts[i], sorted);
      assert texts[..i + 1] == texts[..i] + [texts[i]];
    }
    assert texts[..|texts|] == texts;
  }

  // ---------------------------------------------------------------------------
  // Compilation
  // ---------------------------------------------------------------------------

  datatype Compiled = Compiled(
    key: Text,
    tool: Text,
    domain: Text,
    path: seq<Text>,
    segments: seq<Text>,
    flags: seq<Flag>)

  datatype Snapshot = Snapshot(commands: map<Text, Compiled>, tools: map<Text, Compiled>, keys: seq<Text>)

  /** A query flag without a query name uses its own. */
  function CompileFlags(flags: seq<Flag>): seq<Flag> {
    seq(|flags|, i requires 0 <= i < |flags| =>
      flags[i].(queryName := if !flags[i].location.InQuery? then []
                             else if flags[i].queryName == [] then flags[i].name
                             else flags[i].queryName))
  }

  /** Compilation keeps every flag as declared, and gives query flags, and only those, a query name. */
  lemma CompiledFlagsAreFaithful(flags: seq<Flag>, i: nat)
    requires i < |flags|
    ensures |CompileFlags(flags)| == |flags|
    ensures var f, g := flags[i], CompileFlags(flags)[i];
            && g.(queryName := f.queryName) == f
            && (f.location.InQuery? && f.name != [] ==> g.queryName != [] && (f.queryName != [] ==> g == f))
            && (!f.location.InQuery? ==> g.queryName == [])
  {
  }

  function CompiledOf(e: Entry): Compiled {
    Compiled(KeyOf(e), ToolOf(e), e.domain, e.command.path, Segments(e.command.endpoint), CompileFlags(e.command.flags))
  }

  /** A compiled command names its declaration: its key reads as its domain and path. */
  lemma CompiledCommandIsFaithful(e: Entry)
    requires IsName(e.domain) && PathOk(e.command.path)
    ensures var c := CompiledOf(e);
            && c.domain == e.domain && c.path == e.command.path && c.key == KeyOf(e) && c.tool == ToolOf(e)
            && Split(c.key, DOT) == [c.domain] + c.path
            && c.segments == Segments(e.command.endpoint) && |c.flags| == |e.command.flags|
  {
    KeySplits(e);
  }

  function KeyList(es: seq<Entry>): seq<Text> {
    seq(|es|, i requires 0 <= i < |es| => KeyOf(es[i]))
  }

  function ToolList(es: seq<Entry>): seq<Text> {
    seq(|es|, i requires 0 <= i < |es| => ToolOf(es[i]))
  }

  function CompiledList(es: seq<Entry>): seq<Compiled> {
    seq(|es|, i requires 0 <= i < |es| => CompiledOf(es[i]))
  }

  /** `table` maps the i-th name to the i-th command, has one entry for each, and no other. */
  ghost predicate Tabulates(names: seq<Text>, values: seq<Compiled>, table: map<Text, Compiled>) {
    && |names| == |values| == |table|
    && (forall i | 0 <= i < |names| :: names[i] in table && table[names[i]] == values[i])
    && (forall name | name in table :: name in names)
  }

  lemma TabulateOne(names: seq<Text>, values: seq<Compiled>, table: map<Text, Compiled>, name: Text, value: Compiled)
    requires Tabulates(names, values, table) && name !in names
    ensures Tabulates(names + [name], values + [value], table[name := value])
  {
    assert table[name := value].Keys == table.Keys + {name};
    assert |table[name := value].Keys| == |table.Keys| + 1;
  }

  /** Every declared command is under its key and under its tool name, and nothing else is there. */
  ghost predicate SnapshotOf(es: seq<Entry>, snapshot: Snapshot) {
    && Tabulates(KeyList(es), CompiledList(es), snapshot.commands)
    && Tabulates(ToolList(es), CompiledList(es), snapshot.tools)
  }

  function WithEntry(snapshot: Snapshot, e: Entry): Snapshot {
    Snapshot(snapshot.commands[KeyOf(e) := CompiledOf(e)], snapshot.tools[ToolOf(e) := CompiledOf(e)],
             snapshot.keys + [KeyOf(e)])
  }

  lemma ListsExtend(es: seq<Entry>, e: Entry)
    ensures KeyList(es + [e]) == KeyList(es) + [KeyOf(e)]
    ensures ToolList(es + [e]) == ToolList(es) + [ToolOf(e)]
    ensures CompiledList(es + [e]) == CompiledList(es) + [CompiledOf(e)]
  {
  }

  lemma LastIsNew(es: seq<Entry>, e: Entry)
    requires DistinctNames(es + [e])
    ensures KeyOf(e) !in KeyList(es) && ToolOf(e) !in ToolList(es)
  {
    var more := es + [e];
    assert more[|es|] == e;
    forall i | 0 <= i < |es|
      ensures KeyOf(es[i]) != KeyOf(e) && ToolOf(es[i]) != ToolOf(e)
    {
      assert more[i] == es[i];
    }
  }

  lemma SnapshotExtend(es: seq<Entry>, e: Entry, snapshot: Snapshot)
    requires SnapshotOf(es, snapshot) && snapshot.keys == KeyList(es) && DistinctNames(es + [e])
    ensures SnapshotOf(es + [e], WithEntry(snapshot, e)) && WithEntry(snapshot, e).keys == KeyList(es + [e])
  {
    LastIsNew(es, e);
    ListsExtend(es, e);
    TabulateOne(KeyList(es), CompiledList(es), snapshot.commands, KeyOf(e), CompiledOf(e));
    TabulateOne(ToolList(es), CompiledList(es), snapshot.tools, ToolOf(e), CompiledOf(e));
  }

  lemma PrefixOk(es: seq<Entry>, whole: seq<Entry>)
    requires DistinctNames(whole) && es <= whole
    ensures DistinctNames(es)
  {
    forall i, j | 0 <= i < j < |es|
      ensures KeyOf(es[i]) != KeyOf(es[j]) && ToolOf(es[i]) != ToolOf(es[j])
    {
      assert es[i] == whole[i] && es[j] == whole[j];
    }
  }

  lemma NextIsDistinct(done: seq<Entry>, e: Entry, all: seq<Entry>)
    requires DistinctNames(all) && done <= all && |done| < |all| && all[|done|] == e
    ensures done + [e] <= all && DistinctNames(done + [e])
  {
    assert done + [e] <= all;
    PrefixOk(done + [e], all);
  }

  method CompileCommands(d: Domain, ghost es: seq<Entry>, start: Snapshot) returns (snapshot: Snapshot)
    requires DistinctNames(es + EntriesOf(d))
    requires SnapshotOf(es, start) && start.keys == KeyList(es)
    ensures SnapshotOf(es + EntriesOf(d), snapshot) && snapshot.keys == KeyList(es + EntriesOf(d))
  {
    snapshot := start;
    ghost var done, all := es, es + EntriesOf(d);
    for j := 0 to |d.commands|
      invariant |done| == |es| + j && done <= all
      invariant SnapshotOf(done, snapshot) && snapshot.keys == KeyList(done)
    {
      var e := Entry(d.name, d.commands[j]);
      assert all[|done|] == e;
      NextIsDistinct(done, e, all);
      SnapshotExtend(done, e, snapshot);
      snapshot := WithEntry(snapshot, e);
      done := done + [e];
    }
    assert done == all;
  }

  lemma {:induction false} EntriesPrefix(domains: seq<Domain>, n: nat)
    requires n <= |domains|
    ensures Entries(domains[..n]) <= Entries(domains)
    decreases |domains|
  {
    if n == |domains| {
      assert domains[..n] == domains;
    } else {
      EntriesPrefix(domains[..|domains| - 1], n);
      assert domains[..|domains| - 1][..n] == domains[..n];
    }
  }

  /**
   Compiling an accepted manifest loses no command: both maps hold exactly one compiled
   command for each declared one, and `keys` lists the command keys in strictly ascending order.
   */
  method Compile(domains: seq<Domain>) returns (snapshot: Snapshot)
    requires Accepts(domains)
    ensures SnapshotOf(Entries(domains), snapshot)
    ensures IsSorted(snapshot.keys)
    ensures forall i, j | 0 <= i < j < |snapshot.keys| :: snapshot.keys[i] != snapshot.keys[j]
    ensures forall k :: k in snapshot.keys <==> k in snapshot.commands
  {
    snapshot := Snapshot(map[], map[], []);
    for i := 0 to |domains|
      invariant SnapshotOf(Entries(domains[..i]), snapshot)
      invariant snapshot.keys == KeyList(Entries(domains[..i]))
    {
      EntriesUpTo(domains, i);
      snapshot := CompileCommands(domains[i], Entries(domains[..i]), snapshot);
    }
    assert domains[..|domains|] == domains;
    var sorted := SortTexts(snapshot.keys);
    SortedKeys(Entries(domains), sorted, snapshot.commands);
    snapshot := snapshot.(keys := sorted);
  }

  lemma EntriesUpTo(domains: seq<Domain>, i: nat)
    requires i < |domains| && DistinctNames(Entries(domains))
    ensures Entries(domains[..i + 1]) == Entries(domains[..i]) + EntriesOf(domains[i])
    ensures DistinctNames(Entries(domains[..i + 1]))
  {
    EntriesStep(domains, i);
    EntriesPrefix(domains, i + 1);
    PrefixOk(Entries(domains[..i + 1]), Entries(domains));
  }

  lemma KeysAreDistinct(es: seq<Entry>)
    requires DistinctNames(es)
    ensures forall i, j | 0 <= i < j < |KeyList(es)| :: KeyList(es)[i] != KeyList(es)[j]
  {
    forall i, j | 0 <= i < j < |es|
      ensures KeyList(es)[i] != KeyList(es)[j]
    {
      assert KeyOf(es[i]) != KeyOf(es[j]);
    }
  }

  lemma SortedKeys(es: seq<Entry>, sorted: seq<Text>, commands: map<Text, Compiled>)
    requires DistinctNames(es) && multiset(sorted) == multiset(KeyList(es))
    requires Tabulates(KeyList(es), CompiledList(es), commands)
    ensures forall i, j | 0 <= i < j < |sorted| :: sorted[i] != sorted[j]
    ensures forall k :: k in sorted <==> k in commands
  {
    var list := KeyList(es);
    KeysAreDistinct(es);
    PermutationStaysDistinct(list, sorted);
    SameElements(list, sorted);
  }

  lemma SameElements(s: seq<Text>, t: seq<Text>)
    requires multiset(s) == multiset(t)
    ensures forall k :: k in s <==> k in t
  {
    forall k
      ensures k in s <==> k in t
    {
      assert k in s <==> k in multiset(s);
      assert k in t <==> k in multiset(t);
    }
  }

  lemma {:induction false} DistinctCounts(s: seq<Text>, k: Text)
    requires forall i, j | 0 <= i < j < |s| :: s[i] != s[j]
    ensures multiset(s)[k] <= 1
  {
    if s != [] {
      var n := |s| - 1;
      assert s == s[..n] + [s[n]];
      DistinctCounts(s[..n], k);
      if s[n] == k {
        assert k !in s[..n];
      }
    }
  }

  lemma PermutationStaysDistinct(s: seq<Text>, t: seq<Text>)
    requires multiset(s) == multiset(t) && forall i, j | 0 <= i < j < |s| :: s[i] != s[j]
    ensures forall i, j | 0 <= i < j < |t| :: t[i] != t[j]
  {
    forall i, j | 0 <= i < j < |t|
      ensures t[i] != t[j]
    {
      DistinctCounts(s, t[i]);
      assert t == t[..i] + [t[i]] + t[i + 1..j] + [t[j]] + t[j + 1..];
      assert multiset(t) == multiset(t[..i]) + multiset{t[i]} + multiset(t[i + 1..j])
                            + multiset{t[j]} + multiset(t[j + 1..]);
    }
  }
}
