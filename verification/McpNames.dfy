/** The flat names under which MCP tools are advertised, and the way a call finds its guardian again. */
module McpNames {
  import opened Options
  import opened Text

  const SEPARATOR := "__"

  predicate NameChar(c: char) {
    'a' <= c <= 'z' || 'A' <= c <= 'Z' || '0' <= c <= '9' || c == '-'
  }

  predicate ValidGuardianName(name: string) {
    name != "" && forall i :: 0 <= i < |name| ==> NameChar(name[i])
  }

  function Snake(c: char): char {
    if c == '-' then '_' else c
  }

  function Canon(name: string): string {
    seq(|name|, (i: nat) requires i < |name| => Snake(name[i]))
  }

  /** The tools each registered guardian offers. */
  type Guardians = map<string, seq<string>>

  predicate AllValid(gs: Guardians) {
    forall g :: g in gs ==> ValidGuardianName(g)
  }

  lemma CanonAppend(a: string, b: string)
    ensures Canon(a + b) == Canon(a) + Canon(b)
  {
  }

  lemma CanonIdempotent(s: string)
    ensures Canon(Canon(s)) == Canon(s)
  {
  }

  lemma CanonInjective(a: string, b: string)
    requires ValidGuardianName(a) && ValidGuardianName(b) && Canon(a) == Canon(b)
    ensures a == b
  {
    assert |a| == |Canon(a)| == |b|;
    forall i | 0 <= i < |a| ensures a[i] == b[i] {
      assert Canon(a)[i] == Snake(a[i]) && Canon(b)[i] == Snake(b[i]) && NameChar(a[i]) && NameChar(b[i]);
    }
  }

  function Advertised(g: string, tool: string): string {
    "mcp__" + Canon(g) + SEPARATOR + Canon(tool)
  }

  function RestOf(g: string, tool: string): string {
    Canon(g) + SEPARATOR + Canon(tool)
  }

  // ---- parsing ----

  /** Splitting at the first separator names a registered guardian and leaves a tool. */
  predicate FirstSplit(rest: string, g: string) {
    var i := Index(rest, SEPARATOR, 0);
    i.Some? && i.value > 0 && i.value + 2 < |rest| && Canon(g) == rest[..i.value]
  }

  function ToolAfter(rest: string, n: nat): string
    requires n + 2 <= |rest|
  {
    rest[n + 2..]
  }

  predicate Marks(rest: string, g: string) {
    HasPrefix(rest, Canon(g) + SEPARATOR)
  }

  /** r may come out: some guardian matched by the first separator if there is one, else a longest one whose marker
      starts the text. Ranging over a Go map may meet the guardians in any order. */
  predicate MayReturn(rest: string, gs: Guardians, r: Option<(string, string)>) {
    if exists g :: g in gs && FirstSplit(rest, g) then
      r.Some? && r.value.0 in gs && FirstSplit(rest, r.value.0)
      && r.value.1 == ToolAfter(rest, Index(rest, SEPARATOR, 0).value)
    else if exists g :: g in gs && Marks(rest, g) && g != "" then
      exists g :: g in gs && Marks(rest, g) && g != "" && (forall o :: o in gs && Marks(rest, o) ==> |o| <= |g|)
                  && r == FromMarker(rest, g)
    else r.None?
  }

  function FromMarker(rest: string, g: string): Option<(string, string)>
    requires Marks(rest, g)
  {
    var tool := ToolAfter(rest, |Canon(g)|);
    if tool == "" then None else Some((g, tool))
  }

  method SplitMCPName(rest: string, gs: Guardians) returns (r: Option<(string, string)>)
    ensures MayReturn(rest, gs, r)
  {
    var i := Index(rest, SEPARATOR, 0);
    if i.Some? && i.value > 0 {
      var tool := ToolAfter(rest, i.value);
      if tool != "" {
        var left := gs.Keys;
        while left != {}
          invariant left <= gs.Keys
          invariant forall g :: g in gs && g !in left ==> !FirstSplit(rest, g)
          decreases |left|
        {
          var name :| name in left;
          if Canon(name) == rest[..i.value] {
            return Some((name, tool));
          }
          left := left - {name};
        }
      }
    }
    assert forall g :: g in gs ==> !FirstSplit(rest, g);
    r := LongestMarker(rest, gs);
  }

  method LongestMarker(rest: string, gs: Guardians) returns (r: Option<(string, string)>)
    requires forall g :: g in gs ==> !FirstSplit(rest, g)
    ensures MayReturn(rest, gs, r)
  {
    var best := "";
    var left := gs.Keys;
    while left != {}
      invariant left <= gs.Keys
      invariant best != "" ==> best in gs && Marks(rest, best)
      invariant forall o :: o in gs && o !in left && Marks(rest, o) ==> |o| <= |best|
      decreases |left|
    {
      var name :| name in left;
      if Marks(rest, name) && |name| > |best| {
        best := name;
      }
      left := left - {name};
    }
    if best == "" {
      return None;
    }
    var tool := ToolAfter(rest, |Canon(best)|);
    r := if tool == "" then None else Some((best, tool));
    assert r == FromMarker(rest, best);
  }

  // ---- the round trip ----

  /** No run of dashes and none at the end: the first separator of the advertised name is the one after the guardian. */
  predicate Clear(g: string) {
    g != "" && g[|g| - 1] != '-' && forall i :: 0 <= i < |g| - 1 ==> !(g[i] == '-' && g[i + 1] == '-')
  }

  lemma CharsAt(s: string, i: nat)
    requires i + 2 <= |s|
    ensures At(s, SEPARATOR, i) <==> s[i] == '_' && s[i + 1] == '_'
  {
    assert s[i..i + 2] == [s[i], s[i + 1]];
  }

  lemma FirstSeparator(g: string, tool: string)
    requires ValidGuardianName(g)
    ensures var i := Index(RestOf(g, tool), SEPARATOR, 0);
            i.Some? && i.value <= |g| && (i.value == |g| <==> Clear(g))
  {
    var rest := RestOf(g, tool);
    CharsAt(rest, |g|);
    assert At(rest, SEPARATOR, |g|);
    IndexIsFirst(rest, SEPARATOR, 0);
    var i := Index(rest, SEPARATOR, 0).value;
    forall k | 0 <= k < |g| ensures At(rest, SEPARATOR, k) <==> g[k] == '-' && (k == |g| - 1 || g[k + 1] == '-') {
      CharsAt(rest, k);
      assert rest[k] == Canon(g)[k] == Snake(g[k]) && NameChar(g[k]);
      if k < |g| - 1 {
        assert rest[k + 1] == Canon(g)[k + 1] == Snake(g[k + 1]) && NameChar(g[k + 1]);
      }
    }
    if Clear(g) {
      assert i == |g|;
    } else if g[|g| - 1] == '-' {
      assert At(rest, SEPARATOR, |g| - 1);
    }
  }

  /** The name goes elsewhere: what stands before its first separator is another guardian, or the marker of a guardian
      with a longer name starts it. */
  predicate Hijacked(gs: Guardians, g: string, tool: string) {
    var rest := RestOf(g, tool);
    || (exists o :: o in gs && o != g && FirstSplit(rest, o))
    || (exists o :: o in gs && |o| > |g| && Marks(rest, o))
  }

  lemma OwnMarker(g: string, tool: string)
    requires ValidGuardianName(g)
    ensures Marks(RestOf(g, tool), g) && ToolAfter(RestOf(g, tool), |g|) == Canon(tool)
  {
    var rest := RestOf(g, tool);
    assert rest[0..|Canon(g) + SEPARATOR|] == Canon(g) + SEPARATOR;
  }

  lemma EqualMarkers(rest: string, a: string, b: string)
    requires ValidGuardianName(a) && ValidGuardianName(b) && Marks(rest, a) && Marks(rest, b) && |a| == |b|
    ensures a == b
  {
    assert Canon(a) == rest[0..|Canon(a) + SEPARATOR|][..|a|] && Canon(b) == rest[0..|Canon(b) + SEPARATOR|][..|b|];
    CanonInjective(a, b);
  }

  /** A clear name comes back whatever else is registered. */
  lemma ClearSplits(gs: Guardians, g: string, tool: string, r: Option<(string, string)>)
    requires AllValid(gs) && g in gs && tool != "" && Clear(g) && MayReturn(RestOf(g, tool), gs, r)
    ensures r == Some((g, Canon(tool)))
  {
    var rest := RestOf(g, tool);
    FirstSeparator(g, tool);
    OwnMarker(g, tool);
    assert rest[..|g|] == Canon(g);
    assert |rest| == |g| + 2 + |tool| && FirstSplit(rest, g);
    CanonInjective(r.value.0, g);
  }

  /** Any other name comes back exactly when it is not hijacked. */
  lemma UnclearSplitsIff(gs: Guardians, g: string, tool: string, r: Option<(string, string)>)
    requires AllValid(gs) && g in gs && tool != "" && !Clear(g) && MayReturn(RestOf(g, tool), gs, r)
    ensures r == Some((g, Canon(tool))) <==> !Hijacked(gs, g, tool)
    ensures Hijacked(gs, g, tool) ==> r.None? || r.value.0 != g
  {
    var rest := RestOf(g, tool);
    FirstSeparator(g, tool);
    OwnMarker(g, tool);
    assert !FirstSplit(rest, g);
    assert Marks(rest, g) && g != "";
    if !(exists o :: o in gs && FirstSplit(rest, o)) {
      var best :| best in gs && Marks(rest, best) && best != "" && (forall o :: o in gs && Marks(rest, o) ==> |o| <= |best|)
                  && r == FromMarker(rest, best);
      assert |g| <= |best|;
      if |best| == |g| {
        EqualMarkers(rest, best, g);
      }
    }
  }

  /** An advertised name splits into its guardian and its canonical tool name exactly when the guardian's name is clear
      or nobody hijacks it, in whatever order the guardians are visited. */
  lemma SplitRoundTripIff(gs: Guardians, g: string, tool: string, r: Option<(string, string)>)
    requires AllValid(gs) && g in gs && tool != "" && MayReturn(RestOf(g, tool), gs, r)
    ensures r == Some((g, Canon(tool))) <==> Clear(g) || !Hijacked(gs, g, tool)
    ensures r == Some((g, Canon(tool))) || r.None? || r.value.0 != g
  {
    if Clear(g) {
      ClearSplits(gs, g, tool, r);
    } else {
      UnclearSplitsIff(gs, g, tool, r);
    }
  }

  // ---- dispatch ----

  /** The first upstream tool with this canonical name, or the name itself. */
  function Upstream(tools: seq<string>, name: string): (t: string)
    ensures t == name || (t in tools && Canon(t) == name)
  {
    if tools == [] then name else if Canon(tools[0]) == name then tools[0] else Upstream(tools[1..], name)
  }

  lemma {:induction false} UpstreamFinds(tools: seq<string>, tool: string)
    requires tool in tools && forall i, j :: 0 <= i < j < |tools| ==> Canon(tools[i]) != Canon(tools[j])
    ensures Upstream(tools, Canon(tool)) == tool
  {
    var k :| 0 <= k < |tools| && tools[k] == tool;
    if k > 0 {
      assert Canon(tools[0]) != Canon(tools[k]);
      assert tools[1..][k - 1] == tool;
      UpstreamFinds(tools[1..], tool);
    }
  }

  function Resolved(gs: Guardians, s: Option<(string, string)>): Option<(string, string)> {
    match s
    case None => None
    case Some((g, t)) => if g in gs then Some((g, Upstream(gs[g], t))) else None
  }

  predicate MayDispatch(name: string, gs: Guardians, s: Option<(string, string)>, r: Option<(string, string)>)
    requires HasPrefix(name, "mcp__")
  {
    MayReturn(Canon(name)[5..], gs, s) && r == Resolved(gs, s)
  }

  method Dispatch(name: string, gs: Guardians) returns (s: Option<(string, string)>, r: Option<(string, string)>)
    requires HasPrefix(name, "mcp__")
    ensures MayDispatch(name, gs, s, r)
  {
    var canonical := Canon(name);
    s := SplitMCPName(canonical[5..], gs);
    if s.None? || s.value.0 !in gs {
      return s, None;
    }
    var g, toolName := s.value.0, s.value.1;
    var tools := gs[g];
    for i := 0 to |tools|
      invariant Upstream(tools, s.value.1) == Upstream(tools[i..], s.value.1)
    {
      if Canon(tools[i]) == s.value.1 {
        return s, Some((g, tools[i]));
      }
      assert tools[i..][1..] == tools[i + 1..];
    }
    r := Some((g, toolName));
  }

  lemma AdvertisedRest(g: string, tool: string)
    ensures HasPrefix(Advertised(g, tool), "mcp__") && Canon(Advertised(g, tool))[5..] == RestOf(g, tool)
  {
    var name := Advertised(g, tool);
    CanonIdempotent(g);
    CanonIdempotent(tool);
    CanonAppend("mcp__" + Canon(g) + SEPARATOR, Canon(tool));
    CanonAppend("mcp__" + Canon(g), SEPARATOR);
    CanonAppend("mcp__", Canon(g));
    assert Canon(SEPARATOR) == SEPARATOR && Canon("mcp__") == "mcp__";
    assert name[0..5] == "mcp__";
    assert Canon(name) == "mcp__" + RestOf(g, tool);
  }

  /** A call to an advertised name reaches the guardian and the upstream tool it was advertised for exactly when the
      guardian's name is clear or nobody hijacks it, for guardians without two tools of one canonical name. */
  lemma CallReachesItsToolIff(gs: Guardians, g: string, tool: string, s: Option<(string, string)>, r: Option<(string, string)>)
    requires AllValid(gs) && g in gs && tool in gs[g] && tool != ""
    requires forall i, j :: 0 <= i < j < |gs[g]| ==> Canon(gs[g][i]) != Canon(gs[g][j])
    requires HasPrefix(Advertised(g, tool), "mcp__") && MayDispatch(Advertised(g, tool), gs, s, r)
    ensures r == Some((g, tool)) <==> Clear(g) || !Hijacked(gs, g, tool)
  {
    AdvertisedRest(g, tool);
    SplitRoundTripIff(gs, g, tool, s);
    UpstreamFinds(gs[g], tool);
  }

  lemma FirstAt(rest: string)
    requires |rest| >= 3 && rest[0] != '_' && rest[1] == '_' && rest[2] == '_'
    ensures Index(rest, SEPARATOR, 0) == Some(1)
  {
    CharsAt(rest, 0);
    CharsAt(rest, 1);
    IndexIsFirst(rest, SEPARATOR, 0);
  }

  /** With guardians a and a--b registered, a tool t of the second is dispatched to the first as tool b__t. */
  lemma DoubleDashMisroutes(gs: Guardians, r: Option<(string, string)>)
    requires gs.Keys == {"a", "a--b"} && MayReturn(RestOf("a--b", "t"), gs, r)
    ensures r == Some(("a", "b__t"))
  {
    var rest := RestOf("a--b", "t");
    assert rest == "a__b__t" && Canon("a") == "a";
    FirstAt(rest);
    assert rest[..1] == "a" && rest[3..] == "b__t";
    assert FirstSplit(rest, "a");
    assert |Canon("a--b")| == 4 && !FirstSplit(rest, "a--b");
  }
}
