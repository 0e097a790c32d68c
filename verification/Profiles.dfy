/** The named LLM profiles: unique names, a default that resolves, and edits that roll back. */
module Profiles {
  import opened Options
  import opened Text

  /** The two sides of a profile are carried as opaque settings. */
  datatype Profile = Profile(id: string, name: string, side: string, local: string, vertex: string)
  datatype Config = Config(defaultID: string, profiles: seq<Profile>)

  /** Lower-casing character by character; digits, the space and parentheses have no case. */
  type Lowering = f: char -> char | forall i :: 0 <= i < |" ()0123456789"| ==> f(" ()0123456789"[i]) == " ()0123456789"[i]
    witness (c: char) => c

  function Lower(low: Lowering, s: string): string {
    seq(|s|, (i: nat) requires i < |s| => low(s[i]))
  }

  const DEFAULT_PROFILE_NAME := "Default"
  const BACKEND_LOCAL := "local"

  // ---- unique names ----

  function Taken(low: Lowering, ps: seq<Profile>, selfID: string): set<string> {
    set i | 0 <= i < |ps| && ps[i].id != selfID :: Lower(low, ps[i].name)
  }

  function Numbered(desired: string, n: nat): string {
    desired + " (" + Dec(n) + ")"
  }

  lemma {:induction false} DigitsAreCaseless(low: Lowering, s: string)
    requires Digits(s)
    ensures Lower(low, s) == s
  {
    forall i | 0 <= i < |s| ensures low(s[i]) == s[i] {
      assert IsDigit(s[i]);
      var k := DigitValue(s[i]);
      assert " ()0123456789"[3 + k] == s[i];
    }
  }

  lemma LowerAppend(low: Lowering, s: string, t: string)
    ensures Lower(low, s + t) == Lower(low, s) + Lower(low, t)
  {
  }

  lemma LowerNumbered(low: Lowering, desired: string, n: nat)
    ensures Lower(low, Numbered(desired, n)) == Lower(low, desired) + " (" + Dec(n) + ")"
  {
    LowerAppend(low, desired + " (" + Dec(n), ")");
    LowerAppend(low, desired + " (", Dec(n));
    LowerAppend(low, desired, " (");
    DigitsAreCaseless(low, Dec(n));
    assert " ()0123456789"[0] == ' ' && " ()0123456789"[1] == '(' && " ()0123456789"[2] == ')';
    assert Lower(low, " (") == " (" && Lower(low, ")") == ")";
  }

  lemma NumberedInjective(low: Lowering, desired: string, m: nat, n: nat)
    requires Lower(low, Numbered(desired, m)) == Lower(low, Numbered(desired, n))
    ensures m == n
  {
    LowerNumbered(low, desired, m);
    LowerNumbered(low, desired, n);
    var k := |Lower(low, desired) + " ("|;
    var s := Lower(low, Numbered(desired, m));
    assert s[k..|s| - 1] == Dec(m) && s[k..|s| - 1] == Dec(n);
    DecInjective(m, n);
  }

  /** left holds the taken names that no candidate below n has used up. */
  ghost predicate LeftFrom(low: Lowering, taken: set<string>, desired: string, n: nat, left: set<string>) {
    && left <= taken
    && forall m: nat :: m >= n && Lower(low, Numbered(desired, m)) in taken ==> Lower(low, Numbered(desired, m)) in left
  }

  lemma Uses(low: Lowering, taken: set<string>, desired: string, n: nat, left: set<string>)
    requires LeftFrom(low, taken, desired, n, left)
    ensures LeftFrom(low, taken, desired, n + 1, left - {Lower(low, Numbered(desired, n))})
  {
    forall m: nat | m >= n + 1 && Lower(low, Numbered(desired, m)) in taken
      ensures Lower(low, Numbered(desired, m)) in left - {Lower(low, Numbered(desired, n))}
    {
      if Lower(low, Numbered(desired, m)) == Lower(low, Numbered(desired, n)) {
        NumberedInjective(low, desired, m, n);
      }
    }
  }

  /** The smallest suffix number from n on that is free. Each clash uses up another taken name, so it exists. */
  ghost function FirstFree(low: Lowering, taken: set<string>, desired: string, n: nat, left: set<string>): (r: nat)
    requires LeftFrom(low, taken, desired, n, left)
    ensures n <= r <= n + |left| && Lower(low, Numbered(desired, r)) !in taken
    ensures forall m: nat :: n <= m < r ==> Lower(low, Numbered(desired, m)) in taken
    decreases |left|
  {
    var candidate := Lower(low, Numbered(desired, n));
    if candidate !in taken then n
    else
      Uses(low, taken, desired, n, left);
      FirstFree(low, taken, desired, n + 1, left - {candidate})
  }

  ghost function Disambiguated(low: Lowering, ps: seq<Profile>, desired: string, selfID: string): string {
    var taken := Taken(low, ps, selfID);
    if Lower(low, desired) !in taken then desired
    else Numbered(desired, FirstFree(low, taken, desired, 2, taken))
  }

  method DisambiguateName(low: Lowering, ps: seq<Profile>, desired: string, selfID: string) returns (name: string)
    ensures name == Disambiguated(low, ps, desired, selfID)
  {
    var taken: set<string> := {};
    for i := 0 to |ps|
      invariant taken == Taken(low, ps[..i], selfID)
    {
      TakenGrows(low, ps, selfID, i);
      if ps[i].id == selfID {
        continue;
      }
      taken := taken + {Lower(low, ps[i].name)};
    }
    assert ps[..|ps|] == ps;
    if Lower(low, desired) !in taken {
      return desired;
    }
    var n := 2;
    ghost var left := taken;
    while true
      invariant n >= 2 && LeftFrom(low, taken, desired, n, left)
      invariant FirstFree(low, taken, desired, 2, taken) == FirstFree(low, taken, desired, n, left)
      decreases |left|
    {
      name := Numbered(desired, n);
      if Lower(low, name) !in taken {
        return;
      }
      Uses(low, taken, desired, n, left);
      n, left := n + 1, left - {Lower(low, name)};
    }
  }

  lemma TakenGrows(low: Lowering, ps: seq<Profile>, selfID: string, i: nat)
    requires i < |ps|
    ensures Taken(low, ps[..i + 1], selfID) ==
            Taken(low, ps[..i], selfID) + if ps[i].id == selfID then {} else {Lower(low, ps[i].name)}
  {
    var all, before := Taken(low, ps[..i + 1], selfID), Taken(low, ps[..i], selfID);
    forall x | x in before ensures x in all {
      var k :| 0 <= k < i && ps[..i][k].id != selfID && x == Lower(low, ps[..i][k].name);
      assert ps[..i + 1][k] == ps[..i][k];
    }
    if ps[i].id != selfID {
      assert ps[..i + 1][i] == ps[i];
    }
    forall x | x in all ensures x in before || (ps[i].id != selfID && x == Lower(low, ps[i].name)) {
      var k :| 0 <= k < i + 1 && ps[..i + 1][k].id != selfID && x == Lower(low, ps[..i + 1][k].name);
      if k < i {
        assert ps[..i][k] == ps[..i + 1][k];
      }
    }
  }

  /** The name handed out clashes with nobody else's, and its number is the smallest that does so, at most one
      more than there are profiles beyond the first free choice. */
  lemma NameIsFreeAndSmallest(low: Lowering, ps: seq<Profile>, desired: string, selfID: string)
    ensures var name := Disambiguated(low, ps, desired, selfID);
            var taken := Taken(low, ps, selfID);
            && (forall i :: 0 <= i < |ps| && ps[i].id != selfID ==> Lower(low, ps[i].name) != Lower(low, name))
            && (name == desired <==> Lower(low, desired) !in taken)
            && (name != desired ==> exists n: nat ::
                  && 2 <= n <= 2 + |taken| && name == Numbered(desired, n)
                  && forall m: nat :: 2 <= m < n ==> Lower(low, Numbered(desired, m)) in taken)
  {
    var name := Disambiguated(low, ps, desired, selfID);
    forall i | 0 <= i < |ps| && ps[i].id != selfID ensures Lower(low, ps[i].name) != Lower(low, name) {
      assert Lower(low, ps[i].name) in Taken(low, ps, selfID);
    }
  }

  // ---- lookups ----

  /** The first profile with this id. */
  function Find(ps: seq<Profile>, id: string): (r: Option<nat>)
    ensures r.Some? ==> r.value < |ps| && ps[r.value].id == id
    ensures r.Some? <==> exists i :: 0 <= i < |ps| && ps[i].id == id
  {
    FindFrom(ps, id, 0)
  }

  function FindFrom(ps: seq<Profile>, id: string, from: nat): (r: Option<nat>)
    requires from <= |ps|
    ensures r.Some? ==> from <= r.value < |ps| && ps[r.value].id == id && forall i :: from <= i < r.value ==> ps[i].id != id
    ensures r.None? ==> forall i :: from <= i < |ps| ==> ps[i].id != id
    decreases |ps| - from
  {
    if from == |ps| then None else if ps[from].id == id then Some(from) else FindFrom(ps, id, from + 1)
  }

  function DefaultProfile(c: Config): Option<Profile> {
    if c.profiles == [] then None
    else match Find(c.profiles, c.defaultID)
      case Some(i) => Some(c.profiles[i])
      case None => Some(c.profiles[0])
  }

  function ResolveProfile(c: Config, id: string): Option<Profile> {
    if id != "" && Find(c.profiles, id).Some? then Some(c.profiles[Find(c.profiles, id).value]) else DefaultProfile(c)
  }

  datatype ByName = Found(profile: Profile) | NoMatch | Ambiguous

  method ProfileByName(low: Lowering, c: Config, name: string) returns (r: ByName)
    ensures Answers(low, c, name, r)
  {
    var target := Lower(low, name);
    var at: Option<nat> := None;
    for i := 0 to |c.profiles|
      invariant at.None? ==> forall k :: 0 <= k < i ==> !Named(low, c, k, name)
      invariant at.Some? ==> at.value < i && Named(low, c, at.value, name)
      invariant at.Some? ==> forall k :: 0 <= k < i && k != at.value ==> !Named(low, c, k, name)
    {
      if Lower(low, c.profiles[i].name) != target {
        continue;
      }
      if at.Some? {
        assert Named(low, c, at.value, name) && Named(low, c, i, name);
        return Ambiguous;
      }
      at := Some(i);
    }
    r := if at.Some? then Found(c.profiles[at.value]) else NoMatch;
  }

  /** No profile fits the name, or two do, or the profile found does. */
  predicate Answers(low: Lowering, c: Config, name: string, r: ByName) {
    && (r.NoMatch? <==> forall i :: 0 <= i < |c.profiles| ==> !Named(low, c, i, name))
    && (r.Ambiguous? <==>
        exists i, j :: 0 <= i < j < |c.profiles| && Named(low, c, i, name) && Named(low, c, j, name))
    && (r.Found? ==> exists i :: 0 <= i < |c.profiles| && c.profiles[i] == r.profile && Named(low, c, i, name))
  }

  predicate Named(low: Lowering, c: Config, i: nat, name: string)
    requires i < |c.profiles|
  {
    Lower(low, c.profiles[i].name) == Lower(low, name)
  }

  // ---- invariants ----

  predicate Usable(c: Config) {
    c.profiles != [] && Find(c.profiles, c.defaultID).Some?
  }

  predicate NamesApart(low: Lowering, ps: seq<Profile>) {
    forall i, j :: 0 <= i < j < |ps| ==> Lower(low, ps[i].name) != Lower(low, ps[j].name)
  }

  predicate Distinct(low: Lowering, ps: seq<Profile>) {
    && (forall i :: 0 <= i < |ps| ==> ps[i].id != "")
    && (forall i, j :: 0 <= i < j < |ps| ==> ps[i].id != ps[j].id)
    && NamesApart(low, ps)
  }

  predicate Sound(low: Lowering, c: Config) {
    Usable(c) && Distinct(low, c.profiles)
  }

  lemma NamedOnce(low: Lowering, c: Config, i: nat, name: string, r: ByName)
    requires NamesApart(low, c.profiles) && i < |c.profiles| && Named(low, c, i, name) && Answers(low, c, name, r)
    ensures r == Found(c.profiles[i])
  {
    forall j, k | 0 <= j < k < |c.profiles| ensures !(Named(low, c, j, name) && Named(low, c, k, name)) {
      assert Lower(low, c.profiles[j].name) != Lower(low, c.profiles[k].name);
    }
  }

  /** Looking up its own name, in any case, finds every profile exactly if the names are distinct in lower case; on a
      sound list, then, no lookup is ambiguous. */
  lemma NamesResolve(low: Lowering, c: Config)
    ensures (forall i: nat, name, r :: i < |c.profiles| && Named(low, c, i, name) && Answers(low, c, name, r) ==>
               r == Found(c.profiles[i])) <==> NamesApart(low, c.profiles)
  {
    if NamesApart(low, c.profiles) {
      forall i: nat, name, r | i < |c.profiles| && Named(low, c, i, name) && Answers(low, c, name, r)
        ensures r == Found(c.profiles[i])
      {
        NamedOnce(low, c, i, name, r);
      }
    } else {
      var i: nat, j: nat :| i < j < |c.profiles| && Lower(low, c.profiles[i].name) == Lower(low, c.profiles[j].name);
      var name := c.profiles[i].name;
      assert Named(low, c, i, name) && Named(low, c, j, name);
      assert Answers(low, c, name, Ambiguous);
    }
  }

  ghost predicate NewToAll(low: Lowering, ps: seq<Profile>, name: string) {
    forall i :: 0 <= i < |ps| ==> Lower(low, ps[i].name) != Lower(low, name)
  }

  /** Creating passes the empty id for "nobody": among distinct names it never hands out a clashing one exactly when no
      profile of a hand-edited file has an empty id. */
  lemma CreateClashesIff(low: Lowering, ps: seq<Profile>)
    requires NamesApart(low, ps)
    ensures (forall desired :: NewToAll(low, ps, Disambiguated(low, ps, desired, ""))) <==>
            (forall i :: 0 <= i < |ps| ==> ps[i].id != "")
  {
    if i :| 0 <= i < |ps| && ps[i].id == "" {
      var name := ps[i].name;
      forall k | 0 <= k < |ps| && ps[k].id != "" ensures Lower(low, ps[k].name) != Lower(low, name) {
        assert k < i || i < k;
      }
      assert Disambiguated(low, ps, name, "") == name;
      assert !NewToAll(low, ps, name);
    } else {
      forall desired ensures NewToAll(low, ps, Disambiguated(low, ps, desired, "")) {
        NameIsFreeAndSmallest(low, ps, desired, "");
      }
    }
  }

  /** An unknown or empty id resolves to the default profile, and a known one to itself. */
  lemma ResolveTotal(c: Config, id: string)
    requires Usable(c)
    ensures ResolveProfile(c, id).Some?
    ensures DefaultProfile(c).Some? && DefaultProfile(c).value.id == c.defaultID
    ensures var p := ResolveProfile(c, id).value;
            p.id == if id != "" && Find(c.profiles, id).Some? then id else c.defaultID
  {
  }

  // ---- loading ----

  /** The llm block of the file, in either shape; a missing field is None or empty. */
  datatype Block = Block(
    defaultID: string, profiles: seq<Profile>, side: string, local: Option<string>, vertex: Option<string>)

  /** minted is the id a synthesised profile would get; zero is an empty backend block. */
  function Unmarshalled(c: Config, b: Block, minted: string, zero: string): Config {
    if b.profiles != [] then Config(b.defaultID, b.profiles)
    else if b.local.None? && b.vertex.None? && b.side == "" then c
    else
      Config(minted, [Profile(
        minted, DEFAULT_PROFILE_NAME, if b.side == "" then BACKEND_LOCAL else b.side,
        if b.local.Some? then b.local.value else zero, if b.vertex.Some? then b.vertex.value else zero)])
  }

  function Repaired(c: Config, canonical: Config): Config {
    if c.profiles == [] then canonical
    else if Find(c.profiles, c.defaultID).None? then c.(defaultID := c.profiles[0].id)
    else c
  }

  function Inherited(c: Config, fill: string -> string): Config {
    c.(profiles := seq(|c.profiles|, (i: nat) requires i < |c.profiles| =>
         c.profiles[i].(local := fill(c.profiles[i].local), vertex := fill(c.profiles[i].vertex))))
  }

  /** What a load makes of the file. */
  function LoadedFrom(c: Config, b: Block, minted: string, zero: string, canonical: Config, fill: string -> string): Config {
    Inherited(Repaired(Unmarshalled(c, b, minted, zero), canonical), fill)
  }

  /** Whatever the file holds, a loaded config has a profile and its default resolves. */
  lemma LoadIsUsable(c: Config, b: Block, minted: string, zero: string, canonical: Config, fill: string -> string)
    requires Usable(canonical)
    ensures Usable(LoadedFrom(c, b, minted, zero, canonical, fill))
  {
    var read := Unmarshalled(c, b, minted, zero);
    var r := Repaired(read, canonical);
    var done := Inherited(r, fill);
    assert read.profiles != [] && r != read ==> r.profiles[0].id == r.defaultID;
    var i := Find(r.profiles, r.defaultID);
    assert done.profiles[i.value].id == done.defaultID;
  }

  lemma LoadKeepsNames(low: Lowering, c: Config, canonical: Config, fill: string -> string)
    requires Distinct(low, c.profiles) && Sound(low, canonical)
    ensures Sound(low, Inherited(Repaired(c, canonical), fill))
  {
    var r := Repaired(c, canonical);
    var done := Inherited(r, fill);
    assert Distinct(low, r.profiles) && Usable(r) by {
      if c.profiles != [] && Find(c.profiles, c.defaultID).None? {
        assert r.profiles[0].id == r.defaultID;
      }
    }
    forall i | 0 <= i < |done.profiles| ensures done.profiles[i].id == r.profiles[i].id && done.profiles[i].name == r.profiles[i].name {
    }
    assert done.profiles[Find(r.profiles, r.defaultID).value].id == done.defaultID;
  }

  /** Profiles of the file are loaded one by one, each as it stands but for what it inherits, and the default of the file
      holds if it is among them, else the first; a block of the old shape becomes the one profile, with its side and
      settings. */
  lemma LoadTells(c: Config, b: Block, minted: string, zero: string, canonical: Config, fill: string -> string)
    ensures var r := LoadedFrom(c, b, minted, zero, canonical, fill);
            && (b.profiles != [] ==>
                  && |r.profiles| == |b.profiles|
                  && (forall i :: 0 <= i < |b.profiles| ==>
                        var p := b.profiles[i];
                        r.profiles[i] == p.(local := fill(p.local), vertex := fill(p.vertex)))
                  && r.defaultID == if exists i :: 0 <= i < |b.profiles| && b.profiles[i].id == b.defaultID
                                    then b.defaultID else b.profiles[0].id)
            && (b.profiles == [] && (b.local.Some? || b.vertex.Some? || b.side != "") ==>
                  && |r.profiles| == 1 && r.defaultID == minted == r.profiles[0].id && r.profiles[0].name == "Default"
                  && (b.side != "" ==> r.profiles[0].side == b.side)
                  && (b.local.Some? ==> r.profiles[0].local == fill(b.local.value))
                  && (b.vertex.Some? ==> r.profiles[0].vertex == fill(b.vertex.value)))
  {
    if b.profiles == [] && (b.local.Some? || b.vertex.Some? || b.side != "") {
      var read := Unmarshalled(c, b, minted, zero);
      assert read.profiles[0].id == read.defaultID;
    }
  }

  // ---- edits ----

  datatype Outcome = Done(id: string) | NotFound | Refused | SaveFailed

  /** How the world answers an edit: whether the save went through, the id it mints, and what reading the file back gives. */
  datatype World = World(saves: bool, minted: string, reload: Option<Config>)

  datatype Edit =
    | CreateEdit(name: string, side: string, cloneFrom: string)
    | UpdateEdit(id: string, name: string, side: string, local: string, vertex: string)
    | DeleteEdit(id: string)
    | DefaultEdit(id: string)

  ghost function Edited(low: Lowering, c: Config, e: Edit, w: World): (Config, Outcome) {
    match e
    case CreateEdit(name, side, cloneFrom) =>
      var requested := if name == "" then "New Profile" else name;
      var src := ResolveProfile(c, cloneFrom);
      if cloneFrom != "" && (src.None? || src.value.id != cloneFrom) then (c, NotFound)
      else if !w.saves then (c, SaveFailed)
      else
        var made := Profile(w.minted, Disambiguated(low, c.profiles, requested, ""), side,
                            if cloneFrom == "" then "" else src.value.local, if cloneFrom == "" then "" else src.value.vertex);
        (c.(profiles := c.profiles + [made]), Done(w.minted))
    case UpdateEdit(id, name, side, local, vertex) =>
      (match Find(c.profiles, id)
       case None => (c, NotFound)
       case Some(i) =>
         var requested := if name == "" then c.profiles[i].name else name;
         if !w.saves then (c, SaveFailed)
         else (c.(profiles := c.profiles[i := Profile(id, Disambiguated(low, c.profiles, requested, id), side, local, vertex)]), Done(id)))
    case DeleteEdit(id) =>
      if id == c.defaultID then (c, Refused)
      else (match Find(c.profiles, id)
            case None => (c, NotFound)
            case Some(i) =>
              var without := c.(profiles := c.profiles[..i] + c.profiles[i + 1..]);
              if w.saves then (without, Done(id))
              else (if w.reload.Some? then w.reload.value else without, SaveFailed))
    case DefaultEdit(id) =>
      if Find(c.profiles, id).None? then (c, NotFound)
      else if c.defaultID == id then (c, Done(id))
      else if w.saves then (c.(defaultID := id), Done(id))
      else (c, SaveFailed)
  }

  class Bindings {
    const low: Lowering
    var llm: Config

    constructor (low: Lowering, llm: Config)
      ensures this.low == low && this.llm == llm
    {
      this.low, this.llm := low, llm;
    }

    method CreateProfile(name: string, side: string, cloneFrom: string, w: World) returns (o: Outcome)
      modifies this`llm
      ensures (llm, o) == Edited(low, old(llm), CreateEdit(name, side, cloneFrom), w)
    {
      var requested := if name == "" then "New Profile" else name;
      var adjusted := DisambiguateName(low, llm.profiles, requested, "");
      var made := Profile(w.minted, adjusted, side, "", "");
      if cloneFrom != "" {
        var src := ResolveProfile(llm, cloneFrom);
        if src.None? || src.value.id != cloneFrom {
          return NotFound;
        }
        made := made.(local := src.value.local, vertex := src.value.vertex);
      }
      llm := llm.(profiles := llm.profiles + [made]);
      if !w.saves {
        llm := llm.(profiles := llm.profiles[..|llm.profiles| - 1]);
        return SaveFailed;
      }
      o := Done(made.id);
    }

    method UpdateProfile(id: string, name: string, side: string, local: string, vertex: string, w: World) returns (o: Outcome)
      modifies this`llm
      ensures (llm, o) == Edited(low, old(llm), UpdateEdit(id, name, side, local, vertex), w)
    {
      var at := Find(llm.profiles, id);
      if at.None? {
        return NotFound;
      }
      var i := at.value;
      var prev := llm.profiles[i];
      var requested := if name == "" then prev.name else name;
      var adjusted := DisambiguateName(low, llm.profiles, requested, id);
      llm := llm.(profiles := llm.profiles[i := prev.(name := adjusted, side := side, local := local, vertex := vertex)]);
      if !w.saves {
        llm := llm.(profiles := llm.profiles[i := prev]);
        assert llm.profiles == old(llm).profiles;
        return SaveFailed;
      }
      o := Done(id);
    }

    method DeleteProfile(id: string, w: World) returns (o: Outcome)
      modifies this`llm
      ensures (llm, o) == Edited(low, old(llm), DeleteEdit(id), w)
    {
      if id == llm.defaultID {
        return Refused;
      }
      var at := Find(llm.profiles, id);
      if at.None? {
        return NotFound;
      }
      llm := llm.(profiles := llm.profiles[..at.value] + llm.profiles[at.value + 1..]);
      if !w.saves {
        if w.reload.Some? {
          llm := w.reload.value;
        }
        return SaveFailed;
      }
      o := Done(id);
    }

    method SetDefaultProfile(id: string, w: World) returns (o: Outcome)
      modifies this`llm
      ensures (llm, o) == Edited(low, old(llm), DefaultEdit(id), w)
    {
      if Find(llm.profiles, id).None? {
        return NotFound;
      }
      if llm.defaultID == id {
        return Done(id);
      }
      var prev := llm.defaultID;
      llm := llm.(defaultID := id);
      if !w.saves {
        llm := llm.(defaultID := prev);
        return SaveFailed;
      }
      o := Done(id);
    }
  }

  /** The profile an id means is the first that carries it. */
  predicate Means(ps: seq<Profile>, id: string, i: nat) {
    i < |ps| && ps[i].id == id && forall k :: 0 <= k < i ==> ps[k].id != id
  }

  /** Free among the others, and the one asked for if that is free. */
  ghost predicate NameFor(low: Lowering, ps: seq<Profile>, asked: string, selfID: string, name: string) {
    && (forall i :: 0 <= i < |ps| && ps[i].id != selfID ==> Lower(low, ps[i].name) != Lower(low, name))
    && ((forall i :: 0 <= i < |ps| && ps[i].id != selfID ==> Lower(low, ps[i].name) != Lower(low, asked)) ==> name == asked)
  }

  /** What a successful edit leaves behind, profile by profile. */
  ghost predicate Settled(low: Lowering, c: Config, e: Edit, minted: string, after: Config) {
    match e
    case CreateEdit(name, side, cloneFrom) =>
      && after.defaultID == c.defaultID && |after.profiles| == |c.profiles| + 1 && c.profiles <= after.profiles
      && var made := after.profiles[|c.profiles|];
         && made.id == minted && made.side == side
         && NameFor(low, c.profiles, if name == "" then "New Profile" else name, "", made.name)
         && (cloneFrom == "" ==> made.local == "" && made.vertex == "")
         && (cloneFrom != "" ==> exists i: nat ::
               Means(c.profiles, cloneFrom, i) && made.local == c.profiles[i].local && made.vertex == c.profiles[i].vertex)
    case UpdateEdit(id, name, side, local, vertex) =>
      && after.defaultID == c.defaultID && |after.profiles| == |c.profiles|
      && exists i: nat ::
           && Means(c.profiles, id, i) && after.profiles[i] == Profile(id, after.profiles[i].name, side, local, vertex)
           && NameFor(low, c.profiles, if name == "" then c.profiles[i].name else name, id, after.profiles[i].name)
           && forall k :: 0 <= k < |c.profiles| && k != i ==> after.profiles[k] == c.profiles[k]
    case DeleteEdit(id) =>
      && after.defaultID == c.defaultID && |after.profiles| == |c.profiles| - 1
      && exists i: nat ::
           && Means(c.profiles, id, i)
           && forall k :: 0 <= k < |after.profiles| ==> after.profiles[k] == c.profiles[if k < i then k else k + 1]
    case DefaultEdit(id) => after == Config(id, c.profiles)
  }

  /** An edit succeeds exactly if what it names is there, it does not delete the default, and the save it needs goes
      through; making the default the default needs none. */
  predicate Succeeds(c: Config, e: Edit, saves: bool) {
    match e
    case CreateEdit(_, _, cloneFrom) => saves && (cloneFrom == "" || IsThere(c.profiles, cloneFrom))
    case UpdateEdit(id, _, _, _, _) => saves && IsThere(c.profiles, id)
    case DeleteEdit(id) => saves && id != c.defaultID && IsThere(c.profiles, id)
    case DefaultEdit(id) => (saves || id == c.defaultID) && IsThere(c.profiles, id)
  }

  predicate IsThere(ps: seq<Profile>, id: string) {
    exists i :: 0 <= i < |ps| && ps[i].id == id
  }

  lemma FindMeans(ps: seq<Profile>, id: string)
    ensures Find(ps, id).Some? ==> Means(ps, id, Find(ps, id).value)
  {
  }

  lemma NameIsFor(low: Lowering, ps: seq<Profile>, asked: string, selfID: string)
    ensures NameFor(low, ps, asked, selfID, Disambiguated(low, ps, asked, selfID))
  {
    NameIsFreeAndSmallest(low, ps, asked, selfID);
  }

  /** When an edit succeeds, and what it then does: the created profile takes over the settings of the one it clones, an
      update and a delete touch only the profile they name, a change of the default nothing else. */
  lemma EditSettles(low: Lowering, c: Config, e: Edit, w: World)
    ensures Edited(low, c, e, w).1.Done? <==> Succeeds(c, e, w.saves)
    ensures Edited(low, c, e, w).1.Done? ==> Settled(low, c, e, w.minted, Edited(low, c, e, w).0)
  {
    match e
    case CreateEdit(name, side, cloneFrom) =>
      FindMeans(c.profiles, cloneFrom);
      FindMeans(c.profiles, c.defaultID);
      NameIsFor(low, c.profiles, if name == "" then "New Profile" else name, "");
    case UpdateEdit(id, name, side, local, vertex) =>
      FindMeans(c.profiles, id);
      if Find(c.profiles, id).Some? {
        NameIsFor(low, c.profiles, if name == "" then c.profiles[Find(c.profiles, id).value].name else name, id);
      }
    case DeleteEdit(id) => FindMeans(c.profiles, id);
    case DefaultEdit(id) =>
  }

  /** An edit that reports a failure leaves the list as it was, except a delete whose save fails: that one leaves what
      the file holds, or, when the file cannot be read back either, the list without the profile. */
  lemma FailuresRollBack(low: Lowering, c: Config, e: Edit, w: World)
    requires !Edited(low, c, e, w).1.Done?
    ensures var after := Edited(low, c, e, w).0;
            || after == c
            || (e.DeleteEdit? && !w.saves && Find(c.profiles, e.id).Some? && e.id != c.defaultID
                && var i := Find(c.profiles, e.id).value;
                   after == if w.reload.Some? then w.reload.value else c.(profiles := c.profiles[..i] + c.profiles[i + 1..]))
  {
  }

  lemma DropKeepsDefault(c: Config, i: nat)
    requires Usable(c) && i < |c.profiles| && c.profiles[i].id != c.defaultID
    ensures Usable(c.(profiles := c.profiles[..i] + c.profiles[i + 1..]))
  {
    var k := Find(c.profiles, c.defaultID).value;
    var rest := c.profiles[..i] + c.profiles[i + 1..];
    assert rest[if k < i then k else k - 1] == c.profiles[k];
  }

  lemma UpdateKeepsDefault(c: Config, i: nat, p: Profile)
    requires Usable(c) && i < |c.profiles| && p.id == c.profiles[i].id
    ensures Usable(c.(profiles := c.profiles[i := p]))
  {
    var k := Find(c.profiles, c.defaultID).value;
    assert c.profiles[i := p][k].id == c.defaultID;
  }

  lemma AppendKeepsDefault(c: Config, p: Profile)
    requires Usable(c)
    ensures Usable(c.(profiles := c.profiles + [p]))
  {
    var k := Find(c.profiles, c.defaultID).value;
    assert (c.profiles + [p])[k].id == c.defaultID;
  }

  /** No edit, successful or not, leaves the list empty or the default dangling. */
  lemma EditsStayUsable(low: Lowering, c: Config, e: Edit, w: World)
    requires Usable(c) && (w.reload.Some? ==> Usable(w.reload.value))
    ensures Usable(Edited(low, c, e, w).0)
  {
    var after := Edited(low, c, e, w).0;
    match e
    case CreateEdit(name, side, cloneFrom) =>
      if after != c {
        AppendKeepsDefault(c, after.profiles[|after.profiles| - 1]);
      }
    case UpdateEdit(id, name, side, local, vertex) =>
      if after != c {
        var i := Find(c.profiles, id).value;
        UpdateKeepsDefault(c, i, after.profiles[i]);
      }
    case DeleteEdit(id) =>
      if id != c.defaultID && Find(c.profiles, id).Some? {
        DropKeepsDefault(c, Find(c.profiles, id).value);
      }
    case DefaultEdit(id) =>
  }

  lemma AppendKeepsDistinct(low: Lowering, ps: seq<Profile>, p: Profile)
    requires Distinct(low, ps) && p.id != "" && forall i :: 0 <= i < |ps| ==> ps[i].id != p.id
    requires forall i :: 0 <= i < |ps| ==> Lower(low, ps[i].name) != Lower(low, p.name)
    ensures Distinct(low, ps + [p])
  {
  }

  lemma UpdateKeepsDistinct(low: Lowering, ps: seq<Profile>, i: nat, p: Profile)
    requires Distinct(low, ps) && i < |ps| && p.id == ps[i].id
    requires forall k :: 0 <= k < |ps| && ps[k].id != p.id ==> Lower(low, ps[k].name) != Lower(low, p.name)
    ensures Distinct(low, ps[i := p])
  {
    var after := ps[i := p];
    forall j, k | 0 <= j < k < |after|
      ensures after[j].id != after[k].id && Lower(low, after[j].name) != Lower(low, after[k].name)
    {
      assert ps[j].id != ps[k].id && Lower(low, ps[j].name) != Lower(low, ps[k].name);
    }
  }

  lemma DropKeepsDistinct(low: Lowering, ps: seq<Profile>, i: nat)
    requires Distinct(low, ps) && i < |ps|
    ensures Distinct(low, ps[..i] + ps[i + 1..])
  {
    var rest := ps[..i] + ps[i + 1..];
    forall k | 0 <= k < |rest| ensures rest[k] == ps[if k < i then k else k + 1] {
    }
  }

  /** Edits keep ids and names distinct, ignoring case, provided minted ids are new. */
  lemma EditsStayDistinct(low: Lowering, c: Config, e: Edit, w: World)
    requires Distinct(low, c.profiles) && (w.reload.Some? ==> Distinct(low, w.reload.value.profiles))
    requires w.minted != "" && Find(c.profiles, w.minted).None?
    ensures Distinct(low, Edited(low, c, e, w).0.profiles)
  {
    var after := Edited(low, c, e, w).0;
    match e
    case CreateEdit(name, side, cloneFrom) =>
      NameIsFreeAndSmallest(low, c.profiles, if name == "" then "New Profile" else name, "");
      if after != c {
        AppendKeepsDistinct(low, c.profiles, after.profiles[|c.profiles|]);
      }
    case UpdateEdit(id, name, side, local, vertex) =>
      if after != c {
        var i := Find(c.profiles, id).value;
        NameIsFreeAndSmallest(low, c.profiles, if name == "" then c.profiles[i].name else name, id);
        UpdateKeepsDistinct(low, c.profiles, i, after.profiles[i]);
      }
    case DeleteEdit(id) =>
      if id != c.defaultID && Find(c.profiles, id).Some? {
        DropKeepsDistinct(low, c.profiles, Find(c.profiles, id).value);
      }
    case DefaultEdit(id) =>
  }

  /** The config file. Save overwrites it in place, so a failed save may also leave it written, or torn. */
  datatype File = Absent | Holds(config: Config) | Torn
  datatype Saving = Saves | FailsBefore | FailsAfter | FailsWithin

  datatype Attempt = Attempt(edit: Edit, saving: Saving, minted: string)

  datatype Pair = Pair(memory: Config, disk: File)

  /** What Load gives; the file was saved by the program, so it is in the new shape. */
  function Loaded(f: File, canonical: Config, fill: string -> string): Option<Config> {
    match f
    case Absent => Some(canonical)
    case Holds(c) => Some(Inherited(Repaired(c, canonical), fill))
    case Torn => None
  }

  ghost predicate CallsSave(low: Lowering, c: Config, e: Edit) {
    Edited(low, c, e, World(true, "", None)).1.Done? && !(e.DefaultEdit? && e.id == c.defaultID)
  }

  ghost function FileAfter(low: Lowering, p: Pair, a: Attempt): File {
    if !CallsSave(low, p.memory, a.edit) || a.saving.FailsBefore? then p.disk
    else if a.saving.FailsWithin? then Torn
    else Holds(Edited(low, p.memory, a.edit, World(true, a.minted, None)).0)
  }

  ghost function After(low: Lowering, p: Pair, a: Attempt, canonical: Config, fill: string -> string): Pair {
    var disk := FileAfter(low, p, a);
    Pair(Edited(low, p.memory, a.edit, World(a.saving.Saves?, a.minted, Loaded(disk, canonical, fill))).0, disk)
  }

  ghost function Run(low: Lowering, p: Pair, steps: seq<Attempt>, canonical: Config, fill: string -> string): Pair {
    if steps == [] then p
    else After(low, Run(low, p, steps[..|steps| - 1], canonical, fill), steps[|steps| - 1], canonical, fill)
  }

  ghost predicate Minted(p: Pair, a: Attempt) {
    a.minted != "" && Find(p.memory.profiles, a.minted).None?
  }

  predicate SoundPair(low: Lowering, p: Pair) {
    Sound(low, p.memory) && (p.disk.Holds? ==> Sound(low, p.disk.config))
  }

  lemma AttemptStaysSound(low: Lowering, p: Pair, a: Attempt, canonical: Config, fill: string -> string)
    requires SoundPair(low, p) && Sound(low, canonical) && Minted(p, a)
    ensures SoundPair(low, After(low, p, a, canonical, fill))
  {
    EditsStayUsable(low, p.memory, a.edit, World(true, a.minted, None));
    EditsStayDistinct(low, p.memory, a.edit, World(true, a.minted, None));
    var disk := FileAfter(low, p, a);
    if disk.Holds? {
      LoadKeepsNames(low, disk.config, canonical, fill);
    }
    var w := World(a.saving.Saves?, a.minted, Loaded(disk, canonical, fill));
    EditsStayUsable(low, p.memory, a.edit, w);
    EditsStayDistinct(low, p.memory, a.edit, w);
  }

  /** Over any run of edits, saves and failed saves: the list is never empty, its default resolves, and no two profiles
      share an id or, ignoring case, a name. */
  lemma {:induction false} RunStaysSound(low: Lowering, p: Pair, steps: seq<Attempt>, canonical: Config, fill: string -> string)
    requires SoundPair(low, p) && Sound(low, canonical)
    requires forall k :: 0 <= k < |steps| ==> Minted(Run(low, p, steps[..k], canonical, fill), steps[k])
    ensures SoundPair(low, Run(low, p, steps, canonical, fill))
  {
    if steps != [] {
      var n := |steps| - 1;
      forall k | 0 <= k < n ensures Minted(Run(low, p, steps[..n][..k], canonical, fill), steps[..n][k]) {
        assert steps[..n][..k] == steps[..k];
      }
      RunStaysSound(low, p, steps[..n], canonical, fill);
      AttemptStaysSound(low, Run(low, p, steps[..n], canonical, fill), steps[n], canonical, fill);
    }
  }
}
