/** The nonce that fences untrusted record content: kept for as long as it has not leaked. */
module GuardTag {
  import opened ContextBuild
  import opened ContextGuarantees
  import opened Options
  import opened Records
  import opened Sequences
  import opened SummaryCache
  import opened Text
  import F = Filtering

  predicate Untrusted(r: Record) {
    r.role.User? || r.role.Tool?
  }

  /** The name, fenced or bare, stands in the content. */
  predicate Leaks(name: string, content: string) {
    Contains(content, "</" + name + ">") || Contains(content, "<" + name + ">") || Contains(content, name)
  }

  predicate Absent(name: string, rs: seq<Record>) {
    forall i :: 0 <= i < |rs| && Untrusted(rs[i]) ==> !Contains(rs[i].content, name)
  }

  lemma InsideFence(s: string, left: string, name: string, right: string)
    requires Contains(s, left + name + right)
    ensures Contains(s, name)
  {
    var i := Index(s, left + name + right, 0).value;
    var fence := left + name + right;
    IndexIsFirst(s, fence, 0);
    Parts(left, name, right);
    Within(s, i, i + |fence|, |left|, |left| + |name|);
    Shown(s, name, i + |left|);
  }

  /** Looking for the two tags adds nothing to looking for the bare name. */
  lemma LeaksIsContains(name: string, content: string)
    ensures Leaks(name, content) == Contains(content, name)
  {
    if Contains(content, "</" + name + ">") {
      InsideFence(content, "</", name, ">");
    }
    if Contains(content, "<" + name + ">") {
      InsideFence(content, "<", name, ">");
    }
  }

  /** The tag in force after PrepareWrap; minted is what minting a tag would yield. */
  function Prepared(name: string, session: Option<seq<Record>>, minted: string): string {
    if name == "" then minted
    else if session.Some? && !Absent(name, session.value) then minted
    else name
  }

  class Engine {
    var guardTag: string

    constructor (minted: string)
      ensures guardTag == minted
    {
      guardTag := minted;
    }

    method PrepareWrap(session: Option<seq<Record>>, minted: string)
      modifies this
      ensures guardTag == Prepared(old(guardTag), session, minted)
    {
      if guardTag == "" {
        guardTag := minted;
        return;
      }
      if session.None? {
        return;
      }
      var name, rs := guardTag, session.value;
      for i := 0 to |rs|
        invariant guardTag == name && Absent(name, rs[..i])
      {
        assert rs[..i + 1] == rs[..i] + [rs[i]];
        if !(rs[i].role.User? || rs[i].role.Tool?) {
          continue;
        }
        LeaksIsContains(name, rs[i].content);
        if Leaks(name, rs[i].content) {
          guardTag := minted;
          return;
        }
      }
      assert rs[..|rs|] == rs;
    }

    method ResetGuardTag()
      modifies this
      ensures guardTag == ""
    {
      guardTag := "";
    }
  }

  /** The tag that comes out stands in no content it will fence, except when it is a newly minted one that does. */
  lemma PreparedIsAbsent(name: string, rs: seq<Record>, minted: string)
    ensures Absent(Prepared(name, Some(rs), minted), rs) <==> (name != "" && Absent(name, rs)) || Absent(minted, rs)
    ensures name != "" && Absent(name, rs) ==> Prepared(name, Some(rs), minted) == name
    ensures name != "" ==> Prepared(name, None, minted) == name
    ensures Prepared("", None, minted) == minted
  {
  }

  /** The records searched for the tag are exactly those whose text is put inside it: where no text can be wrapped, they
      are the ones that cannot be rendered. */
  lemma SearchedIffWrapped(h: Hooks, o: Settings, rs: seq<Record>, i: nat)
    requires i < |rs| && h.wrap.Some? && forall s :: h.wrap.value(s).None?
    ensures Rendered(h, o, rs, i).None? <==> Untrusted(rs[i])
  {
    var cut := if rs[i].role.Tool? then Truncated(h, rs[i].content, o.maxTool) else rs[i].content;
    assert h.wrap.value(cut).None?;
  }

  function Fenced(h: Hooks, wrap: (string, string) -> Option<string>, name: string): Hooks {
    h.(wrap := Some((s: string) => wrap(name, s)))
  }

  lemma AbsentEarlier(name: string, rs: seq<Record>, more: seq<Record>)
    requires Absent(name, rs + more)
    ensures Absent(name, rs)
  {
    forall i | 0 <= i < |rs| && Untrusted(rs[i]) ensures !Contains(rs[i].content, name) {
      assert rs[i] == (rs + more)[i];
    }
  }

  /** Two turns of one session, each preparing its tag and then building: while the name has not leaked into
      any user or tool record and everything fits, the later request starts with the earlier one. */
  lemma TurnsShareAPrefix(h: Hooks, wrap: (string, string) -> Option<string>, name: string, minted: string, laterMint: string,
                          settings: Settings, records: seq<Record>, more: seq<Record>,
                          store: Option<Store>, now: int, laterStore: Option<Store>, laterNow: int)
    requires name != "" && Absent(name, records + more)
    requires forall i :: 0 <= i < |more| ==> !IsLegacy(more[i])
    requires EverythingFits(Fenced(h, wrap, name), Resolved(settings), records + more)
    ensures var tag := Prepared(name, Some(records), minted);
            var laterTag := Prepared(tag, Some(records + more), laterMint);
            var earlier := Built(Fenced(h, wrap, tag), settings, records, store, now).result;
            var later := Built(Fenced(h, wrap, laterTag), settings, records + more, laterStore, laterNow).result;
            tag == laterTag == name && earlier.Some? && later.Some? && earlier.value.messages <= later.value.messages
  {
    AbsentEarlier(name, records, more);
    PrefixStable(Fenced(h, wrap, name), settings, records, more, store, now, laterStore, laterNow);
  }
}
