/** Turning object links into self-contained ones when a conversation is exported. */
module ExportLinks {
  import opened Options
  import opened Text

  const OPEN := "(object:"
  const MISSING := "(missing-object:"

  /** What the object store knows of an id: nothing, an object that is no image, or an image and the data URL it loads
      as (empty when loading fails). */
  datatype Object = Unknown | Other | Image(dataURL: string)

  /** A stretch of text, or a link to an object. */
  datatype Piece = Plain(text: string) | Link(id: string)

  function Written(ps: seq<Piece>): string {
    if ps == [] then ""
    else (match ps[0] case Plain(text) => text case Link(id) => OPEN + id + ")") + Written(ps[1..])
  }

  /** What a link becomes: images turn into data URLs, unknown ids are marked, anything else stays. */
  function Resolved(lookup: string -> Object, id: string): string {
    match lookup(id)
    case Unknown => MISSING + id + ")"
    case Other => OPEN + id + ")"
    case Image(url) => if url == "" then OPEN + id + ")" else "(" + url + ")"
  }

  function Rendered(lookup: string -> Object, ps: seq<Piece>): string {
    if ps == [] then ""
    else (match ps[0] case Plain(text) => text case Link(id) => Resolved(lookup, id)) + Rendered(lookup, ps[1..])
  }

  /** Where the first link of s opens and closes. */
  function FirstLink(s: string): (r: Option<(nat, nat)>)
    ensures r.Some? ==> r.value.0 + |OPEN| <= r.value.1 < |s|
  {
    match Index(s, OPEN, 0)
    case None => None
    case Some(i) =>
      match Index(s, ")", i)
      case None => None
      case Some(e) =>
        IndexIsFirst(s, OPEN, 0);
        ClosesAt(s, i, e);
        Some((i, e))
  }

  lemma CharAt(s: string, k: nat)
    requires k < |s|
    ensures At(s, ")", k) <==> s[k] == ')'
  {
    assert s[k..k + 1] == [s[k]];
  }

  lemma NoClose(s: string, i: nat)
    requires Index(s, OPEN, 0) == Some(i) && Index(s, ")", i).None?
    ensures forall j, e :: 0 <= j && At(s, OPEN, j) && j <= e < |s| ==> s[e] != ')'
  {
    IndexIsFirst(s, OPEN, 0);
    IndexIsFirst(s, ")", i);
    forall j, e | 0 <= j && At(s, OPEN, j) && j <= e < |s| ensures s[e] != ')' {
      CharAt(s, e);
    }
  }

  lemma ClosesAt(s: string, i: nat, e: nat)
    requires At(s, OPEN, i) && Index(s, ")", i) == Some(e)
    ensures i + |OPEN| <= e < |s| && s[e] == ')'
    ensures forall k :: i <= k < e ==> s[k] != ')'
  {
    IndexIsFirst(s, ")", i);
    CharAt(s, e);
    forall k | i <= k < e ensures s[k] != ')' {
      CharAt(s, k);
    }
    forall k | i <= k < i + |OPEN| ensures s[k] != ')' {
      assert s[k] == s[i..i + |OPEN|][k - i] == OPEN[k - i];
    }
  }

  /** The first link opens at the first opening tag and closes at the first bracket behind it; without one, no
      opening tag has a closing bracket behind it. */
  lemma FirstLinkIsFirst(s: string)
    ensures match FirstLink(s)
            case Some((i, e)) =>
              && At(s, OPEN, i) && (forall j :: 0 <= j < i ==> !At(s, OPEN, j))
              && s[e] == ')' && (forall k :: i <= k < e ==> s[k] != ')')
            case None => forall j, e :: 0 <= j && At(s, OPEN, j) && j <= e < |s| ==> s[e] != ')'
  {
    var opening := Index(s, OPEN, 0);
    IndexIsFirst(s, OPEN, 0);
    if opening.Some? {
      var closing := Index(s, ")", opening.value);
      if closing.Some? {
        ClosesAt(s, opening.value, closing.value);
      } else {
        NoClose(s, opening.value);
      }
    }
  }

  /** The text as the scan divides it: each link is the nearest closing bracket after the first opening tag. */
  function Pieces(s: string): seq<Piece>
    decreases |s|
  {
    match FirstLink(s)
    case None => [Plain(s)]
    case Some((i, e)) => [Plain(s[..i]), Link(s[i + |OPEN|..e])] + Pieces(s[e + 1..])
  }

  function Rewritten(lookup: string -> Object, s: string): string {
    Rendered(lookup, Pieces(s))
  }

  lemma WrittenTwo(a: string, id: string, rest: seq<Piece>)
    ensures Written([Plain(a), Link(id)] + rest) == a + (OPEN + id + ")") + Written(rest)
  {
    var ps := [Plain(a), Link(id)] + rest;
    assert ps[1..][1..] == rest;
    assert Written(ps) == a + Written(ps[1..]);
    assert Written(ps[1..]) == (OPEN + id + ")") + Written(rest);
  }

  lemma RenderedTwo(lookup: string -> Object, a: string, id: string, rest: seq<Piece>)
    ensures Rendered(lookup, [Plain(a), Link(id)] + rest) == a + Resolved(lookup, id) + Rendered(lookup, rest)
  {
    var ps := [Plain(a), Link(id)] + rest;
    assert ps[1..][1..] == rest;
    assert Rendered(lookup, ps) == a + Rendered(lookup, ps[1..]);
    assert Rendered(lookup, ps[1..]) == Resolved(lookup, id) + Rendered(lookup, rest);
  }

  lemma CutLink(s: string, i: nat, e: nat)
    requires At(s, OPEN, i) && i + |OPEN| <= e < |s| && s[e] == ')'
    ensures s == s[..i] + (OPEN + s[i + |OPEN|..e] + ")") + s[e + 1..]
  {
    assert s[i..i + |OPEN|] == OPEN;
    assert s == s[..i] + s[i..i + |OPEN|] + s[i + |OPEN|..e] + [s[e]] + s[e + 1..];
  }

  /** The pieces are the text, no id holds a closing bracket, and no text piece hides a complete link. */
  lemma {:induction false} PiecesExact(s: string)
    ensures Written(Pieces(s)) == s
    ensures forall k :: 0 <= k < |Pieces(s)| ==>
              match Pieces(s)[k]
              case Plain(text) => FirstLink(text).None?
              case Link(id) => ')' !in id
    decreases |s|
  {
    match FirstLink(s)
    case None =>
      assert [Plain(s)][1..] == [];
    case Some((i, e)) =>
      FirstLinkIsFirst(s);
      PiecesExact(s[e + 1..]);
      WrittenTwo(s[..i], s[i + |OPEN|..e], Pieces(s[e + 1..]));
      CutLink(s, i, e);
      NoLinkBefore(s, i);
  }

  lemma NoLinkBefore(s: string, i: nat)
    requires i <= |s| && forall j :: 0 <= j < i ==> !At(s, OPEN, j)
    ensures FirstLink(s[..i]).None?
  {
    var t := s[..i];
    FirstLinkIsFirst(t);
    if FirstLink(t).Some? {
      var j := FirstLink(t).value.0;
      assert t[j..j + |OPEN|] == s[j..j + |OPEN|];
      assert At(s, OPEN, j);
    }
  }

  lemma {:induction false} NothingToDo(lookup: string -> Object, s: string)
    requires FirstLink(s).None?
    ensures Rewritten(lookup, s) == s
  {
    var ps := [Plain(s)];
    assert Pieces(s) == ps && ps[1..] == [];
    assert Rendered(lookup, ps) == s + Rendered(lookup, ps[1..]);
  }

  lemma LinkShowsTag(s: string, i: nat)
    requires At(s, OPEN, i)
    ensures Contains(s, "object:")
  {
    assert s[i + 1..i + |OPEN|] == s[i..i + |OPEN|][1..] == "object:";
    Shown(s, "object:", i + 1);
  }

  lemma NoTagNoLink(s: string)
    requires !Contains(s, "object:")
    ensures FirstLink(s).None?
  {
    FirstLinkIsFirst(s);
    if FirstLink(s).Some? {
      LinkShowsTag(s, FirstLink(s).value.0);
    }
  }

  lemma {:induction false} PiecesStep(s: string, i: nat, e: nat)
    requires FirstLink(s) == Some((i, e))
    ensures Pieces(s) == [Plain(s[..i]), Link(s[i + |OPEN|..e])] + Pieces(s[e + 1..])
  {
  }

  lemma {:induction false} RewriteStep(lookup: string -> Object, s: string, i: nat, e: nat)
    requires FirstLink(s) == Some((i, e))
    ensures Rewritten(lookup, s) == s[..i] + Resolved(lookup, s[i + |OPEN|..e]) + Rewritten(lookup, s[e + 1..])
  {
    PiecesStep(s, i, e);
    RenderedTwo(lookup, s[..i], s[i + |OPEN|..e], Pieces(s[e + 1..]));
  }

  lemma LinkText(s: string, i: nat, e: nat)
    requires FirstLink(s) == Some((i, e))
    ensures s[i..e + 1] == OPEN + s[i + |OPEN|..e] + ")"
  {
    FirstLinkIsFirst(s);
    assert s[i..i + |OPEN|] == OPEN;
    assert s[i..e + 1] == s[i..i + |OPEN|] + s[i + |OPEN|..e] + [s[e]];
  }

  /** What the first link becomes: an id nobody knows is marked as missing, an image that loads is put in its place,
      anything else stands as it stood; and the rest is rewritten alike. */
  lemma LinkBecomes(lookup: string -> Object, s: string, i: nat, e: nat) returns (link: string)
    requires FirstLink(s) == Some((i, e))
    ensures Rewritten(lookup, s) == s[..i] + link + Rewritten(lookup, s[e + 1..])
    ensures var id := s[i + |OPEN|..e];
            && (lookup(id).Unknown? ==> link == "(missing-object:" + id + ")")
            && (lookup(id).Image? && lookup(id).dataURL != "" ==> link == "(" + lookup(id).dataURL + ")")
            && (lookup(id).Other? || lookup(id) == Image("") ==> link == s[i..e + 1])
  {
    RewriteStep(lookup, s, i, e);
    LinkText(s, i, e);
    link := Resolved(lookup, s[i + |OPEN|..e]);
  }

  predicate Stays(lookup: string -> Object, p: Piece) {
    p.Link? ==> lookup(p.id).Other? || lookup(p.id) == Image("")
  }

  lemma {:induction false} RendersAsWritten(lookup: string -> Object, ps: seq<Piece>)
    requires forall k :: 0 <= k < |ps| ==> Stays(lookup, ps[k])
    ensures Rendered(lookup, ps) == Written(ps)
  {
    if ps != [] {
      assert Stays(lookup, ps[0]);
      RendersAsWritten(lookup, ps[1..]);
    }
  }

  /** A text whose links all lead to objects that are no images, or images that do not load, is exported as it is. */
  lemma OthersStay(lookup: string -> Object, s: string)
    requires forall k :: 0 <= k < |Pieces(s)| ==> Stays(lookup, Pieces(s)[k])
    ensures Rewritten(lookup, s) == s
  {
    RendersAsWritten(lookup, Pieces(s));
    PiecesExact(s);
  }

  /** One link of the buffer: what the buffer becomes and where the scan goes on. */
  method ResolveOne(lookup: string -> Object, result: string, absIdx: nat, end: nat, ghost front: string, ghost name: string)
    returns (next: string, cursor: nat)
    requires At(result, OPEN, absIdx) && absIdx + |OPEN| <= end < |result| && result[end] == ')'
    requires front == result[..absIdx] && name == result[absIdx + |OPEN|..end]
    ensures cursor <= |next| && next[cursor..] == result[end + 1..]
    ensures next[..cursor] == front + Resolved(lookup, name)
  {
    var id := result[absIdx + |OPEN|..end];
    assert result[end..] == [')'] + result[end + 1..];
    assert result[absIdx + |OPEN|..] == id + ([')'] + result[end + 1..]);
    var found := lookup(id);
    if found.Unknown? {
      next := result[..absIdx] + MISSING + result[absIdx + |OPEN|..];
      cursor := absIdx + |MISSING| + |id| + 1;
      assert next == (result[..absIdx] + (MISSING + id + [')'])) + result[end + 1..];
    } else if found.Other? || found.dataURL == "" {
      next, cursor := result, end + 1;
      assert result[absIdx..end + 1] == OPEN + id + ")";
      assert result[..end + 1] == result[..absIdx] + result[absIdx..end + 1];
    } else {
      next := result[..absIdx + 1] + found.dataURL + result[end..];
      cursor := absIdx + 1 + |found.dataURL| + 1;
      assert result[absIdx] == result[absIdx..absIdx + |OPEN|][0] == '(';
      assert result[..absIdx + 1] == result[..absIdx] + ['('];
      assert next == (result[..absIdx] + ("(" + found.dataURL + ")")) + result[end + 1..];
    }
  }

  /** What the buffer will be: the finished front as it stands, the rest rewritten. */
  function Progress(lookup: string -> Object, result: string, pos: nat): string
    requires pos <= |result|
  {
    result[..pos] + Rewritten(lookup, result[pos..])
  }

  lemma {:induction false} Starts(lookup: string -> Object, content: string)
    ensures Progress(lookup, content, 0) == Rewritten(lookup, content)
  {
    assert content[..0] == "" && content[0..] == content;
  }

  lemma {:induction false} Ends(lookup: string -> Object, result: string, pos: nat)
    requires pos <= |result| && FirstLink(result[pos..]).None?
    ensures Progress(lookup, result, pos) == result
  {
    NothingToDo(lookup, result[pos..]);
    assert result == result[..pos] + result[pos..];
  }

  /** Rewrites the buffer in place. The unscanned tail shrinks although the buffer may grow. */
  method ResolveObjectRefsForExport(lookup: string -> Object, content: string) returns (result: string)
    ensures result == Rewritten(lookup, content)
  {
    if !Contains(content, "object:") {
      NoTagNoLink(content);
      NothingToDo(lookup, content);
      return content;
    }
    result := content;
    var pos: nat := 0;
    Starts(lookup, content);
    while true
      invariant 0 <= pos <= |result|
      invariant Progress(lookup, result, pos) == Rewritten(lookup, content)
      decreases |result| - pos
    {
      var at := FirstLink(result[pos..]);
      if at.None? {
        Ends(lookup, result, pos);
        return;
      }
      result, pos := Advance(lookup, result, pos, at.value.0, at.value.1);
    }
  }

  /** One turn of the loop: the next link of the tail is resolved and joins the finished front. */
  method Advance(lookup: string -> Object, result: string, pos: nat, i: nat, e: nat) returns (next: string, cursor: nat)
    requires pos <= |result| && FirstLink(result[pos..]) == Some((i, e))
    ensures cursor <= |next| && |next| - cursor < |result| - pos
    ensures Progress(lookup, next, cursor) == Progress(lookup, result, pos)
  {
    next, cursor := ResolveAt(lookup, result, pos, i, e);
    FrontGrows(lookup, result[..pos], result[pos..], i, e, next[..cursor], next[cursor..]);
  }

  method ResolveAt(lookup: string -> Object, result: string, pos: nat, i: nat, e: nat) returns (next: string, cursor: nat)
    requires pos <= |result| && FirstLink(result[pos..]) == Some((i, e))
    ensures var tail := result[pos..];
            && cursor <= |next| && next[cursor..] == tail[e + 1..]
            && next[..cursor] == result[..pos] + tail[..i] + Resolved(lookup, tail[i + |OPEN|..e])
  {
    ghost var tail := result[pos..];
    FirstLinkIsFirst(tail);
    TailSlices(result, pos, i, e);
    next, cursor := ResolveOne(lookup, result, pos + i, pos + e, result[..pos] + tail[..i], tail[i + |OPEN|..e]);
  }

  lemma {:induction false} FrontGrows(lookup: string -> Object, front: string, tail: string, i: nat, e: nat,
                                      done: string, left: string)
    requires FirstLink(tail) == Some((i, e)) && left == tail[e + 1..]
    requires done == front + tail[..i] + Resolved(lookup, tail[i + |OPEN|..e])
    ensures done + Rewritten(lookup, left) == front + Rewritten(lookup, tail) && |left| < |tail|
  {
    RewriteStep(lookup, tail, i, e);
    Regroup(front, tail[..i], Resolved(lookup, tail[i + |OPEN|..e]), Rewritten(lookup, left));
  }

  lemma Regroup(a: string, b: string, c: string, d: string)
    ensures a + b + c + d == a + (b + c + d)
  {
  }

  lemma TailSlices(s: string, pos: nat, i: nat, e: nat)
    requires pos <= |s| && i + |OPEN| <= e < |s[pos..]| && At(s[pos..], OPEN, i) && s[pos..][e] == ')'
    ensures At(s, OPEN, pos + i) && s[pos + e] == ')'
    ensures s[pos + i + |OPEN|..pos + e] == s[pos..][i + |OPEN|..e] && s[pos + e + 1..] == s[pos..][e + 1..]
    ensures s[..pos + i] == s[..pos] + s[pos..][..i]
  {
    assert s[pos + i..pos + i + |OPEN|] == s[pos..][i..i + |OPEN|];
  }
}
