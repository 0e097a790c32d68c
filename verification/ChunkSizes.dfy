/** When a chunk is closed: not before the line that comes next does not fit. */
module ChunkSizes {
  import opened ChunkOrder
  import opened TextChunker
  import opened Utf8

  /** Of the next chunk the first r lines were left behind by the snap at a heading; with them in front of it, the line
      of the document that came next did not fit. before are the chunks up to this one. */
  predicate DueAt(tok: Bytes -> nat, cfg: Config, ls: seq<Bytes>, before: seq<seq<Item>>, chunk: seq<Item>,
                  next: seq<Item>, r: nat) {
    && r <= |next| && (r > 0 ==> Heading(next[0].line))
    && var n := |FreshAll(before)| + |Fresh(next[..r])|;
       n < |ls| && Tokens(tok, LinesOf(chunk + next[..r])) + tok(ls[n]) > cfg.targetTokens
  }

  ghost predicate Due(tok: Bytes -> nat, cfg: Config, ls: seq<Bytes>, before: seq<seq<Item>>, chunk: seq<Item>,
                      next: seq<Item>) {
    exists r: nat :: DueAt(tok, cfg, ls, before, chunk, next, r)
  }

  /** The same of the chunk being filled, which will not be cut within those lines. */
  ghost predicate DueOpen(tok: Bytes -> nat, cfg: Config, ls: seq<Bytes>, before: seq<seq<Item>>, chunk: seq<Item>,
                          curr: seq<Item>) {
    exists r: nat :: DueAt(tok, cfg, ls, before, chunk, curr, r) && Uncut(LinesOf(curr), r)
  }

  ghost predicate AllDue(tok: Bytes -> nat, cfg: Config, ls: seq<Bytes>, st: State) {
    && (forall k :: 0 <= k < |st.closed| - 1 ==> Due(tok, cfg, ls, st.closed[..k + 1], st.closed[k], st.closed[k + 1]))
    && (st.closed != [] ==> DueOpen(tok, cfg, ls, st.closed, st.closed[|st.closed| - 1], st.curr))
  }

  /** More lines, of the document or of the chunk, change nothing. */
  lemma DueLonger(tok: Bytes -> nat, cfg: Config, ls: seq<Bytes>, more: seq<Bytes>, before: seq<seq<Item>>,
                  chunk: seq<Item>, next: seq<Item>, items: seq<Item>, r: nat)
    requires DueAt(tok, cfg, ls, before, chunk, next, r)
    ensures DueAt(tok, cfg, ls + more, before, chunk, next + items, r)
  {
    assert (next + items)[..r] == next[..r];
  }

  lemma DueLine(tok: Bytes -> nat, cfg: Config, ls: seq<Bytes>, more: seq<Bytes>, st: State, item: Item)
    requires AllDue(tok, cfg, ls, st)
    ensures AllDue(tok, cfg, ls + more, st.(curr := st.curr + [item]))
  {
    forall k | 0 <= k < |st.closed| - 1
      ensures Due(tok, cfg, ls + more, st.closed[..k + 1], st.closed[k], st.closed[k + 1])
    {
      var r: nat :| DueAt(tok, cfg, ls, st.closed[..k + 1], st.closed[k], st.closed[k + 1], r);
      DueLonger(tok, cfg, ls, more, st.closed[..k + 1], st.closed[k], st.closed[k + 1], [], r);
      assert st.closed[k + 1] + [] == st.closed[k + 1];
    }
    if st.closed != [] {
      var last := st.closed[|st.closed| - 1];
      var r: nat :| DueAt(tok, cfg, ls, st.closed, last, st.curr, r) && Uncut(LinesOf(st.curr), r);
      DueLonger(tok, cfg, ls, more, st.closed, last, st.curr, [item], r);
      assert LinesOf(st.curr + [item]) == LinesOf(st.curr) + [item.line];
    }
  }

  /** Closing keeps what the chunk being filled had in front: it is cut behind those lines. */
  lemma DueCut(tok: Bytes -> nat, cfg: Config, ls: seq<Bytes>, before: seq<seq<Item>>, chunk: seq<Item>,
               curr: seq<Item>, c: nat)
    requires DueOpen(tok, cfg, ls, before, chunk, curr) && Closes(LinesOf(curr), c) && c <= |curr|
    ensures Due(tok, cfg, ls, before, chunk, curr[..c])
  {
    var r: nat :| DueAt(tok, cfg, ls, before, chunk, curr, r) && Uncut(LinesOf(curr), r);
    assert r <= c;
    assert curr[..c][..r] == curr[..r];
    assert DueAt(tok, cfg, ls, before, chunk, curr[..c], r);
  }

  lemma FreshCount(st: State, ls: seq<Bytes>, c: nat)
    requires Seen(st) == ls && c <= |st.curr|
    ensures |FreshAll(st.closed + [st.curr[..c]])| + |Fresh(st.curr[c..])| == |ls|
  {
    FreshSplits(st.curr, c);
    FreshAllGrows(st.closed, st.curr[..c]);
  }

  lemma HeadingLeads(curr: seq<Item>, c: nat)
    requires Closes(LinesOf(curr), c) && c < |curr|
    ensures Heading(curr[c..][0].line)
  {
    assert LinesOf(curr)[c] == curr[c].line;
  }

  /** Behind the heading it was closed before, what is left has none. */
  lemma RestUncut(curr: seq<Item>, c: nat, tail: seq<Item>)
    requires Closes(LinesOf(curr), c) && c <= |curr|
    ensures Uncut(LinesOf(curr[c..] + tail), |curr[c..]|)
  {
    var rest := curr[c..];
    forall k | 1 <= k < |rest| ensures !Heading(LinesOf(rest + tail)[k]) {
      assert LinesOf(rest + tail)[k] == LinesOf(curr)[c + k];
    }
  }

  lemma DueHere(tok: Bytes -> nat, cfg: Config, ls: seq<Bytes>, line: Bytes, before: seq<seq<Item>>, chunk: seq<Item>,
                rest: seq<Item>, tail: seq<Item>)
    requires |FreshAll(before)| + |Fresh(rest)| == |ls| && (rest != [] ==> Heading(rest[0].line))
    requires Tokens(tok, LinesOf(chunk + rest)) + tok(line) > cfg.targetTokens
    ensures DueAt(tok, cfg, ls + [line], before, chunk, rest + tail, |rest|)
  {
    assert (rest + tail)[..|rest|] == rest;
    assert (ls + [line])[|ls|] == line;
  }

  /** The line that made the chunk close did not fit. */
  lemma DueNow(tok: Bytes -> nat, cfg: Config, ls: seq<Bytes>, line: Bytes, st: State, c: nat, tail: seq<Item>)
    requires Seen(st) == ls && Closes(LinesOf(st.curr), c) && c <= |st.curr|
    requires Tokens(tok, LinesOf(st.curr)) + tok(line) > cfg.targetTokens
    ensures DueOpen(tok, cfg, ls + [line], st.closed + [st.curr[..c]], st.curr[..c], st.curr[c..] + tail)
  {
    var chunk, rest := st.curr[..c], st.curr[c..];
    FreshCount(st, ls, c);
    if c < |st.curr| {
      HeadingLeads(st.curr, c);
    }
    Rejoins(st.curr, c);
    DueHere(tok, cfg, ls, line, st.closed + [chunk], chunk, rest, tail);
    RestUncut(st.curr, c, tail);
  }

  lemma DueClose(tok: Bytes -> nat, cfg: Config, ls: seq<Bytes>, line: Bytes, st: State)
    requires AllDue(tok, cfg, ls, st) && Seen(st) == ls && st.curr != []
    requires Tokens(tok, LinesOf(st.curr)) + tok(line) > cfg.targetTokens
    ensures AllDue(tok, cfg, ls + [line], Closed(tok, cfg, st))
  {
    var c := CloseAt(cfg, st.curr);
    var tail := Carried(LinesOf(st.curr[..c])[OverlapStart(tok, cfg, LinesOf(st.curr[..c]))..]);
    var after := Closed(tok, cfg, st);
    ClosedIs(tok, cfg, st);
    ClosesThere(cfg, st.curr);
    DueNow(tok, cfg, ls, line, st, c, tail);
    DueLine(tok, cfg, ls, [line], st, Item(line, true));
    forall k | 0 <= k < |after.closed| - 1
      ensures Due(tok, cfg, ls + [line], after.closed[..k + 1], after.closed[k], after.closed[k + 1])
    {
      assert after.closed[..k + 1] == st.closed[..k + 1];
      if k == |st.closed| - 1 {
        var last := st.closed[k];
        var r: nat :| DueAt(tok, cfg, ls, st.closed, last, st.curr, r) && Uncut(LinesOf(st.curr), r);
        DueLonger(tok, cfg, ls, [line], st.closed, last, st.curr, [], r);
        assert st.curr + [] == st.curr && st.closed[..k + 1] == st.closed;
        DueCut(tok, cfg, ls + [line], st.closed, last, st.curr, c);
      }
    }
  }

  lemma {:induction false} WalkDue(tok: Bytes -> nat, cfg: Config, ls: seq<Bytes>)
    ensures AllDue(tok, cfg, ls, Walk(tok, cfg, ls))
  {
    if ls != [] {
      var n := |ls| - 1;
      var st := Walk(tok, cfg, ls[..n]);
      WalkDue(tok, cfg, ls[..n]);
      WalkKeepsFresh(tok, cfg, ls[..n]);
      assert ls == ls[..n] + [ls[n]];
      if MustClose(tok, cfg, st, ls[n]) {
        DueClose(tok, cfg, ls[..n], ls[n], st);
        assert ls + [] == ls;
        DueLine(tok, cfg, ls, [], Closed(tok, cfg, st), Item(ls[n], true));
      } else {
        DueLine(tok, cfg, ls[..n], [ls[n]], st, Item(ls[n], true));
      }
    }
  }

  /** Whenever there is a next chunk, the chunk with the lines the snap left behind it, and the line of the document that
      came next, exceed the target: no chunk is closed before it has to be. */
  lemma EachCloseIsDue(tok: Bytes -> nat, cfg: Config, ls: seq<Bytes>)
    ensures var all := Chunks(tok, cfg, ls);
            forall k :: 0 <= k < |all| - 1 ==> Due(tok, cfg, ls, all[..k + 1], all[k], all[k + 1])
  {
    WalkDue(tok, cfg, ls);
    var st := Walk(tok, cfg, ls);
    var all := Chunks(tok, cfg, ls);
    forall k | 0 <= k < |all| - 1 ensures Due(tok, cfg, ls, all[..k + 1], all[k], all[k + 1]) {
      assert all[..k + 1] == st.closed[..k + 1];
      if k == |st.closed| - 1 {
        assert st.closed[..k + 1] == st.closed;
        var r: nat :| DueAt(tok, cfg, ls, st.closed, st.closed[k], st.curr, r);
        assert DueAt(tok, cfg, ls, all[..k + 1], all[k], all[k + 1], r);
      }
    }
  }

  /** Without headings: the chunk and the first fresh line behind it exceed the target. */
  lemma PlainCloseIsDue(tok: Bytes -> nat, cfg: Config, ls: seq<Bytes>, k: nat)
    requires NoHeadings(ls) && k + 1 < |Chunks(tok, cfg, ls)|
    ensures var all := Chunks(tok, cfg, ls);
            var n := |FreshAll(all[..k + 1])|;
            n < |ls| && Tokens(tok, LinesOf(all[k])) + tok(ls[n]) > cfg.targetTokens
  {
    var all := Chunks(tok, cfg, ls);
    EachCloseIsDue(tok, cfg, ls);
    var r: nat :| DueAt(tok, cfg, ls, all[..k + 1], all[k], all[k + 1], r);
    PlacesOfChunks(tok, cfg, ls);
    if all[k + 1] != [] {
      var ps := AllPlaces(tok, cfg, ls)[k + 1];
      assert Stands(ls, all[k + 1], ps) && all[k + 1][0].line == ls[ps[0]];
    }
    assert r == 0;
    assert all[k + 1][..0] == [] && all[k] + [] == all[k];
  }

  /** The walk closes a chunk before a line exactly if there is one to close and the line does not fit it. */
  lemma CloseIff(tok: Bytes -> nat, cfg: Config, ls: seq<Bytes>, n: nat)
    requires n < |ls|
    ensures var before, after := Walk(tok, cfg, ls[..n]), Walk(tok, cfg, ls[..n + 1]);
            && (after.closed != before.closed <==>
                before.curr != [] && Tokens(tok, LinesOf(before.curr)) + tok(ls[n]) > cfg.targetTokens)
            && after.curr != [] && after.curr[|after.curr| - 1] == Item(ls[n], true)
  {
    assert ls[..n + 1][..n] == ls[..n];
  }

  // ---- documents of one chunk

  lemma {:induction false} TokensTogether(tok: Bytes -> nat, a: seq<Bytes>, b: seq<Bytes>)
    ensures Tokens(tok, a + b) == Tokens(tok, a) + Tokens(tok, b)
  {
    if b == [] {
      assert a + b == a;
    } else {
      var k := |b| - 1;
      assert (a + b)[..|a| + k] == a + b[..k];
      TokensTogether(tok, a, b[..k]);
    }
  }

  function AllNew(ls: seq<Bytes>): seq<Item> {
    seq(|ls|, (i: nat) requires i < |ls| => Item(ls[i], true))
  }

  /** As long as the lines fit, none is closed. */
  lemma {:induction false} FitsInOne(tok: Bytes -> nat, cfg: Config, ls: seq<Bytes>)
    requires Tokens(tok, ls) <= cfg.targetTokens || |ls| <= 1
    ensures Walk(tok, cfg, ls) == State([], AllNew(ls))
  {
    if ls != [] {
      var n := |ls| - 1;
      FitsInOne(tok, cfg, ls[..n]);
      assert LinesOf(AllNew(ls[..n])) == ls[..n];
      assert AllNew(ls[..n]) + [Item(ls[n], true)] == AllNew(ls);
    }
  }

  /** The lines outgrow the target: some chunk is closed. */
  lemma {:induction false} Outgrows(tok: Bytes -> nat, cfg: Config, ls: seq<Bytes>)
    requires |ls| >= 2 && Tokens(tok, ls) > cfg.targetTokens
    ensures Walk(tok, cfg, ls).closed != []
  {
    var n := |ls| - 1;
    if n >= 2 && Tokens(tok, ls[..n]) > cfg.targetTokens {
      Outgrows(tok, cfg, ls[..n]);
      WalkGrows(tok, cfg, ls, n);
    } else {
      FitsInOne(tok, cfg, ls[..n]);
      assert LinesOf(AllNew(ls[..n])) == ls[..n];
    }
  }

  /** A document makes one chunk exactly if it is one line or within the target, and that chunk is its lines. */
  lemma OneChunkIff(tok: Bytes -> nat, cfg: Config, ls: seq<Bytes>)
    requires ls != []
    ensures |Chunks(tok, cfg, ls)| == 1 <==> |ls| == 1 || Tokens(tok, ls) <= cfg.targetTokens
    ensures |Chunks(tok, cfg, ls)| == 1 ==> Chunks(tok, cfg, ls) == [AllNew(ls)]
  {
    if |ls| == 1 || Tokens(tok, ls) <= cfg.targetTokens {
      FitsInOne(tok, cfg, ls);
      assert [] + [AllNew(ls)] == [AllNew(ls)];
    } else {
      Outgrows(tok, cfg, ls);
      CloseIff(tok, cfg, ls, |ls| - 1);
      assert ls[..|ls|] == ls;
    }
  }

  /** The answer made from the chunks: a single text exactly if there is a single chunk. */
  lemma OneText(all: seq<seq<Item>>, cap: nat, ls: seq<Bytes>, res: Result)
    requires all != [] && cap >= 1 && (|all| == 1 ==> all == [AllNew(ls)])
    requires res == if |all| > cap then TooMany(cap + 1) else Ok(Texts(all))
    ensures res.Ok? && |res.chunks| == 1 <==> |all| == 1
    ensures |all| == 1 ==> res == Ok([Join(ls)])
  {
    if |all| == 1 {
      assert LinesOf(AllNew(ls)) == ls;
      assert Texts(all) == [Join(ls)];
    }
  }

  /** For the text given to ChunkText: one chunk exactly if it is one line or within the target, and it holds all
      lines. */
  lemma OneTextIff(tok: Bytes -> nat, config: Config, content: Bytes)
    requires content != []
    ensures var cfg := Defaulted(config);
            var ls := Lines(content, cfg.maxLineWidth);
            var res := Chunked(tok, config, content);
            && (res.Ok? && |res.chunks| == 1 <==> |ls| == 1 || Tokens(tok, ls) <= cfg.targetTokens)
            && (res.Ok? && |res.chunks| == 1 ==> res.chunks == [Join(ls)])
  {
    var cfg := Defaulted(config);
    var ls := Lines(content, cfg.maxLineWidth);
    ChunksReadBack(tok, cfg, content);
    OneChunkIff(tok, cfg, ls);
    OneText(Chunks(tok, cfg, ls), cfg.maxChunks, ls, Chunked(tok, config, content));
  }

  // ---- headings, and the two shares of the ratio

  /** One to three hash marks at the start, then a space. */
  lemma {:induction false} HeadingIff(line: Bytes)
    ensures Heading(line) <==> exists n :: 1 <= n <= 3 && HashesThenSpace(line, n)
  {
    HashesCount(line);
    if n :| 1 <= n <= 3 && HashesThenSpace(line, n) {
      assert !(n < Hashes(line)) && !(Hashes(line) < n);
    }
    if Heading(line) {
      assert HashesThenSpace(line, Hashes(line));
    }
  }

  predicate HashesThenSpace(line: Bytes, n: nat) {
    n < |line| && line[n] == 0x20 && forall k :: 0 <= k < n ==> line[k] == 0x23
  }

  lemma {:induction false} HashesCount(line: Bytes)
    ensures forall k :: 0 <= k < Hashes(line) ==> line[k] == 0x23
    ensures Hashes(line) < |line| ==> line[Hashes(line)] != 0x23
  {
    if line != [] && line[0] == HASH {
      HashesCount(line[1..]);
      forall k | 0 <= k < Hashes(line) ensures line[k] == 0x23 {
        assert k > 0 ==> line[k] == line[1..][k - 1];
      }
    }
  }

  /** A share rounded down to a whole number, but at least one. */
  predicate ShareOf(whole: nat, ratio: real, share: nat) {
    var exact := whole as real * ratio;
    share >= 1 && (exact < 2.0 ==> share == 1) && (exact >= 1.0 ==> exact - 1.0 < share as real <= exact)
  }

  /** The overlap is the ratio of the target, the look-back for a heading the ratio of the lines. */
  lemma SharesOfTheRatio(cfg: Config, count: nat)
    requires Sane(cfg)
    ensures ShareOf(cfg.targetTokens, cfg.overlapRatio, OverlapTokens(cfg))
    ensures ShareOf(count, cfg.overlapRatio, Lookback(count, cfg.overlapRatio))
  {
    RoundedDown(cfg.targetTokens as real * cfg.overlapRatio);
    RoundedDown(count as real * cfg.overlapRatio);
  }

  lemma RoundedDown(exact: real)
    ensures exact - 1.0 < exact.Floor as real <= exact
    ensures exact < 2.0 ==> exact.Floor <= 1
  {
    assert exact < 2.0 ==> exact.Floor as real < 2.0;
  }
}
