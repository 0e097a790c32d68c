/** Cutting a document into overlapping windows of lines for the sliding-window summarizer. */
module TextChunker {
  import opened Sequences
  import opened Utf8

  const NEWLINE: bv8 := 0x0A
  const HASH: bv8 := 0x23
  const SPACE: bv8 := 0x20

  datatype Config = Config(targetTokens: int, overlapRatio: real, maxLineWidth: int, maxChunks: int)

  /** The chunks, or the number of chunks at which the cap was passed. */
  datatype Result = Ok(chunks: seq<Bytes>) | TooMany(count: nat)

  predicate Sane(cfg: Config) {
    cfg.targetTokens > 0 && 0.0 <= cfg.overlapRatio < 1.0 && cfg.maxLineWidth > 0 && cfg.maxChunks > 0
  }

  function Defaulted(cfg: Config): (r: Config)
    ensures Sane(r)
    ensures Sane(cfg) ==> r == cfg
  {
    Config(
      if cfg.targetTokens <= 0 then 2000 else cfg.targetTokens,
      if cfg.overlapRatio < 0.0 || cfg.overlapRatio >= 1.0 then 0.1 else cfg.overlapRatio,
      if cfg.maxLineWidth <= 0 then 10000 else cfg.maxLineWidth,
      if cfg.maxChunks <= 0 then 1000 else cfg.maxChunks)
  }

  // ---- lines ----

  predicate OneLine(s: Bytes) {
    NEWLINE !in s
  }

  predicate AllLines(ls: seq<Bytes>) {
    forall i :: 0 <= i < |ls| ==> OneLine(ls[i])
  }

  /** strings.Split(s, "\n"). */
  function Split(s: Bytes): (r: seq<Bytes>)
    ensures |r| > 0 && AllLines(r)
  {
    if s == [] then [[]]
    else
      var r, b := Split(s[..|s| - 1]), s[|s| - 1];
      if b == NEWLINE then r + [[]] else r[..|r| - 1] + [r[|r| - 1] + [b]]
  }

  /** strings.Join(ls, "\n"). */
  function Join(ls: seq<Bytes>): Bytes {
    if ls == [] then []
    else if |ls| == 1 then ls[0]
    else Join(ls[..|ls| - 1]) + [NEWLINE] + ls[|ls| - 1]
  }

  lemma {:induction false} SplitLine(s: Bytes, b: Bytes)
    requires OneLine(b)
    ensures Split(s + [NEWLINE] + b) == Split(s) + [b]
    decreases |b|
  {
    var all := s + [NEWLINE] + b;
    if b == [] {
      assert all[..|all| - 1] == s;
    } else {
      var n := |b| - 1;
      assert all[..|all| - 1] == s + [NEWLINE] + b[..n];
      SplitLine(s, b[..n]);
      assert b == b[..n] + [b[n]];
    }
  }

  lemma {:induction false} SplitOne(b: Bytes)
    requires OneLine(b)
    ensures Split(b) == [b]
  {
    if b != [] {
      SplitOne(b[..|b| - 1]);
      assert b == b[..|b| - 1] + [b[|b| - 1]];
    }
  }

  /** Joined lines can be told apart again. */
  lemma {:induction false} SplitJoin(ls: seq<Bytes>)
    requires ls != [] && AllLines(ls)
    ensures Split(Join(ls)) == ls
  {
    var n := |ls| - 1;
    assert ls == ls[..n] + [ls[n]];
    if n == 0 {
      SplitOne(ls[0]);
    } else {
      SplitJoin(ls[..n]);
      SplitLine(Join(ls[..n]), ls[n]);
    }
  }

  lemma {:induction false} JoinSplit(s: Bytes)
    ensures Join(Split(s)) == s
  {
    if s != [] {
      var n := |s| - 1;
      var r := Split(s[..n]);
      JoinSplit(s[..n]);
      assert s == s[..n] + [s[n]];
      if s[n] == NEWLINE {
        assert (r + [[]])[..|r|] == r;
      } else {
        var k := |r| - 1;
        var grown := r[..k] + [r[k] + [s[n]]];
        assert grown[..k] == r[..k];
        if k > 0 {
          assert Join(r) == Join(r[..k]) + [NEWLINE] + r[k];
          assert Join(grown) == Join(r[..k]) + [NEWLINE] + (r[k] + [s[n]]);
        }
      }
    }
  }

  // ---- forced breaks ----

  /** Not the inside of a multi-byte character. */
  predicate Boundary(s: Bytes, i: nat)
    requires i <= |s|
  {
    i == 0 || i == |s| || s[i] & 0xC0 != 0x80
  }

  lemma BoundaryIsStart(b: bv8)
    ensures b & 0xC0 != 0x80 <==> !Tail(b)
  {
  }

  /** The last boundary at or before c. */
  function LastBoundary(s: Bytes, c: nat): (r: nat)
    requires c <= |s|
    ensures r <= c && Boundary(s, r)
    ensures forall k :: r < k <= c ==> !Boundary(s, k)
  {
    if c == 0 || Boundary(s, c) then c else LastBoundary(s, c - 1)
  }

  function Cut(s: Bytes, width: nat): (c: nat)
    requires 0 < width < |s|
    ensures 0 < c <= width
  {
    var c := LastBoundary(s, width);
    if c == 0 then width else c
  }

  function Broken(line: Bytes, width: nat): (r: seq<Bytes>)
    requires width > 0
    ensures |r| > 0 && forall i :: 0 <= i < |r| ==> |r[i]| <= width && (line != [] ==> r[i] != [])
    decreases |line|
  {
    if |line| <= width then [line]
    else [line[..Cut(line, width)]] + Broken(line[Cut(line, width)..], width)
  }

  function BrokenAll(ls: seq<Bytes>, width: nat): seq<Bytes>
    requires width > 0
  {
    if ls == [] then [] else BrokenAll(ls[..|ls| - 1], width) + Broken(ls[|ls| - 1], width)
  }

  /** The lines the chunker walks. */
  function Lines(content: Bytes, width: nat): seq<Bytes>
    requires width > 0
  {
    BrokenAll(Split(content), width)
  }

  function Concat(ps: seq<Bytes>): Bytes {
    if ps == [] then [] else ps[0] + Concat(ps[1..])
  }

  /** The pieces of a line are the line, on one line each. */
  lemma {:induction false} PiecesRejoin(line: Bytes, width: nat)
    requires width > 0
    ensures Concat(Broken(line, width)) == line
    ensures OneLine(line) ==> AllLines(Broken(line, width))
    decreases |line|
  {
    var r := Broken(line, width);
    if |line| <= width {
      assert r[1..] == [];
    } else {
      var c := Cut(line, width);
      PiecesRejoin(line[c..], width);
      assert r[1..] == Broken(line[c..], width);
      assert line == line[..c] + line[c..];
    }
  }

  /** A piece with text behind it is as long as the width allows: it ends at the last character start within the width,
      or fills the width where there is none. */
  predicate LongestPiece(piece: Bytes, text: Bytes, width: nat) {
    && piece <= text && width < |text| && 0 < |piece| <= width
    && (Boundary(text, |piece|) || |piece| == width)
    && (forall j :: |piece| < j <= width ==> !Boundary(text, j))
    && (!Boundary(text, |piece|) ==> forall j :: 0 < j <= width ==> !Boundary(text, j))
  }

  lemma {:induction false} PiecesAreLongest(line: Bytes, width: nat, k: nat)
    requires width > 0 && k + 1 < |Broken(line, width)|
    ensures LongestPiece(Broken(line, width)[k], Concat(Broken(line, width)[k..]), width)
    decreases k
  {
    var c := Cut(line, width);
    var rest := Broken(line[c..], width);
    var all := Broken(line, width);
    assert all == [line[..c]] + rest;
    if k == 0 {
      PiecesRejoin(line, width);
      assert all[0..] == all;
    } else {
      PiecesAreLongest(line[c..], width, k - 1);
      assert all[k..] == rest[k - 1..];
    }
  }

  lemma BoundaryInReach(s: Bytes, width: nat)
    requires Valid(s) && 4 <= width < |s|
    ensures LastBoundary(s, width) > 0
  {
    var n := RuneLength(s);
    assert RuneLength(s[n..]) > 0 && s[n..][0] == s[n];
    BoundaryIsStart(s[n]);
    assert Boundary(s, n);
  }

  lemma {:induction false} PiecesValid(line: Bytes, width: nat)
    requires Valid(line) && width >= 4
    ensures forall i :: 0 <= i < |Broken(line, width)| ==> Valid(Broken(line, width)[i])
    decreases |line|
  {
    if |line| > width {
      var c := Cut(line, width);
      BoundaryInReach(line, width);
      BoundaryIsStart(line[c]);
      CutsAtStarts(line, c);
      PiecesValid(line[c..], width);
    }
  }

  ghost predicate KeepsCharacters(width: nat)
    requires width > 0
  {
    forall line :: Valid(line) ==> forall i :: 0 <= i < |Broken(line, width)| ==> Valid(Broken(line, width)[i])
  }

  /** A four-byte character is cut open by any narrower limit. */
  lemma NarrowCutsOpen(width: nat)
    requires 0 < width < 4
    ensures !KeepsCharacters(width)
  {
    var line: Bytes := [0xF1, 0x80, 0x80, 0x80];
    assert TailsAt(line, 1, 3) && RuneLength(line) == 4 && line[4..] == [];
    assert Valid(line);
    forall k | 0 < k <= width ensures !Boundary(line, k) {
      BoundaryIsStart(line[k]);
    }
    assert Cut(line, width) == width;
    var piece := Broken(line, width)[0];
    assert piece == line[..width] && piece[0] == 0xF1 && RuneLength(piece) == 0;
    assert !Valid(piece);
  }

  /** Forced breaks keep every valid text valid exactly from width 4 on. */
  lemma KeepsCharactersIff(width: nat)
    requires width > 0
    ensures KeepsCharacters(width) <==> width >= 4
  {
    if width >= 4 {
      forall line | Valid(line) ensures forall i :: 0 <= i < |Broken(line, width)| ==> Valid(Broken(line, width)[i]) {
        PiecesValid(line, width);
      }
    } else {
      NarrowCutsOpen(width);
    }
  }

  method FindCut(line: Bytes, width: nat) returns (cut: nat)
    requires 0 < width < |line|
    ensures cut == Cut(line, width)
  {
    cut := width;
    while cut > 0 && !Boundary(line, cut)
      invariant cut <= width
      invariant LastBoundary(line, width) == LastBoundary(line, cut)
    {
      cut := cut - 1;
    }
    if cut == 0 {
      cut := width;
    }
  }

  method BreakLine(long: Bytes, width: nat) returns (out: seq<Bytes>)
    requires 0 < width < |long|
    ensures out == Broken(long, width)
  {
    var line := long;
    out := [];
    while |line| > width
      invariant line != []
      invariant out + Broken(line, width) == Broken(long, width)
      decreases |line|
    {
      var cut := FindCut(line, width);
      assert (out + [line[..cut]]) + Broken(line[cut..], width) == out + ([line[..cut]] + Broken(line[cut..], width));
      out, line := out + [line[..cut]], line[cut..];
    }
    if line != [] {
      out := out + [line];
    }
  }

  method SplitAndBreakLines(content: Bytes, width: nat) returns (out: seq<Bytes>)
    requires width > 0
    ensures out == Lines(content, width)
  {
    var raw := Split(content);
    out := [];
    for k := 0 to |raw|
      invariant out == BrokenAll(raw[..k], width)
    {
      assert raw[..k + 1][..k] == raw[..k];
      if |raw[k]| <= width {
        out := out + [raw[k]];
      } else {
        var pieces := BreakLine(raw[k], width);
        out := out + pieces;
      }
    }
    assert raw[..|raw|] == raw;
  }

  // ---- chunks ----

  /** A line of a chunk: fresh when it appears for the first time, else carried over as overlap. */
  datatype Item = Item(line: Bytes, isNew: bool)

  function LinesOf(items: seq<Item>): seq<Bytes> {
    seq(|items|, (i: nat) requires i < |items| => items[i].line)
  }

  function Carried(ls: seq<Bytes>): seq<Item> {
    seq(|ls|, (i: nat) requires i < |ls| => Item(ls[i], false))
  }

  /** The fresh lines, in order. */
  function Fresh(items: seq<Item>): seq<Bytes> {
    if items == [] then []
    else Fresh(items[..|items| - 1]) + if items[|items| - 1].isNew then [items[|items| - 1].line] else []
  }

  function FreshAll(chunks: seq<seq<Item>>): seq<Bytes> {
    if chunks == [] then [] else FreshAll(chunks[..|chunks| - 1]) + Fresh(chunks[|chunks| - 1])
  }

  function Tokens(tok: Bytes -> nat, ls: seq<Bytes>): nat {
    if ls == [] then 0 else Tokens(tok, ls[..|ls| - 1]) + tok(ls[|ls| - 1])
  }

  function Hashes(line: Bytes): (n: nat)
    ensures n <= |line|
  {
    if line == [] || line[0] != HASH then 0 else 1 + Hashes(line[1..])
  }

  /** A markdown heading of level 1 to 3. */
  predicate Heading(line: Bytes) {
    1 <= Hashes(line) <= 3 && Hashes(line) < |line| && line[Hashes(line)] == SPACE
  }

  function AtLeastOne(x: int): (n: nat)
    ensures n >= 1
  {
    if x >= 1 then x else 1
  }

  function Lookback(count: nat, ratio: real): nat {
    AtLeastOne((count as real * ratio).Floor)
  }

  /** Closing before the last heading among the last back lines, at or before line i, or else at the end. */
  function CloseFrom(curr: seq<Bytes>, back: nat, i: int): (c: nat)
    requires i < |curr|
    ensures curr != [] ==> 1 <= c <= |curr|
    ensures c < |curr| ==> Heading(curr[c]) && |curr| - back <= c <= i
    ensures forall k :: |curr| - back <= k <= i && 1 <= k && k > c ==> !Heading(curr[k])
    ensures c == |curr| ==> forall k :: |curr| - back <= k <= i && 1 <= k ==> !Heading(curr[k])
    decreases i
  {
    if !(i >= |curr| - back && i >= 1) then |curr|
    else if Heading(curr[i]) then i
    else CloseFrom(curr, back, i - 1)
  }

  function CloseIndex(curr: seq<Bytes>, ratio: real): nat {
    if curr == [] then 0 else CloseFrom(curr, Lookback(|curr|, ratio), |curr| - 1)
  }

  /** The first line of the longest tail of ls[..i] that, with what is used, stays within the budget. */
  function TailFrom(tok: Bytes -> nat, ls: seq<Bytes>, budget: nat, i: nat, used: nat): (start: nat)
    requires i <= |ls|
    ensures start <= i
  {
    if i == 0 || used + tok(ls[i - 1]) > budget then i
    else TailFrom(tok, ls, budget, i - 1, used + tok(ls[i - 1]))
  }

  function OverlapTail(tok: Bytes -> nat, ls: seq<Bytes>, budget: nat): seq<Bytes> {
    if budget == 0 then [] else ls[TailFrom(tok, ls, budget, |ls|, 0)..]
  }

  function OverlapTokens(cfg: Config): nat {
    AtLeastOne((cfg.targetTokens as real * cfg.overlapRatio).Floor)
  }

  /** The chunks closed so far and the one being filled. */
  datatype State = State(closed: seq<seq<Item>>, curr: seq<Item>)

  function Closed(tok: Bytes -> nat, cfg: Config, st: State): State
    requires st.curr != []
  {
    var c := CloseIndex(LinesOf(st.curr), cfg.overlapRatio);
    var chunk := st.curr[..c];
    State(st.closed + [chunk], st.curr[c..] + Carried(OverlapTail(tok, LinesOf(chunk), OverlapTokens(cfg))))
  }

  predicate MustClose(tok: Bytes -> nat, cfg: Config, st: State, line: Bytes) {
    Tokens(tok, LinesOf(st.curr)) + tok(line) > cfg.targetTokens && st.curr != []
  }

  function Ready(tok: Bytes -> nat, cfg: Config, st: State, line: Bytes): State {
    if MustClose(tok, cfg, st, line) then Closed(tok, cfg, st) else st
  }

  /** The state after one more line. */
  function Accepted(tok: Bytes -> nat, cfg: Config, before: State, line: Bytes): State {
    var st := Ready(tok, cfg, before, line);
    st.(curr := st.curr + [Item(line, true)])
  }

  function Walk(tok: Bytes -> nat, cfg: Config, ls: seq<Bytes>): State {
    if ls == [] then State([], [])
    else Accepted(tok, cfg, Walk(tok, cfg, ls[..|ls| - 1]), ls[|ls| - 1])
  }

  /** All chunks of a document, tagged, before the cap is applied. */
  function Chunks(tok: Bytes -> nat, cfg: Config, ls: seq<Bytes>): seq<seq<Item>> {
    var st := Walk(tok, cfg, ls);
    if st.curr == [] then st.closed else st.closed + [st.curr]
  }

  function Texts(chunks: seq<seq<Item>>): seq<Bytes> {
    seq(|chunks|, (i: nat) requires i < |chunks| => Join(LinesOf(chunks[i])))
  }

  /** What ChunkText answers. */
  function Chunked(tok: Bytes -> nat, config: Config, content: Bytes): Result {
    var cfg := Defaulted(config);
    if content == [] then Ok([])
    else
      var all := Chunks(tok, cfg, Lines(content, cfg.maxLineWidth));
      if |all| > cfg.maxChunks then TooMany(cfg.maxChunks + 1) else Ok(Texts(all))
  }

  method ChooseCloseIndex(curr: seq<Bytes>, ratio: real) returns (c: nat)
    ensures c == CloseIndex(curr, ratio)
  {
    if |curr| == 0 {
      return 0;
    }
    var back := Lookback(|curr|, ratio);
    var i := |curr| - 1;
    while i >= |curr| - back && i >= 1
      invariant i < |curr|
      invariant CloseFrom(curr, back, |curr| - 1) == CloseFrom(curr, back, i)
      decreases i
    {
      if Heading(curr[i]) {
        return i;
      }
      i := i - 1;
    }
    c := |curr|;
  }

  method TakeOverlapTail(tok: Bytes -> nat, ls: seq<Bytes>, budget: nat) returns (tail: seq<Bytes>)
    ensures tail == OverlapTail(tok, ls, budget)
  {
    if budget == 0 {
      return [];
    }
    var used, start, i := 0, |ls|, |ls|;
    while i > 0
      invariant 0 <= i <= |ls| && start == i && used >= 0
      invariant TailFrom(tok, ls, budget, |ls|, 0) == TailFrom(tok, ls, budget, i, used)
    {
      var t := tok(ls[i - 1]);
      if used + t > budget {
        break;
      }
      i := i - 1;
      used, start := used + t, i;
    }
    tail := ls[start..];
  }

  method SumTokens(tok: Bytes -> nat, ls: seq<Bytes>) returns (total: nat)
    ensures total == Tokens(tok, ls)
  {
    total := 0;
    for i := 0 to |ls|
      invariant total == Tokens(tok, ls[..i])
    {
      assert ls[..i + 1][..i] == ls[..i];
      total := total + tok(ls[i]);
    }
    assert ls[..|ls|] == ls;
  }

  lemma {:induction false} WalkGrows(tok: Bytes -> nat, cfg: Config, ls: seq<Bytes>, i: nat)
    requires i <= |ls|
    ensures |Walk(tok, cfg, ls[..i]).closed| <= |Walk(tok, cfg, ls).closed|
    decreases |ls| - i
  {
    if i == |ls| {
      assert ls[..i] == ls;
    } else {
      WalkGrows(tok, cfg, ls[..|ls| - 1], i);
      assert ls[..|ls| - 1][..i] == ls[..i];
    }
  }

  lemma LinesOfParts(a: seq<Item>, b: seq<Item>)
    ensures LinesOf(a + b) == LinesOf(a) + LinesOf(b)
  {
  }

  lemma LinesOfSlices(items: seq<Item>, c: nat)
    requires c <= |items|
    ensures LinesOf(items)[..c] == LinesOf(items[..c]) && LinesOf(items)[c..] == LinesOf(items[c..])
  {
  }

  lemma LinesOfCarried(ls: seq<Bytes>)
    ensures LinesOf(Carried(ls)) == ls
  {
  }

  lemma LineAdded(tok: Bytes -> nat, st: State, line: Bytes)
    ensures var curr := st.curr + [Item(line, true)];
            LinesOf(curr) == LinesOf(st.curr) + [line] &&
            Tokens(tok, LinesOf(curr)) == Tokens(tok, LinesOf(st.curr)) + tok(line)
  {
    var ls := LinesOf(st.curr);
    assert (ls + [line])[..|ls|] == ls;
  }

  lemma TextsGrow(chunks: seq<seq<Item>>, chunk: seq<Item>)
    ensures Texts(chunks + [chunk]) == Texts(chunks) + [Join(LinesOf(chunk))]
  {
  }

  /** Closes the current chunk and reports its text and the lines carried into the next one. */
  method CloseChunk(tok: Bytes -> nat, cfg: Config, curr: seq<Bytes>, ghost st: State) returns (text: Bytes, next: seq<Bytes>)
    requires curr != [] && curr == LinesOf(st.curr)
    ensures var after := Closed(tok, cfg, st);
            next == LinesOf(after.curr) && Texts(after.closed) == Texts(st.closed) + [text]
  {
    var c := ChooseCloseIndex(curr, cfg.overlapRatio);
    LinesOfSlices(st.curr, c);
    text := Join(curr[..c]);
    var tail := TakeOverlapTail(tok, curr[..c], OverlapTokens(cfg));
    LinesOfCarried(tail);
    LinesOfParts(st.curr[c..], Carried(tail));
    next := curr[c..] + tail;
    TextsGrow(st.closed, st.curr[..c]);
  }

  /** The variables of the loop hold the state without its tags. */
  ghost predicate Mirrors(tok: Bytes -> nat, st: State, chunks: seq<Bytes>, curr: seq<Bytes>, currTokens: nat) {
    chunks == Texts(st.closed) && curr == LinesOf(st.curr) && currTokens == Tokens(tok, curr)
  }

  method AcceptLine(tok: Bytes -> nat, cfg: Config, chunks: seq<Bytes>, curr: seq<Bytes>, currTokens: nat, line: Bytes,
                    ghost st: State) returns (chunks': seq<Bytes>, curr': seq<Bytes>, tokens': nat)
    requires Mirrors(tok, st, chunks, curr, currTokens)
    ensures Mirrors(tok, Accepted(tok, cfg, st, line), chunks', curr', tokens')
  {
    chunks', curr', tokens' := chunks, curr, currTokens;
    if currTokens + tok(line) > cfg.targetTokens && |curr| > 0 {
      var text, next := CloseChunk(tok, cfg, curr, st);
      chunks', curr' := chunks + [text], next;
      tokens' := SumTokens(tok, curr');
    }
    LineAdded(tok, Ready(tok, cfg, st, line), line);
    curr', tokens' := curr' + [line], tokens' + tok(line);
  }

  lemma AllChunks(tok: Bytes -> nat, cfg: Config, ls: seq<Bytes>)
    ensures var st := Walk(tok, cfg, ls);
            Texts(Chunks(tok, cfg, ls)) == if st.curr == [] then Texts(st.closed) else Texts(st.closed) + [Join(LinesOf(st.curr))]
  {
    var st := Walk(tok, cfg, ls);
    TextsGrow(st.closed, st.curr);
  }

  /** The loop over the lines: the closed texts and the open chunk; it stops when the cap is passed. */
  method WalkLines(tok: Bytes -> nat, cfg: Config, lines: seq<Bytes>) returns (chunks: seq<Bytes>, curr: seq<Bytes>)
    requires Sane(cfg)
    ensures |chunks| <= cfg.maxChunks ==> exists n: nat :: Mirrors(tok, Walk(tok, cfg, lines), chunks, curr, n)
    ensures |chunks| > cfg.maxChunks ==> |chunks| == cfg.maxChunks + 1 <= |Walk(tok, cfg, lines).closed|
  {
    var currTokens: nat;
    chunks, curr, currTokens := [], [], 0;
    for k := 0 to |lines|
      invariant Mirrors(tok, Walk(tok, cfg, lines[..k]), chunks, curr, currTokens)
      invariant |chunks| <= cfg.maxChunks
    {
      assert lines[..k + 1][..k] == lines[..k];
      chunks, curr, currTokens := AcceptLine(tok, cfg, chunks, curr, currTokens, lines[k], Walk(tok, cfg, lines[..k]));
      if |chunks| > cfg.maxChunks {
        WalkGrows(tok, cfg, lines, k + 1);
        return;
      }
    }
    assert lines[..|lines|] == lines;
  }

  method ChunkText(tok: Bytes -> nat, config: Config, content: Bytes) returns (res: Result)
    ensures res == Chunked(tok, config, content)
  {
    var cfg := Defaulted(config);
    if content == [] {
      return Ok([]);
    }
    var lines := SplitAndBreakLines(content, cfg.maxLineWidth);
    var chunks, curr := WalkLines(tok, cfg, lines);
    AllChunks(tok, cfg, lines);
    if |chunks| > cfg.maxChunks {
      return TooMany(|chunks|);
    }
    if |curr| > 0 {
      chunks := chunks + [Join(curr)];
      if |chunks| > cfg.maxChunks {
        return TooMany(|chunks|);
      }
    }
    res := Ok(chunks);
  }

  // ---- what the chunks hold ----

  lemma {:induction false} FreshAppend(a: seq<Item>, b: seq<Item>)
    ensures Fresh(a + b) == Fresh(a) + Fresh(b)
  {
    if b == [] {
      assert a + b == a;
    } else {
      assert (a + b)[..|a + b| - 1] == a + b[..|b| - 1];
      FreshAppend(a, b[..|b| - 1]);
    }
  }

  lemma {:induction false} CarriedIsNotFresh(ls: seq<Bytes>)
    ensures Fresh(Carried(ls)) == []
  {
    if ls != [] {
      CarriedIsNotFresh(ls[..|ls| - 1]);
      assert Carried(ls)[..|ls| - 1] == Carried(ls[..|ls| - 1]);
    }
  }

  lemma FreshSplits(items: seq<Item>, c: nat)
    requires c <= |items|
    ensures Fresh(items) == Fresh(items[..c]) + Fresh(items[c..])
  {
    Rejoins(items, c);
    FreshAppend(items[..c], items[c..]);
  }

  lemma Rejoins(items: seq<Item>, c: nat)
    requires c <= |items|
    ensures items[..c] + items[c..] == items
  {
  }

  lemma FreshCarry(items: seq<Item>, tail: seq<Bytes>)
    ensures Fresh(items + Carried(tail)) == Fresh(items)
  {
    FreshAppend(items, Carried(tail));
    CarriedIsNotFresh(tail);
  }

  lemma FreshAllGrows(chunks: seq<seq<Item>>, chunk: seq<Item>)
    ensures FreshAll(chunks + [chunk]) == FreshAll(chunks) + Fresh(chunk)
  {
    assert (chunks + [chunk])[..|chunks|] == chunks;
  }

  lemma CloseKeepsFresh(tok: Bytes -> nat, cfg: Config, st: State)
    requires st.curr != []
    ensures var after := Closed(tok, cfg, st);
            FreshAll(after.closed) + Fresh(after.curr) == FreshAll(st.closed) + Fresh(st.curr)
  {
    var c := CloseIndex(LinesOf(st.curr), cfg.overlapRatio);
    FreshSplits(st.curr, c);
    FreshCarry(st.curr[c..], OverlapTail(tok, LinesOf(st.curr[..c]), OverlapTokens(cfg)));
    FreshAllGrows(st.closed, st.curr[..c]);
    Assoc(FreshAll(st.closed), Fresh(st.curr[..c]), Fresh(st.curr[c..]));
  }

  function Seen(st: State): seq<Bytes> {
    FreshAll(st.closed) + Fresh(st.curr)
  }

  lemma LineIsSeen(st: State, line: Bytes)
    ensures Seen(st.(curr := st.curr + [Item(line, true)])) == Seen(st) + [line]
  {
    var added := [Item(line, true)];
    FreshAppend(st.curr, added);
    assert Fresh(added) == [line];
    Assoc(FreshAll(st.closed), Fresh(st.curr), [line]);
  }

  lemma LineKeepsFresh(tok: Bytes -> nat, cfg: Config, st: State, line: Bytes)
    ensures Seen(Accepted(tok, cfg, st, line)) == Seen(st) + [line]
  {
    if MustClose(tok, cfg, st, line) {
      CloseKeepsFresh(tok, cfg, st);
    }
    LineIsSeen(Ready(tok, cfg, st, line), line);
  }

  lemma {:induction false} WalkKeepsFresh(tok: Bytes -> nat, cfg: Config, ls: seq<Bytes>)
    ensures Seen(Walk(tok, cfg, ls)) == ls
  {
    if ls != [] {
      var n := |ls| - 1;
      WalkKeepsFresh(tok, cfg, ls[..n]);
      LineKeepsFresh(tok, cfg, Walk(tok, cfg, ls[..n]), ls[n]);
      assert ls == ls[..n] + [ls[n]];
    }
  }

  /** Dropping the carried-over lines and concatenating the chunks gives back every line, in order. */
  lemma NothingLost(tok: Bytes -> nat, cfg: Config, ls: seq<Bytes>)
    ensures FreshAll(Chunks(tok, cfg, ls)) == ls
  {
    WalkKeepsFresh(tok, cfg, ls);
    FreshAllGrows(Walk(tok, cfg, ls).closed, Walk(tok, cfg, ls).curr);
  }

  predicate Ranged(items: seq<Item>) {
    AllLines(LinesOf(items))
  }

  predicate Fit(chunk: seq<Item>) {
    chunk != [] && Ranged(chunk)
  }

  lemma RangedParts(items: seq<Item>, c: nat, tail: seq<Bytes>)
    requires Ranged(items) && c <= |items| && AllLines(tail)
    ensures Ranged(items[..c]) && Ranged(items[c..] + Carried(tail))
  {
    LinesOfSlices(items, c);
    LinesOfParts(items[c..], Carried(tail));
    LinesOfCarried(tail);
  }

  predicate AllFit(st: State) {
    (forall k :: 0 <= k < |st.closed| ==> Fit(st.closed[k])) && Ranged(st.curr)
  }

  lemma CloseFits(tok: Bytes -> nat, cfg: Config, st: State)
    requires AllFit(st) && st.curr != []
    ensures AllFit(Closed(tok, cfg, st))
  {
    var c := CloseIndex(LinesOf(st.curr), cfg.overlapRatio);
    LinesOfSlices(st.curr, c);
    RangedParts(st.curr, c, OverlapTail(tok, LinesOf(st.curr[..c]), OverlapTokens(cfg)));
  }

  lemma LineFits(st: State, line: Bytes)
    requires AllFit(st) && OneLine(line)
    ensures AllFit(st.(curr := st.curr + [Item(line, true)]))
  {
    LinesOfParts(st.curr, [Item(line, true)]);
  }

  lemma {:induction false} WalkFits(tok: Bytes -> nat, cfg: Config, ls: seq<Bytes>)
    requires AllLines(ls)
    ensures AllFit(Walk(tok, cfg, ls))
  {
    if ls != [] {
      var n := |ls| - 1;
      var before := Walk(tok, cfg, ls[..n]);
      WalkFits(tok, cfg, ls[..n]);
      if MustClose(tok, cfg, before, ls[n]) {
        CloseFits(tok, cfg, before);
      }
      LineFits(Ready(tok, cfg, before, ls[n]), ls[n]);
    }
  }

  lemma {:induction false} WalkCounts(tok: Bytes -> nat, cfg: Config, ls: seq<Bytes>)
    ensures var st := Walk(tok, cfg, ls);
            if ls == [] then st == State([], []) else st.curr != [] && |st.closed| < |ls|
  {
    if ls != [] {
      WalkCounts(tok, cfg, ls[..|ls| - 1]);
    }
  }

  lemma {:induction false} BrokenAllLines(ls: seq<Bytes>, width: nat)
    requires width > 0 && AllLines(ls)
    ensures AllLines(BrokenAll(ls, width)) && (ls != [] ==> BrokenAll(ls, width) != [])
    ensures forall i :: 0 <= i < |BrokenAll(ls, width)| ==> |BrokenAll(ls, width)[i]| <= width
  {
    if ls != [] {
      BrokenAllLines(ls[..|ls| - 1], width);
      PiecesRejoin(ls[|ls| - 1], width);
    }
  }

  /** Every chunk text splits back into the lines it was made of; there are at most as many chunks as lines. */
  lemma ChunksReadBack(tok: Bytes -> nat, cfg: Config, content: Bytes)
    requires Sane(cfg)
    ensures var ls := Lines(content, cfg.maxLineWidth);
            var all := Chunks(tok, cfg, ls);
            && 0 < |all| <= |ls|
            && forall k :: 0 <= k < |all| ==> all[k] != [] && Split(Texts(all)[k]) == LinesOf(all[k])
  {
    var ls := Lines(content, cfg.maxLineWidth);
    BrokenAllLines(Split(content), cfg.maxLineWidth);
    WalkFits(tok, cfg, ls);
    WalkCounts(tok, cfg, ls);
    var all := Chunks(tok, cfg, ls);
    forall k | 0 <= k < |all| ensures all[k] != [] && Split(Texts(all)[k]) == LinesOf(all[k]) {
      assert Fit(all[k]);
      SplitJoin(LinesOf(all[k]));
    }
  }

  /** The answer of ChunkText, in one statement: it fails exactly when the document makes more chunks than the
      cap; otherwise its texts, read back line by line and without the carried-over lines, are the document. */
  lemma ChunkTextKeepsAll(tok: Bytes -> nat, config: Config, content: Bytes)
    requires content != []
    ensures var cfg := Defaulted(config);
            var ls := Lines(content, cfg.maxLineWidth);
            var all := Chunks(tok, cfg, ls);
            && FreshAll(all) == ls
            && match Chunked(tok, config, content)
               case TooMany(n) => n == cfg.maxChunks + 1 <= |all|
               case Ok(texts) => |texts| == |all| <= cfg.maxChunks &&
                                 forall k :: 0 <= k < |all| ==> Split(texts[k]) == LinesOf(all[k])
  {
    var cfg := Defaulted(config);
    NothingLost(tok, cfg, Lines(content, cfg.maxLineWidth));
    ChunksReadBack(tok, cfg, content);
  }

  // ---- how large a chunk gets, and what two neighbours share ----

  lemma TokensFront(tok: Bytes -> nat, ls: seq<Bytes>, i: nat)
    requires i < |ls|
    ensures Tokens(tok, ls[i..]) == tok(ls[i]) + Tokens(tok, ls[i + 1..])
    decreases |ls|
  {
    var n := |ls| - 1;
    if i < n {
      TokensFront(tok, ls[..n], i);
      assert ls[i..][..n - i] == ls[..n][i..];
      assert ls[i + 1..][..n - i - 1] == ls[..n][i + 1..];
    } else {
      assert ls[i..][..0] == [];
    }
  }

  lemma {:induction false} TailFromIsLongest(tok: Bytes -> nat, ls: seq<Bytes>, budget: nat, i: nat, used: nat)
    requires i <= |ls| && used == Tokens(tok, ls[i..]) <= budget
    ensures var start := TailFrom(tok, ls, budget, i, used);
            && Tokens(tok, ls[start..]) <= budget
            && (start > 0 ==> Tokens(tok, ls[start - 1..]) > budget)
  {
    if i > 0 {
      TokensFront(tok, ls, i - 1);
      if used + tok(ls[i - 1]) <= budget {
        TailFromIsLongest(tok, ls, budget, i - 1, used + tok(ls[i - 1]));
      }
    }
  }

  lemma {:induction false} ShorterCosts(tok: Bytes -> nat, ls: seq<Bytes>, i: nat, j: nat)
    requires i <= j <= |ls|
    ensures Tokens(tok, ls[i..]) >= Tokens(tok, ls[j..])
    decreases j - i
  {
    if i < j {
      TokensFront(tok, ls, i);
      ShorterCosts(tok, ls, i + 1, j);
    }
  }

  /** The overlap is the longest tail of the chunk that stays within the overlap budget. */
  lemma OverlapIsLongestTail(tok: Bytes -> nat, ls: seq<Bytes>, budget: nat, i: nat)
    requires budget > 0 && i <= |ls|
    ensures var tail := OverlapTail(tok, ls, budget);
            && |tail| <= |ls| && tail == ls[|ls| - |tail|..] && Tokens(tok, tail) <= budget
            && (|ls| - i <= |tail| <==> Tokens(tok, ls[i..]) <= budget)
  {
    assert ls[|ls|..] == [];
    TailFromIsLongest(tok, ls, budget, |ls|, 0);
    var start := TailFrom(tok, ls, budget, |ls|, 0);
    if start <= i {
      ShorterCosts(tok, ls, start, i);
    } else {
      ShorterCosts(tok, ls, i, start - 1);
    }
  }

  predicate NoHeadings(ls: seq<Bytes>) {
    forall i :: 0 <= i < |ls| ==> !Heading(ls[i])
  }

  function Max(a: nat, b: nat): nat {
    if a >= b then a else b
  }

  predicate Bounded(tok: Bytes -> nat, cfg: Config, longest: nat, items: seq<Item>) {
    Tokens(tok, LinesOf(items)) <= Max(if cfg.targetTokens > 0 then cfg.targetTokens else 0, OverlapTokens(cfg) + longest)
  }

  /** The carried-over tail of the one opens the other. */
  predicate Overlaps(tok: Bytes -> nat, cfg: Config, prev: seq<Item>, next: seq<Item>) {
    Carried(OverlapTail(tok, LinesOf(prev), OverlapTokens(cfg))) <= next
  }

  predicate Plainly(tok: Bytes -> nat, cfg: Config, longest: nat, st: State) {
    && (forall k :: 0 <= k < |st.closed| ==> Bounded(tok, cfg, longest, st.closed[k]))
    && (forall k :: 0 <= k < |st.closed| - 1 ==> Overlaps(tok, cfg, st.closed[k], st.closed[k + 1]))
    && Bounded(tok, cfg, longest, st.curr) && NoHeadings(LinesOf(st.curr))
    && (st.closed != [] ==> Overlaps(tok, cfg, st.closed[|st.closed| - 1], st.curr))
  }

  lemma PlainTail(tok: Bytes -> nat, cfg: Config, st: State)
    requires st.curr != [] && NoHeadings(LinesOf(st.curr))
    ensures var tail := Carried(OverlapTail(tok, LinesOf(st.curr), OverlapTokens(cfg)));
            && Closed(tok, cfg, st) == State(st.closed + [st.curr], tail)
            && NoHeadings(LinesOf(tail)) && Tokens(tok, LinesOf(tail)) <= OverlapTokens(cfg)
  {
    var items := st.curr;
    var ls := LinesOf(items);
    assert CloseIndex(ls, cfg.overlapRatio) == |items| && items[..|items|] == items && items[|items|..] == [];
    OverlapIsLongestTail(tok, ls, OverlapTokens(cfg), |ls|);
    var tail := OverlapTail(tok, ls, OverlapTokens(cfg));
    LinesOfCarried(tail);
    assert [] + Carried(tail) == Carried(tail);
  }

  lemma PlainStore(tok: Bytes -> nat, cfg: Config, longest: nat, st: State, tail: seq<Item>)
    requires Plainly(tok, cfg, longest, st) && NoHeadings(LinesOf(tail))
    requires Overlaps(tok, cfg, st.curr, tail) && Bounded(tok, cfg, longest, tail)
    ensures Plainly(tok, cfg, longest, State(st.closed + [st.curr], tail))
  {
  }

  lemma PlainClose(tok: Bytes -> nat, cfg: Config, longest: nat, st: State)
    requires Plainly(tok, cfg, longest, st) && st.curr != []
    ensures var after := Closed(tok, cfg, st);
            Plainly(tok, cfg, longest, after) && Tokens(tok, LinesOf(after.curr)) <= OverlapTokens(cfg)
  {
    PlainTail(tok, cfg, st);
    PlainStore(tok, cfg, longest, st, Closed(tok, cfg, st).curr);
  }

  lemma PlainLine(tok: Bytes -> nat, cfg: Config, longest: nat, st: State, line: Bytes)
    requires Plainly(tok, cfg, longest, st) && tok(line) <= longest && !Heading(line)
    requires Tokens(tok, LinesOf(st.curr)) <= OverlapTokens(cfg) || Tokens(tok, LinesOf(st.curr)) + tok(line) <= cfg.targetTokens
    ensures Plainly(tok, cfg, longest, st.(curr := st.curr + [Item(line, true)]))
  {
    LineAdded(tok, st, line);
  }

  lemma {:induction false} WalkPlainly(tok: Bytes -> nat, cfg: Config, ls: seq<Bytes>, longest: nat)
    requires NoHeadings(ls) && forall i :: 0 <= i < |ls| ==> tok(ls[i]) <= longest
    ensures Plainly(tok, cfg, longest, Walk(tok, cfg, ls))
  {
    if ls != [] {
      var n := |ls| - 1;
      var before := Walk(tok, cfg, ls[..n]);
      WalkPlainly(tok, cfg, ls[..n], longest);
      if MustClose(tok, cfg, before, ls[n]) {
        PlainClose(tok, cfg, longest, before);
      }
      PlainLine(tok, cfg, longest, Ready(tok, cfg, before, ls[n]), ls[n]);
    }
  }

  /** Without headings no chunk exceeds the target, or the overlap plus the longest line, and each chunk after the
      first opens with the overlap of the one before it. */
  lemma PlainChunks(tok: Bytes -> nat, cfg: Config, ls: seq<Bytes>, longest: nat)
    requires NoHeadings(ls) && forall i :: 0 <= i < |ls| ==> tok(ls[i]) <= longest
    ensures var all := Chunks(tok, cfg, ls);
            && (forall k :: 0 <= k < |all| ==> Bounded(tok, cfg, longest, all[k]))
            && (forall k :: 0 <= k < |all| - 1 ==> Overlaps(tok, cfg, all[k], all[k + 1]))
  {
    WalkPlainly(tok, cfg, ls, longest);
  }

  /** The next chunk starts with the heading the last one was closed before, or with its overlap. */
  predicate Follows(tok: Bytes -> nat, cfg: Config, prev: seq<Item>, next: seq<Item>) {
    var tail := Carried(OverlapTail(tok, LinesOf(prev), OverlapTokens(cfg)));
    next != [] ==> Heading(next[0].line) || tail <= next || next <= tail
  }

  predicate Opens(tok: Bytes -> nat, cfg: Config, prev: seq<Item>, curr: seq<Item>) {
    (curr != [] && Heading(curr[0].line)) || Overlaps(tok, cfg, prev, curr)
  }

  predicate Snapped(tok: Bytes -> nat, cfg: Config, st: State) {
    && (forall k :: 0 <= k < |st.closed| - 1 ==> Follows(tok, cfg, st.closed[k], st.closed[k + 1]))
    && (st.closed != [] ==> Opens(tok, cfg, st.closed[|st.closed| - 1], st.curr))
  }

  lemma SnapClose(tok: Bytes -> nat, cfg: Config, st: State)
    requires Snapped(tok, cfg, st) && st.curr != []
    ensures Snapped(tok, cfg, Closed(tok, cfg, st))
  {
    var c := CloseIndex(LinesOf(st.curr), cfg.overlapRatio);
    var chunk := st.curr[..c];
    var tail := Carried(OverlapTail(tok, LinesOf(chunk), OverlapTokens(cfg)));
    if c == |st.curr| {
      assert st.curr[c..] + tail == tail;
    } else {
      assert (st.curr[c..] + tail)[0] == st.curr[c];
    }
    if st.closed != [] {
      var prev := st.closed[|st.closed| - 1];
      assert chunk <= st.curr;
      assert Follows(tok, cfg, prev, chunk);
    }
  }

  lemma OpensLonger(tok: Bytes -> nat, cfg: Config, prev: seq<Item>, curr: seq<Item>, more: seq<Item>)
    requires Opens(tok, cfg, prev, curr)
    ensures Opens(tok, cfg, prev, curr + more)
  {
    assert curr <= curr + more;
  }

  lemma SnapLine(tok: Bytes -> nat, cfg: Config, st: State, line: Bytes)
    requires Snapped(tok, cfg, st)
    ensures Snapped(tok, cfg, st.(curr := st.curr + [Item(line, true)]))
  {
    if st.closed != [] {
      OpensLonger(tok, cfg, st.closed[|st.closed| - 1], st.curr, [Item(line, true)]);
    }
  }

  lemma {:induction false} WalkSnaps(tok: Bytes -> nat, cfg: Config, ls: seq<Bytes>)
    ensures Snapped(tok, cfg, Walk(tok, cfg, ls))
  {
    if ls != [] {
      var n := |ls| - 1;
      var before := Walk(tok, cfg, ls[..n]);
      WalkSnaps(tok, cfg, ls[..n]);
      if MustClose(tok, cfg, before, ls[n]) {
        SnapClose(tok, cfg, before);
      }
      SnapLine(tok, cfg, Ready(tok, cfg, before, ls[n]), ls[n]);
    }
  }

  /** With any mix of headings, every chunk but the first starts at a heading or inside the overlap of the one before. */
  lemma ChunksFollow(tok: Bytes -> nat, cfg: Config, ls: seq<Bytes>)
    ensures var all := Chunks(tok, cfg, ls);
            forall k :: 0 <= k < |all| - 1 ==> Follows(tok, cfg, all[k], all[k + 1])
  {
    WalkSnaps(tok, cfg, ls);
    var st := Walk(tok, cfg, ls);
    if st.closed != [] {
      var prev := st.closed[|st.closed| - 1];
      assert Opens(tok, cfg, prev, st.curr);
      assert Follows(tok, cfg, prev, st.curr);
    }
  }
}
