/** Where the lines of each chunk stood in the document, and when every chunk is a contiguous run of them. */
module ChunkOrder {
  import opened TextChunker
  import opened Utf8

  /** The positions, in the document, of the lines of the chunks closed so far and of the one being filled. */
  datatype Places = Places(closed: seq<seq<nat>>, curr: seq<nat>)

  function OverlapStart(tok: Bytes -> nat, cfg: Config, chunk: seq<Bytes>): (start: nat)
    ensures start <= |chunk|
  {
    TailFrom(tok, chunk, OverlapTokens(cfg), |chunk|, 0)
  }

  function CloseAt(cfg: Config, curr: seq<Item>): (c: nat)
    ensures c <= |curr|
  {
    CloseIndex(LinesOf(curr), cfg.overlapRatio)
  }

  function Moved(tok: Bytes -> nat, cfg: Config, curr: seq<Item>, at: Places): Places
    requires |at.curr| == |curr|
  {
    var c := CloseAt(cfg, curr);
    Places(at.closed + [at.curr[..c]], at.curr[c..] + at.curr[OverlapStart(tok, cfg, LinesOf(curr[..c]))..c])
  }

  /** The positions once the chunk has been closed, if it must be. */
  function ReadyPlaces(tok: Bytes -> nat, cfg: Config, st: State, at: Places, line: Bytes): Places
    requires |at.curr| == |st.curr|
  {
    if MustClose(tok, cfg, st, line) then Moved(tok, cfg, st.curr, at) else at
  }

  lemma MovedLength(tok: Bytes -> nat, cfg: Config, st: State)
    ensures var c := CloseAt(cfg, st.curr);
            st.curr != [] ==>
            |Closed(tok, cfg, st).curr| == |st.curr| - OverlapStart(tok, cfg, LinesOf(st.curr[..c]))
  {
  }

  /** The positions behind Walk. */
  function Where(tok: Bytes -> nat, cfg: Config, ls: seq<Bytes>): (at: Places)
    ensures |at.curr| == |Walk(tok, cfg, ls).curr|
  {
    if ls == [] then Places([], [])
    else
      var n := |ls| - 1;
      var st := Walk(tok, cfg, ls[..n]);
      var before := Where(tok, cfg, ls[..n]);
      MovedLength(tok, cfg, st);
      var at := ReadyPlaces(tok, cfg, st, before, ls[n]);
      Places(at.closed, at.curr + [n])
  }

  function AllPlaces(tok: Bytes -> nat, cfg: Config, ls: seq<Bytes>): seq<seq<nat>> {
    var at := Where(tok, cfg, ls);
    if at.curr == [] then at.closed else at.closed + [at.curr]
  }

  /** The items are the lines of the document at these positions. */
  predicate Stands(ls: seq<Bytes>, items: seq<Item>, ps: seq<nat>) {
    |items| == |ps| && forall k :: 0 <= k < |ps| ==> ps[k] < |ls| && items[k].line == ls[ps[k]]
  }

  predicate Tracks(ls: seq<Bytes>, st: State, at: Places) {
    && Stands(ls, st.curr, at.curr) && |st.closed| == |at.closed|
    && forall j :: 0 <= j < |at.closed| ==> Stands(ls, st.closed[j], at.closed[j])
  }

  /** What is left behind the snap, then the overlap. */
  lemma ClosedIs(tok: Bytes -> nat, cfg: Config, st: State)
    requires st.curr != []
    ensures var chunk := st.curr[..CloseAt(cfg, st.curr)];
            var tail := LinesOf(chunk)[OverlapStart(tok, cfg, LinesOf(chunk))..];
            Closed(tok, cfg, st) == State(st.closed + [chunk], st.curr[|chunk|..] + Carried(tail))
  {
  }

  lemma StandsMoved(ls: seq<Bytes>, curr: seq<Item>, ps: seq<nat>, c: nat, s: nat)
    requires Stands(ls, curr, ps) && s <= c <= |curr|
    ensures Stands(ls, curr[..c], ps[..c])
    ensures Stands(ls, curr[c..] + Carried(LinesOf(curr[..c])[s..]), ps[c..] + ps[s..c])
  {
  }

  lemma TracksMore(ls: seq<Bytes>, st: State, at: Places, items: seq<Item>, ps: seq<nat>, curr: seq<Item>, qs: seq<nat>)
    requires Tracks(ls, st, at) && Stands(ls, items, ps) && Stands(ls, curr, qs)
    ensures Tracks(ls, State(st.closed + [items], curr), Places(at.closed + [ps], qs))
  {
  }

  lemma TracksClose(tok: Bytes -> nat, cfg: Config, ls: seq<Bytes>, st: State, at: Places)
    requires Tracks(ls, st, at) && st.curr != []
    ensures Tracks(ls, Closed(tok, cfg, st), Moved(tok, cfg, st.curr, at))
  {
    var c := CloseAt(cfg, st.curr);
    var s := OverlapStart(tok, cfg, LinesOf(st.curr[..c]));
    ClosedIs(tok, cfg, st);
    StandsMoved(ls, st.curr, at.curr, c, s);
    TracksMore(ls, st, at, st.curr[..c], at.curr[..c], st.curr[c..] + Carried(LinesOf(st.curr[..c])[s..]),
               at.curr[c..] + at.curr[s..c]);
  }

  lemma TracksLine(ls: seq<Bytes>, line: Bytes, st: State, at: Places)
    requires Tracks(ls, st, at)
    ensures Tracks(ls + [line], st.(curr := st.curr + [Item(line, true)]), Places(at.closed, at.curr + [|ls|]))
  {
  }

  lemma TracksReady(tok: Bytes -> nat, cfg: Config, ls: seq<Bytes>, st: State, at: Places, line: Bytes)
    requires Tracks(ls, st, at)
    ensures Tracks(ls, Ready(tok, cfg, st, line), ReadyPlaces(tok, cfg, st, at, line))
  {
    if MustClose(tok, cfg, st, line) {
      TracksClose(tok, cfg, ls, st, at);
    }
  }

  lemma {:induction false} WhereTracks(tok: Bytes -> nat, cfg: Config, ls: seq<Bytes>)
    ensures Tracks(ls, Walk(tok, cfg, ls), Where(tok, cfg, ls))
  {
    if ls != [] {
      var n := |ls| - 1;
      var st, at := Walk(tok, cfg, ls[..n]), Where(tok, cfg, ls[..n]);
      WhereTracks(tok, cfg, ls[..n]);
      TracksReady(tok, cfg, ls[..n], st, at, ls[n]);
      TracksLine(ls[..n], ls[n], Ready(tok, cfg, st, ls[n]), ReadyPlaces(tok, cfg, st, at, ls[n]));
      assert ls == ls[..n] + [ls[n]];
    }
  }
  // ---- contiguous runs

  predicate Contiguous(ps: seq<nat>) {
    forall k :: 0 <= k < |ps| - 1 ==> ps[k + 1] == ps[k] + 1
  }

  /** A contiguous chunk is a slice of the document. */
  lemma ContiguousIsSlice(ls: seq<Bytes>, items: seq<Item>, ps: seq<nat>)
    requires Stands(ls, items, ps) && Contiguous(ps) && ps != []
    ensures ps[0] + |ps| <= |ls| && LinesOf(items) == ls[ps[0]..ps[0] + |ps|]
  {
    Counts(ps, |ps| - 1);
    forall k | 0 <= k < |ps| ensures ps[k] == ps[0] + k {
      Counts(ps, k);
    }
  }

  lemma {:induction false} Counts(ps: seq<nat>, k: nat)
    requires Contiguous(ps) && k < |ps|
    ensures ps[k] == ps[0] + k
  {
    if k > 0 {
      Counts(ps, k - 1);
      assert ps[k - 1 + 1] == ps[k - 1] + 1;
    }
  }

  /** Closing the chunk leaves lines behind a heading and carries lines from before it. */
  predicate Leaps(tok: Bytes -> nat, cfg: Config, curr: seq<Item>) {
    var c := CloseAt(cfg, curr);
    0 < c < |curr| && tok(curr[c - 1].line) <= OverlapTokens(cfg)
  }

  /** No close on the way through the document leaps. */
  predicate NoLeap(tok: Bytes -> nat, cfg: Config, ls: seq<Bytes>) {
    ls == [] ||
    (var n := |ls| - 1;
     var st := Walk(tok, cfg, ls[..n]);
     NoLeap(tok, cfg, ls[..n]) && !(MustClose(tok, cfg, st, ls[n]) && Leaps(tok, cfg, st.curr)))
  }

  /** All in order so far: n lines have been seen. */
  predicate InOrder(at: Places, n: nat) {
    && (forall j :: 0 <= j < |at.closed| ==> Contiguous(at.closed[j]))
    && Contiguous(at.curr) && (at.curr != [] ==> at.curr[|at.curr| - 1] == n - 1)
  }

  lemma OverlapIffFits(tok: Bytes -> nat, cfg: Config, chunk: seq<Bytes>)
    requires chunk != []
    ensures OverlapStart(tok, cfg, chunk) < |chunk| <==> tok(chunk[|chunk| - 1]) <= OverlapTokens(cfg)
  {
  }

  lemma InOrderMoved(at: Places, c: nat, s: nat, n: nat)
    requires InOrder(at, n) && s <= c <= |at.curr| && (c == |at.curr| || s == c)
    ensures InOrder(Places(at.closed + [at.curr[..c]], at.curr[c..] + at.curr[s..c]), n)
  {
    if c == |at.curr| {
      assert at.curr[c..] + at.curr[s..c] == at.curr[s..];
    } else {
      assert at.curr[c..] + at.curr[s..c] == at.curr[c..];
    }
  }

  lemma InOrderClose(tok: Bytes -> nat, cfg: Config, curr: seq<Item>, at: Places, n: nat)
    requires curr != [] && |at.curr| == |curr| && InOrder(at, n) && !Leaps(tok, cfg, curr)
    ensures InOrder(Moved(tok, cfg, curr, at), n)
  {
    var chunk := LinesOf(curr[..CloseAt(cfg, curr)]);
    OverlapIffFits(tok, cfg, chunk);
    InOrderMoved(at, |chunk|, OverlapStart(tok, cfg, chunk), n);
  }

  lemma InOrderLine(at: Places, n: nat)
    requires InOrder(at, n)
    ensures InOrder(Places(at.closed, at.curr + [n]), n + 1)
  {
  }

  lemma {:induction false} NoLeapInOrder(tok: Bytes -> nat, cfg: Config, ls: seq<Bytes>)
    requires NoLeap(tok, cfg, ls)
    ensures InOrder(Where(tok, cfg, ls), |ls|)
  {
    if ls != [] {
      var n := |ls| - 1;
      var st, at := Walk(tok, cfg, ls[..n]), Where(tok, cfg, ls[..n]);
      NoLeapInOrder(tok, cfg, ls[..n]);
      if MustClose(tok, cfg, st, ls[n]) {
        InOrderClose(tok, cfg, st.curr, at, n);
      }
      InOrderLine(ReadyPlaces(tok, cfg, st, at, ls[n]), n);
    }
  }

  // ---- a leap cannot be undone

  predicate Breaks(ps: seq<nat>, b: nat) {
    1 <= b < |ps| && ps[b] != ps[b - 1] + 1
  }

  /** No heading stands at positions 1 to b - 1: a close does not cut before b. */
  predicate Uncut(ls: seq<Bytes>, b: nat) {
    forall k :: 1 <= k < b && k < |ls| ==> !Heading(ls[k])
  }

  /** However the chunk is closed, it has a break. */
  predicate BreaksNow(ps: seq<nat>, ls: seq<Bytes>, b: nat) {
    Breaks(ps, b) && Uncut(ls, b + 1)
  }

  /** Only closing it at b avoids the break there, and then what is left has one, at e. */
  predicate BreaksThen(ps: seq<nat>, ls: seq<Bytes>, b: nat, e: nat) {
    Breaks(ps, b) && Uncut(ls, b) && b < e && Breaks(ps, e)
  }

  ghost predicate Spoiled(ps: seq<nat>, ls: seq<Bytes>) {
    (exists b: nat :: BreaksNow(ps, ls, b)) || (exists b: nat, e: nat :: BreaksThen(ps, ls, b, e))
  }

  ghost predicate OutOfOrder(at: Places, curr: seq<Item>) {
    (exists j :: 0 <= j < |at.closed| && !Contiguous(at.closed[j])) || Spoiled(at.curr, LinesOf(curr))
  }

  /** One more line does not mend it. */
  lemma SpoiledLine(ps: seq<nat>, ls: seq<Bytes>, p: nat, line: Bytes)
    requires |ps| == |ls| && Spoiled(ps, ls)
    ensures Spoiled(ps + [p], ls + [line])
  {
    if b: nat :| BreaksNow(ps, ls, b) {
      assert BreaksNow(ps + [p], ls + [line], b);
    } else {
      var b: nat, e: nat :| BreaksThen(ps, ls, b, e);
      assert BreaksThen(ps + [p], ls + [line], b, e);
    }
  }

  lemma NotContiguous(ps: seq<nat>, b: nat)
    requires Breaks(ps, b)
    ensures !Contiguous(ps)
  {
    assert ps[b - 1 + 1] != ps[b - 1] + 1;
  }

  /** A place to close at: the end, or before the last heading of the lines. */
  predicate Closes(ls: seq<Bytes>, c: nat) {
    1 <= c <= |ls| && (c < |ls| ==> Heading(ls[c])) && forall k :: c < k < |ls| ==> !Heading(ls[k])
  }

  /** Nor does a close: the chunk has a break, or what is left has one and is not cut again. */
  lemma SpoiledClose(ps: seq<nat>, ls: seq<Bytes>, c: nat, more: seq<nat>, others: seq<Bytes>)
    requires |ps| == |ls| && Spoiled(ps, ls) && Closes(ls, c)
    ensures !Contiguous(ps[..c]) || Spoiled(ps[c..] + more, ls[c..] + others)
  {
    if b: nat :| BreaksNow(ps, ls, b) {
      assert Breaks(ps[..c], b);
      NotContiguous(ps[..c], b);
    } else {
      var b: nat, e: nat :| BreaksThen(ps, ls, b, e);
      assert c >= b;
      if c > b {
        NotContiguous(ps[..c], b);
      } else {
        assert BreaksNow(ps[c..] + more, ls[c..] + others, e - c);
      }
    }
  }

  /** A leap out of order: the lines left behind the heading, then earlier ones, then a new one. */
  lemma LeapSpoils(ps: seq<nat>, ls: seq<Bytes>, c: nat, s: nat, n: nat, others: seq<Bytes>)
    requires |ps| == |ls| && Contiguous(ps) && Closes(ls, c) && s < c < |ls| && ps[|ps| - 1] == n - 1
    requires |others| == c - s + 1
    ensures Spoiled(ps[c..] + ps[s..c] + [n], ls[c..] + others)
  {
    var qs := ps[c..] + ps[s..c] + [n];
    var b, e := |ps| - c, |ps| - s;
    Counts(ps, |ps| - 1);
    Counts(ps, s);
    Counts(ps, c - 1);
    assert qs[b] == ps[s] && qs[b - 1] == ps[|ps| - 1];
    assert qs[e] == n && qs[e - 1] == ps[c - 1];
    assert BreaksThen(qs, ls[c..] + others, b, e);
  }
  lemma ClosesThere(cfg: Config, curr: seq<Item>)
    requires curr != []
    ensures Closes(LinesOf(curr), CloseAt(cfg, curr))
  {
  }

  /** The lines of the new chunk: what is left, then the rest. */
  lemma LinesAfterClose(tok: Bytes -> nat, cfg: Config, st: State, line: Bytes) returns (others: seq<Bytes>)
    requires st.curr != []
    ensures var c := CloseAt(cfg, st.curr);
            && |others| == c - OverlapStart(tok, cfg, LinesOf(st.curr[..c])) + 1
            && LinesOf(Closed(tok, cfg, st).curr + [Item(line, true)]) == LinesOf(st.curr)[c..] + others
  {
    var c := CloseAt(cfg, st.curr);
    ClosedIs(tok, cfg, st);
    var chunk := LinesOf(st.curr[..c]);
    others := chunk[OverlapStart(tok, cfg, chunk)..] + [line];
  }

  /** A step of the walk in which a close leaps. */
  lemma LeapStep(tok: Bytes -> nat, cfg: Config, st: State, at: Places, n: nat, line: Bytes)
    requires |at.curr| == |st.curr| && InOrder(at, n) && Leaps(tok, cfg, st.curr)
    ensures var next := Moved(tok, cfg, st.curr, at);
            OutOfOrder(Places(next.closed, next.curr + [n]), Closed(tok, cfg, st).curr + [Item(line, true)])
  {
    var c := CloseAt(cfg, st.curr);
    var chunk := LinesOf(st.curr[..c]);
    var s := OverlapStart(tok, cfg, chunk);
    OverlapIffFits(tok, cfg, chunk);
    ClosesThere(cfg, st.curr);
    var others := LinesAfterClose(tok, cfg, st, line);
    LeapSpoils(at.curr, LinesOf(st.curr), c, s, n, others);
  }

  /** A step of the walk in which a chunk that is out of order is closed. */
  lemma SpoiledStep(tok: Bytes -> nat, cfg: Config, st: State, at: Places, n: nat, line: Bytes)
    requires |at.curr| == |st.curr| && st.curr != [] && OutOfOrder(at, st.curr)
    ensures var next := Moved(tok, cfg, st.curr, at);
            OutOfOrder(Places(next.closed, next.curr + [n]), Closed(tok, cfg, st).curr + [Item(line, true)])
  {
    var next := Moved(tok, cfg, st.curr, at);
    var c := CloseAt(cfg, st.curr);
    var s := OverlapStart(tok, cfg, LinesOf(st.curr[..c]));
    if j :| 0 <= j < |at.closed| && !Contiguous(at.closed[j]) {
      assert next.closed[j] == at.closed[j];
    } else {
      ClosesThere(cfg, st.curr);
      var others := LinesAfterClose(tok, cfg, st, line);
      SpoiledClose(at.curr, LinesOf(st.curr), c, at.curr[s..c] + [n], others);
      assert at.curr[c..] + (at.curr[s..c] + [n]) == next.curr + [n];
      assert next.closed[|at.closed|] == at.curr[..c];
    }
  }

  /** A step of the walk without a close. */
  lemma SpoiledStays(st: State, at: Places, n: nat, line: Bytes)
    requires |at.curr| == |st.curr| && OutOfOrder(at, st.curr)
    ensures OutOfOrder(Places(at.closed, at.curr + [n]), st.curr + [Item(line, true)])
  {
    if Spoiled(at.curr, LinesOf(st.curr)) {
      SpoiledLine(at.curr, LinesOf(st.curr), n, line);
      assert LinesOf(st.curr + [Item(line, true)]) == LinesOf(st.curr) + [line];
    }
  }

  lemma {:induction false} LeapIsLasting(tok: Bytes -> nat, cfg: Config, ls: seq<Bytes>)
    requires !NoLeap(tok, cfg, ls)
    ensures OutOfOrder(Where(tok, cfg, ls), Walk(tok, cfg, ls).curr)
  {
    var n := |ls| - 1;
    var st, at := Walk(tok, cfg, ls[..n]), Where(tok, cfg, ls[..n]);
    if NoLeap(tok, cfg, ls[..n]) {
      NoLeapInOrder(tok, cfg, ls[..n]);
      LeapStep(tok, cfg, st, at, n, ls[n]);
    } else {
      LeapIsLasting(tok, cfg, ls[..n]);
      if MustClose(tok, cfg, st, ls[n]) {
        SpoiledStep(tok, cfg, st, at, n, ls[n]);
      } else {
        SpoiledStays(st, at, n, ls[n]);
      }
    }
  }

  /** Every chunk of a document is a contiguous run of its lines exactly if no close leaps: wherever one snaps
      at a heading, the line before the heading exceeds the overlap budget, so that nothing is carried. */
  lemma InOrderIff(tok: Bytes -> nat, cfg: Config, ls: seq<Bytes>)
    ensures (forall j :: 0 <= j < |AllPlaces(tok, cfg, ls)| ==> Contiguous(AllPlaces(tok, cfg, ls)[j])) <==>
            NoLeap(tok, cfg, ls)
  {
    var at := Where(tok, cfg, ls);
    var all := AllPlaces(tok, cfg, ls);
    if NoLeap(tok, cfg, ls) {
      NoLeapInOrder(tok, cfg, ls);
    } else {
      LeapIsLasting(tok, cfg, ls);
      if j :| 0 <= j < |at.closed| && !Contiguous(at.closed[j]) {
        assert all[j] == at.closed[j];
      } else {
        var b: nat :| Breaks(at.curr, b);
        NotContiguous(at.curr, b);
        assert all[|at.closed|] == at.curr;
      }
    }
  }

  /** The texts of the chunks are the lines at these positions. */
  lemma PlacesOfChunks(tok: Bytes -> nat, cfg: Config, ls: seq<Bytes>)
    ensures |AllPlaces(tok, cfg, ls)| == |Chunks(tok, cfg, ls)|
    ensures forall j :: 0 <= j < |AllPlaces(tok, cfg, ls)| ==>
              Stands(ls, Chunks(tok, cfg, ls)[j], AllPlaces(tok, cfg, ls)[j])
  {
    WhereTracks(tok, cfg, ls);
  }

  function OneEach(): Bytes -> nat {
    line => 1
  }

  /** Chunks of two lines, overlapping by one. */
  const PAIRS := Config(2, 0.5, 100, 10)

  lemma WalkOn(tok: Bytes -> nat, cfg: Config, ls: seq<Bytes>, line: Bytes)
    ensures Walk(tok, cfg, ls + [line]) == Accepted(tok, cfg, Walk(tok, cfg, ls), line)
  {
    assert (ls + [line])[..|ls|] == ls;
  }

  lemma FirstLine(a: Bytes)
    ensures Accepted(OneEach(), PAIRS, State([], []), a) == State([], [Item(a, true)])
  {
  }

  lemma HeadingFits(a: Bytes, h: Bytes)
    ensures Accepted(OneEach(), PAIRS, State([], [Item(a, true)]), h) == State([], [Item(a, true), Item(h, true)])
  {
    assert LinesOf([Item(a, true)]) == [a] && [a][..0] == [] && Tokens(OneEach(), [a]) == 1;
  }

  lemma Halves()
    ensures OverlapTokens(PAIRS) == 1 && Lookback(2, PAIRS.overlapRatio) == 1
  {
  }

  lemma SnapsAndCarries(a: Bytes, h: Bytes)
    requires Heading(h)
    ensures Closed(OneEach(), PAIRS, State([], [Item(a, true), Item(h, true)])) ==
            State([[Item(a, true)]], [Item(h, true), Item(a, false)])
  {
    var two := [Item(a, true), Item(h, true)];
    Halves();
    assert LinesOf(two) == [a, h] && CloseIndex([a, h], PAIRS.overlapRatio) == 1;
    assert two[..1] == [Item(a, true)] && LinesOf(two[..1]) == [a] && OverlapTail(OneEach(), [a], 1) == [a];
    assert two[1..] + Carried([a]) == [Item(h, true), Item(a, false)];
  }

  lemma TwoAreFull(tok: Bytes -> nat, cfg: Config, x: Item, y: Item, b: Bytes)
    requires tok(x.line) == tok(y.line) == tok(b) == 1 && cfg.targetTokens == 2
    ensures MustClose(tok, cfg, State([], [x, y]), b)
  {
    var ls := [x.line, y.line];
    assert LinesOf([x, y]) == ls && ls[..1] == [x.line] && [x.line][..0] == [];
    assert Tokens(tok, [x.line]) == 1;
    assert Tokens(tok, ls) == 2;
  }

  lemma AfterClose(tok: Bytes -> nat, cfg: Config, st: State, next: State, b: Bytes)
    requires MustClose(tok, cfg, st, b) && Closed(tok, cfg, st) == next
    ensures Accepted(tok, cfg, st, b) == State(next.closed, next.curr + [Item(b, true)])
  {
  }

  lemma LineLeaps(a: Bytes, h: Bytes, b: Bytes)
    requires Heading(h)
    ensures Accepted(OneEach(), PAIRS, State([], [Item(a, true), Item(h, true)]), b) ==
            State([[Item(a, true)]], [Item(h, true), Item(a, false), Item(b, true)])
  {
    var next := State([[Item(a, true)]], [Item(h, true), Item(a, false)]);
    SnapsAndCarries(a, h);
    TwoAreFull(OneEach(), PAIRS, Item(a, true), Item(h, true), b);
    AfterClose(OneEach(), PAIRS, State([], [Item(a, true), Item(h, true)]), next, b);
  }

  lemma LeapWalk(a: Bytes, h: Bytes, b: Bytes)
    requires Heading(h)
    ensures Walk(OneEach(), PAIRS, [] + [a] + [h] + [b]) ==
            State([[Item(a, true)]], [Item(h, true), Item(a, false), Item(b, true)])
  {
    WalkOn(OneEach(), PAIRS, [], a);
    WalkOn(OneEach(), PAIRS, [] + [a], h);
    WalkOn(OneEach(), PAIRS, [] + [a] + [h], b);
    FirstLine(a);
    HeadingFits(a, h);
    LineLeaps(a, h, b);
  }

  /** A line, a heading and a line, all different: the second chunk is no slice of the document. */
  lemma LeapExample(a: Bytes, h: Bytes, b: Bytes)
    requires Heading(h) && a != h && h != b && a != b
    ensures var all := Chunks(OneEach(), PAIRS, [a, h, b]);
            |all| == 2 && forall i, j :: 0 <= i <= j <= 3 ==> LinesOf(all[1]) != [a, h, b][i..j]
  {
    LeapWalk(a, h, b);
    assert [] + [a] + [h] + [b] == [a, h, b];
    var second := LinesOf(Chunks(OneEach(), PAIRS, [a, h, b])[1]);
    assert second == [h, a, b] && second[0] == h;
    forall i, j | 0 <= i <= j <= 3 ensures second != [a, h, b][i..j] {
      assert j - i == 3 ==> [a, h, b][i..j][0] == a;
    }
  }

  /** Chunks of four tokens, overlapping by two. */
  const FOURS := Config(4, 0.7, 100, 10)

  function Heavy(a: Bytes, d: Bytes): Bytes -> nat {
    line => if line == a || line == d then 2 else 1
  }

  lemma Sevenths()
    ensures OverlapTokens(FOURS) == 2 && Lookback(3, FOURS.overlapRatio) == 2
  {
  }

  lemma Weight(tok: Bytes -> nat, x: Bytes, y: Bytes, z: Bytes)
    ensures Tokens(tok, [x]) == tok(x) && Tokens(tok, [x, y]) == tok(x) + tok(y)
    ensures Tokens(tok, [x, y, z]) == tok(x) + tok(y) + tok(z)
  {
    assert [x][..0] == [] && [x, y][..1] == [x] && [x, y, z][..2] == [x, y];
  }

  /** The first three lines fit one chunk. */
  lemma ThreeFit(a: Bytes, x: Bytes, y: Bytes, d: Bytes)
    requires x != a && x != d && y != a && y != d
    ensures Walk(Heavy(a, d), FOURS, [] + [a] + [x] + [y]) == State([], [Item(a, true), Item(x, true), Item(y, true)])
  {
    var tok := Heavy(a, d);
    WalkOn(tok, FOURS, [], a);
    WalkOn(tok, FOURS, [] + [a], x);
    WalkOn(tok, FOURS, [] + [a] + [x], y);
    Weight(tok, a, x, y);
    var one, two := [Item(a, true)], [Item(a, true), Item(x, true)];
    assert [] + one == one && one + [Item(x, true)] == two;
    assert two + [Item(y, true)] == [Item(a, true), Item(x, true), Item(y, true)];
    assert LinesOf(one) == [a] && LinesOf(two) == [a, x];
  }

  /** Closing a, x and y snaps at y and carries x. */
  lemma SnapsAtY(a: Bytes, x: Bytes, y: Bytes, d: Bytes)
    requires Heading(x) && Heading(y) && x != a && x != d
    ensures Closed(Heavy(a, d), FOURS, State([], [Item(a, true), Item(x, true), Item(y, true)])) ==
            State([[Item(a, true), Item(x, true)]], [Item(y, true), Item(x, false)])
  {
    var curr := [Item(a, true), Item(x, true), Item(y, true)];
    Sevenths();
    assert LinesOf(curr) == [a, x, y] && CloseIndex([a, x, y], FOURS.overlapRatio) == 2;
    assert curr[..2] == [Item(a, true), Item(x, true)] && LinesOf(curr[..2]) == [a, x];
    assert TailFrom(Heavy(a, d), [a, x], 2, 1, 1) == 1 && [a, x][1..] == [x];
    assert curr[2..] + Carried([x]) == [Item(y, true), Item(x, false)];
  }

  /** Closing y, the carried x and b snaps where the overlap begins, at x, and carries y. */
  lemma SnapsAtX(a: Bytes, x: Bytes, y: Bytes, b: Bytes, d: Bytes, closed: seq<seq<Item>>)
    requires Heading(x) && !Heading(b) && y != a && y != d
    ensures Closed(Heavy(a, d), FOURS, State(closed, [Item(y, true), Item(x, false), Item(b, true)])) ==
            State(closed + [[Item(y, true)]], [Item(x, false), Item(b, true), Item(y, false)])
  {
    var curr := [Item(y, true), Item(x, false), Item(b, true)];
    Sevenths();
    assert LinesOf(curr) == [y, x, b] && CloseIndex([y, x, b], FOURS.overlapRatio) == 1;
    assert curr[..1] == [Item(y, true)] && LinesOf(curr[..1]) == [y];
    assert OverlapTail(Heavy(a, d), [y], 2) == [y];
    assert curr[1..] + Carried([y]) == [Item(x, false), Item(b, true), Item(y, false)];
  }

  lemma FourthLeaps(a: Bytes, x: Bytes, y: Bytes, b: Bytes, d: Bytes)
    requires Heading(x) && Heading(y) && x != a && x != d && y != a && y != d && b != a && b != d
    ensures Accepted(Heavy(a, d), FOURS, State([], [Item(a, true), Item(x, true), Item(y, true)]), b) ==
            State([[Item(a, true), Item(x, true)]], [Item(y, true), Item(x, false), Item(b, true)])
  {
    var tok := Heavy(a, d);
    var three := State([], [Item(a, true), Item(x, true), Item(y, true)]);
    Weight(tok, a, x, y);
    assert LinesOf(three.curr) == [a, x, y];
    SnapsAtY(a, x, y, d);
    AfterClose(tok, FOURS, three, State([[Item(a, true), Item(x, true)]], [Item(y, true), Item(x, false)]), b);
    assert [Item(y, true), Item(x, false)] + [Item(b, true)] == [Item(y, true), Item(x, false), Item(b, true)];
  }

  lemma FifthCloses(a: Bytes, x: Bytes, y: Bytes, b: Bytes, d: Bytes, first: seq<Item>)
    requires Heading(x) && !Heading(b) && x != a && x != d && y != a && y != d && b != a && b != d
    ensures Accepted(Heavy(a, d), FOURS, State([first], [Item(y, true), Item(x, false), Item(b, true)]), d) ==
            State([first, [Item(y, true)]], [Item(x, false), Item(b, true), Item(y, false), Item(d, true)])
  {
    var tok := Heavy(a, d);
    var three := State([first], [Item(y, true), Item(x, false), Item(b, true)]);
    Weight(tok, y, x, b);
    assert LinesOf(three.curr) == [y, x, b];
    SnapsAtX(a, x, y, b, d, [first]);
    var next := [Item(x, false), Item(b, true), Item(y, false)];
    AfterClose(tok, FOURS, three, State([first] + [[Item(y, true)]], next), d);
    assert next + [Item(d, true)] == [Item(x, false), Item(b, true), Item(y, false), Item(d, true)];
  }

  /** The chunk right after a leap can be in order all the same, if it is cut where the overlap begins: of the document
      a, x, y, b, d the chunks are a x, then y, although x was carried behind it, then x b y d. */
  lemma LeapShowsLater(a: Bytes, x: Bytes, y: Bytes, b: Bytes, d: Bytes)
    requires Heading(x) && Heading(y) && !Heading(b)
    requires x != a && x != d && y != a && y != d && b != a && b != d
    ensures Walk(Heavy(a, d), FOURS, [] + [a] + [x] + [y] + [b] + [d]) ==
            State([[Item(a, true), Item(x, true)], [Item(y, true)]],
                  [Item(x, false), Item(b, true), Item(y, false), Item(d, true)])
  {
    ThreeFit(a, x, y, d);
    WalkOn(Heavy(a, d), FOURS, [] + [a] + [x] + [y], b);
    WalkOn(Heavy(a, d), FOURS, [] + [a] + [x] + [y] + [b], d);
    FourthLeaps(a, x, y, b, d);
    FifthCloses(a, x, y, b, d, [Item(a, true), Item(x, true)]);
  }
}
