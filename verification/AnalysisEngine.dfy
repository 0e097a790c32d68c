/** The analysis engine: one read-write instance on the session file, throwaway readers for the agent's SQL. */
module AnalysisEngine {
  import opened Options
  import opened Sequences

  type Row = seq<string>
  datatype Data = Data(columns: seq<string>, rows: seq<Row>)
  datatype Table = Table(data: Data, comment: string)
  datatype Meta = Meta(columns: seq<string>, rowCount: nat, description: string)
  type Database = map<string, Table>

  function MetaOf(t: Table): Meta {
    Meta(t.data.columns, |t.data.rows|, t.comment)
  }

  datatype Instance = OnWriter | OnReader

  /** A call into the database library or the file system: one whose failure the operation reports, a
      metadata query or the fetch of one of its rows, the drop of a table, SQL the agent wrote, or the
      fetch of one more row of its result. */
  datatype Call = Own | Metadata | Drop | Agent(sql: string, on: Instance) | NextRow

  /** A call and which instances held the session file while it ran. */
  datatype Event = Event(call: Call, writer: bool, reader: bool)

  /** The library: which calls fail, what a text parses to (None does not parse), what a query yields, what a
      statement does on a read-write instance, and what a data file holds. */
  datatype Library = Library(
    fails: nat -> bool, isSelect: string -> Option<bool>, eval: (string, Database) -> Option<Data>,
    effect: (string, Database) -> Database, load: string -> Option<Data>)

  predicate Letter(c: char) {
    'a' <= c <= 'z' || 'A' <= c <= 'Z' || c == '_'
  }

  predicate Identifier(s: string) {
    s != "" && Letter(s[0]) && forall i :: 0 <= i < |s| ==> Letter(s[i]) || '0' <= s[i] <= '9'
  }

  /** At most one instance on the file, and agent SQL only on a reader. */
  predicate SafeEvent(e: Event) {
    && !(e.writer && e.reader)
    && (e.call.Agent? ==> e.call.on.OnReader? && e.reader && !e.writer)
  }

  predicate Safe(trace: seq<Event>) {
    forall i :: 0 <= i < |trace| ==> SafeEvent(trace[i])
  }

  // ---- failures that are not reported

  /** No call from number c to number e fails. */
  predicate Quiet(fails: nat -> bool, c: nat, e: nat) {
    forall k :: c <= k < e ==> !fails(k)
  }

  /** No metadata query and no drop since call number c has failed. */
  predicate Heard(fails: nat -> bool, trace: seq<Event>, c: nat) {
    forall k :: c <= k < |trace| && (trace[k].call.Metadata? || trace[k].call.Drop?) ==> !fails(k)
  }

  /** No fetch of a row of the agent's result since call number c has failed. */
  predicate NoRowLost(fails: nat -> bool, trace: seq<Event>, c: nat) {
    forall k :: c <= k < |trace| && trace[k].call.NextRow? ==> !fails(k)
  }

  /** The column names a scan of them yields from call number c on, and the number of the next call: a
      fetch that fails ends the scan, a name that cannot be read is passed over. */
  function Scanned(fails: nat -> bool, c: nat, cols: seq<string>): (seq<string>, nat)
    decreases |cols|
  {
    if cols == [] then ([], c)
    else if fails(c) then ([], c + 1)
    else
      var (rest, e) := Scanned(fails, c + 2, cols[1..]);
      (if fails(c + 1) then rest else [cols[0]] + rest, e)
  }

  function Columns(fails: nat -> bool, c: nat, cols: seq<string>): (seq<string>, nat) {
    if fails(c) then ([], c + 1) else Scanned(fails, c + 1, cols)
  }

  /** The metadata read from call number c on, and the number of the next call. */
  function Refreshed(fails: nat -> bool, c: nat, t: Table): (Meta, nat) {
    var (cols, e) := Columns(fails, c, t.data.columns);
    (Meta(cols, if fails(e) then 0 else |t.data.rows|, if fails(e + 1) then "" else t.comment), e + 2)
  }

  predicate Lists(order: seq<string>, file: Database) {
    && (forall i :: 0 <= i < |order| ==> order[i] in file)
    && (forall i, j :: 0 <= i < j < |order| ==> order[i] != order[j])
    && (forall n :: n in file ==> n in order)
  }

  /** The map after the scan of the listed names from call number c on. */
  function Rescanned(fails: nat -> bool, c: nat, order: seq<string>, file: Database, tables: map<string, Meta>):
    map<string, Meta>
    requires forall i :: 0 <= i < |order| ==> order[i] in file
    decreases |order|
  {
    if order == [] || fails(c) then tables
    else if fails(c + 1) then Rescanned(fails, c + 2, order[1..], file, tables)
    else
      var (m, e) := Refreshed(fails, c + 2, file[order[0]]);
      Rescanned(fails, e, order[1..], file, tables[order[0] := m])
  }

  /** The map that opening the database builds from call number c on. */
  function Rebuilt(fails: nat -> bool, c: nat, order: seq<string>, file: Database): map<string, Meta>
    requires Lists(order, file)
  {
    if fails(c) then map[] else Rescanned(fails, c + 1, order, file, map[])
  }

  lemma {:induction false} ScannedIff(fails: nat -> bool, c: nat, cols: seq<string>)
    ensures |Scanned(fails, c, cols).0| <= |cols|
    ensures Scanned(fails, c, cols).0 == cols <==> Quiet(fails, c, c + 2 * |cols|)
    ensures Quiet(fails, c, c + 2 * |cols|) ==> Scanned(fails, c, cols).1 == c + 2 * |cols|
    decreases |cols|
  {
    if cols != [] {
      ScannedIff(fails, c + 2, cols[1..]);
      assert cols == [cols[0]] + cols[1..];
    }
  }

  /** The failures that spoil nothing are those of queries for what is empty. */
  predicate Undisturbed(fails: nat -> bool, c: nat, t: Table) {
    var e := c + 1 + 2 * |t.data.columns|;
    && (t.data.columns == [] || Quiet(fails, c, e))
    && (t.data.rows == [] || !fails(e))
    && (t.comment == "" || !fails(e + 1))
  }

  /** The metadata read mirrors the table exactly if no query for a part of it that is not empty fails. */
  lemma RefreshedIff(fails: nat -> bool, c: nat, t: Table)
    ensures Refreshed(fails, c, t).0 == MetaOf(t) <==> Undisturbed(fails, c, t)
    ensures Undisturbed(fails, c, t) ==> Refreshed(fails, c, t).1 == c + 3 + 2 * |t.data.columns|
  {
    ScannedIff(fails, c + 1, t.data.columns);
  }

  function MirrorOf(file: Database): map<string, Meta> {
    map n | n in file :: MetaOf(file[n])
  }

  /** Every listed table is fetched, read and undisturbed. */
  predicate AllUndisturbed(fails: nat -> bool, c: nat, order: seq<string>, file: Database)
    requires forall i :: 0 <= i < |order| ==> order[i] in file
    decreases |order|
  {
    order == [] ||
    (var t := file[order[0]];
     && !fails(c) && !fails(c + 1) && Undisturbed(fails, c + 2, t)
     && AllUndisturbed(fails, c + 5 + 2 * |t.data.columns|, order[1..], file))
  }

  predicate Apart(order: seq<string>, file: Database) {
    && (forall i :: 0 <= i < |order| ==> order[i] in file)
    && (forall i, j :: 0 <= i < j < |order| ==> order[i] != order[j])
  }

  /** A scan touches only the names it lists. */
  lemma {:induction false} RescannedElsewhere(fails: nat -> bool, c: nat, order: seq<string>, file: Database,
                                              tables: map<string, Meta>, n: string)
    requires Apart(order, file) && n !in order
    ensures var r := Rescanned(fails, c, order, file, tables);
            (n in r <==> n in tables) && (n in tables ==> r[n] == tables[n])
    decreases |order|
  {
    if order != [] && !fails(c) {
      assert order[0] != n && forall x :: x in order[1..] ==> x in order;
      if fails(c + 1) {
        RescannedElsewhere(fails, c + 2, order[1..], file, tables, n);
      } else {
        var (m, e) := Refreshed(fails, c + 2, file[order[0]]);
        RescannedElsewhere(fails, e, order[1..], file, tables[order[0] := m], n);
      }
    }
  }

  /** Each listed table is mirrored. */
  predicate MirrorsAll(r: map<string, Meta>, order: seq<string>, file: Database)
    requires forall i :: 0 <= i < |order| ==> order[i] in file
  {
    forall i :: 0 <= i < |order| ==> order[i] in r && r[order[i]] == MetaOf(file[order[i]])
  }

  lemma MirrorsHeadAndTail(r: map<string, Meta>, order: seq<string>, file: Database)
    requires order != [] && Apart(order, file)
    ensures MirrorsAll(r, order, file) <==>
            order[0] in r && r[order[0]] == MetaOf(file[order[0]]) && MirrorsAll(r, order[1..], file)
  {
    if order[0] in r && r[order[0]] == MetaOf(file[order[0]]) && MirrorsAll(r, order[1..], file) {
      forall i | 0 <= i < |order| ensures order[i] in r && r[order[i]] == MetaOf(file[order[i]]) {
        assert i > 0 ==> order[i] == order[1..][i - 1];
      }
    }
  }

  lemma RescannedHead(fails: nat -> bool, c: nat, order: seq<string>, file: Database, tables: map<string, Meta>)
    requires Apart(order, file) && order != [] && order[0] !in tables
    ensures var r := Rescanned(fails, c, order, file, tables);
            order[0] in r && r[order[0]] == MetaOf(file[order[0]]) <==>
            !fails(c) && !fails(c + 1) && Undisturbed(fails, c + 2, file[order[0]])
  {
    var name, rest := order[0], order[1..];
    assert name !in rest && forall x :: x in rest ==> x in order;
    if !fails(c) {
      if fails(c + 1) {
        RescannedElsewhere(fails, c + 2, rest, file, tables, name);
      } else {
        var (m, e) := Refreshed(fails, c + 2, file[name]);
        RescannedElsewhere(fails, e, rest, file, tables[name := m], name);
        RefreshedIff(fails, c + 2, file[name]);
      }
    }
  }

  lemma {:induction false} RescannedStep(fails: nat -> bool, c: nat, order: seq<string>, file: Database,
                                         tables: map<string, Meta>)
    requires (forall i :: 0 <= i < |order| ==> order[i] in file) && order != []
    requires !fails(c) && !fails(c + 1) && Undisturbed(fails, c + 2, file[order[0]])
    ensures var t := file[order[0]];
            Rescanned(fails, c, order, file, tables) ==
            Rescanned(fails, c + 5 + 2 * |t.data.columns|, order[1..], file, tables[order[0] := MetaOf(t)])
  {
    RefreshedIff(fails, c + 2, file[order[0]]);
  }

  lemma ApartTail(order: seq<string>, file: Database, tables: map<string, Meta>, m: Meta)
    requires Apart(order, file) && order != [] && forall n :: n in order ==> n !in tables
    ensures Apart(order[1..], file) && forall n :: n in order[1..] ==> n !in tables[order[0] := m]
  {
    assert order[0] !in order[1..] && forall n :: n in order[1..] ==> n in order;
  }

  predicate FirstUndisturbed(fails: nat -> bool, c: nat, order: seq<string>, file: Database)
    requires order != [] && order[0] in file
  {
    !fails(c) && !fails(c + 1) && Undisturbed(fails, c + 2, file[order[0]])
  }

  lemma RescannedRest(fails: nat -> bool, c: nat, order: seq<string>, file: Database, tables: map<string, Meta>)
    returns (next: nat, after: map<string, Meta>)
    requires Apart(order, file) && order != [] && forall n :: n in order ==> n !in tables
    requires FirstUndisturbed(fails, c, order, file)
    ensures Rescanned(fails, c, order, file, tables) == Rescanned(fails, next, order[1..], file, after)
    ensures AllUndisturbed(fails, c, order, file) <==> AllUndisturbed(fails, next, order[1..], file)
    ensures Apart(order[1..], file) && forall n :: n in order[1..] ==> n !in after
  {
    var t := file[order[0]];
    RescannedStep(fails, c, order, file, tables);
    ApartTail(order, file, tables, MetaOf(t));
    next, after := c + 5 + 2 * |t.data.columns|, tables[order[0] := MetaOf(t)];
  }

  /** Starting from a map that has none of them, a scan mirrors all listed tables exactly if none is disturbed. */
  lemma {:induction false} RescannedIff(fails: nat -> bool, c: nat, order: seq<string>, file: Database,
                                        tables: map<string, Meta>)
    requires Apart(order, file) && forall n :: n in order ==> n !in tables
    ensures MirrorsAll(Rescanned(fails, c, order, file, tables), order, file) <==> AllUndisturbed(fails, c, order, file)
    decreases |order|
  {
    if order != [] {
      var r := Rescanned(fails, c, order, file, tables);
      MirrorsHeadAndTail(r, order, file);
      RescannedHead(fails, c, order, file, tables);
      if FirstUndisturbed(fails, c, order, file) {
        var next, after := RescannedRest(fails, c, order, file, tables);
        RescannedIff(fails, next, order[1..], file, after);
      }
    }
  }

  /** Opening a database builds the mirror of its tables exactly if there is none, or the list of tables is
      read and no listed one is disturbed. */
  lemma RebuiltIff(fails: nat -> bool, c: nat, order: seq<string>, file: Database)
    requires Lists(order, file)
    ensures Rebuilt(fails, c, order, file) == MirrorOf(file) <==>
            file == map[] || (!fails(c) && AllUndisturbed(fails, c + 1, order, file))
  {
    var r := Rebuilt(fails, c, order, file);
    RescannedIff(fails, c + 1, order, file, map[]);
    forall n | n !in file ensures n !in r {
      RescannedElsewhere(fails, c + 1, order, file, map[], n);
    }
    if r == MirrorOf(file) && file != map[] {
      var n :| n in file;
      assert n in r;
      forall i | 0 <= i < |order| ensures order[i] in r && r[order[i]] == MetaOf(file[order[i]]) {
        assert order[i] in MirrorOf(file);
      }
    }
    if !fails(c) && MirrorsAll(r, order, file) {
      forall n | n in file ensures n in r && r[n] == MetaOf(file[n]) {
        var i :| 0 <= i < |order| && order[i] == n;
      }
      assert r == MirrorOf(file);
    }
    if file == map[] {
      assert |order| > 0 ==> order[0] in file;
    }
  }

  // ---- the rows of a query

  /** What fetching the rows of a result from call number c on comes to: whether the query succeeds, and the
      rows taken by then. Asking for a row can fail, which ends the query as the end of the rows does; the
      cap is looked at before a row is read, and a row that cannot be read fails the query. */
  function Fetched(fails: nat -> bool, c: nat, rows: seq<Row>, cap: nat): (bool, seq<Row>)
    decreases |rows|
  {
    if rows == [] || fails(c) then (true, [])
    else if cap == 0 || fails(c + 1) then (false, [])
    else
      var (ok, rest) := Fetched(fails, c + 2, rows[1..], cap - 1);
      (ok, [rows[0]] + rest)
  }

  lemma {:induction false} FetchedIsPrefix(fails: nat -> bool, c: nat, rows: seq<Row>, cap: nat)
    ensures Fetched(fails, c, rows, cap).1 <= rows && |Fetched(fails, c, rows, cap).1| <= cap
    decreases |rows|
  {
    if rows != [] && !fails(c) && cap > 0 && !fails(c + 1) {
      FetchedIsPrefix(fails, c + 2, rows[1..], cap - 1);
    }
  }

  /** All rows come back exactly if they are within the cap and no call to fetch or read one of them fails. */
  lemma {:induction false} FetchedIff(fails: nat -> bool, c: nat, rows: seq<Row>, cap: nat)
    ensures Fetched(fails, c, rows, cap) == (true, rows) <==> |rows| <= cap && Quiet(fails, c, c + 2 * |rows|)
    decreases |rows|
  {
    if rows != [] {
      assert rows == [rows[0]] + rows[1..];
      if cap > 0 {
        FetchedIff(fails, c + 2, rows[1..], cap - 1);
        assert Quiet(fails, c, c + 2 * |rows|) <==> !fails(c) && !fails(c + 1) && Quiet(fails, c + 2, c + 2 * |rows|);
      }
    }
  }

  /** Fetching rows k and later is the first thing to fail. */
  predicate BreaksOff(fails: nat -> bool, c: nat, k: nat) {
    fails(c + 2 * k) && Quiet(fails, c, c + 2 * k)
  }

  lemma BreaksLater(fails: nat -> bool, c: nat, d: nat, k: nat)
    requires d == c + 2 && !fails(c) && !fails(c + 1)
    ensures BreaksOff(fails, c, k + 1) <==> BreaksOff(fails, d, k)
  {
    assert c + 2 * (k + 1) == d + 2 * k;
    assert Quiet(fails, c, d + 2 * k) <==> Quiet(fails, d, d + 2 * k);
  }

  /** A query succeeds without all its rows exactly if asking for one of them, the one behind the cap
      included, is the first call to fail. */
  lemma {:induction false} ShortIff(fails: nat -> bool, c: nat, rows: seq<Row>, cap: nat)
    ensures var r := Fetched(fails, c, rows, cap);
            r.0 && r.1 != rows <==> exists k: nat :: k < |rows| && k <= cap && BreaksOff(fails, c, k)
    decreases |rows|
  {
    if rows != [] {
      assert rows == [rows[0]] + rows[1..];
      var d := c + 2;
      if fails(c) {
        assert BreaksOff(fails, c, 0);
      } else if cap == 0 || fails(c + 1) {
        forall k: nat | BreaksOff(fails, c, k) ensures k > 0 && !fails(c + 1) {
        }
      } else {
        ShortIff(fails, d, rows[1..], cap - 1);
        forall k: nat ensures BreaksOff(fails, c, k + 1) <==> BreaksOff(fails, d, k) {
          BreaksLater(fails, c, d, k);
        }
        forall k: nat | BreaksOff(fails, c, k) ensures k > 0 && BreaksOff(fails, d, k - 1) {
          assert k > 0;
          BreaksLater(fails, c, d, k - 1);
        }
        if k: nat :| k < |rows[1..]| && k <= cap - 1 && BreaksOff(fails, d, k) {
          BreaksLater(fails, c, d, k);
        }
      }
    }
  }

  // ---- when an operation succeeds, c being the number of its first call

  /** What a load needs: the data file can be read, and checking its path, opening the read-write instance if it is
      closed, and creating the table all work. */
  predicate LoadWorks(lib: Library, c: nat, writer: bool, path: string) {
    lib.load(path).Some? && Quiet(lib.fails, c, c + if writer then 2 else 3)
  }

  /** What saving a query under a name that is free needs: it is a SELECT with a result; attaching the reader, parsing,
      running, closing it again, opening the read-write instance, attaching the staging file and creating the table all
      work; and so does the comment behind the metadata queries, if there is one to set. */
  predicate SaveWorks(lib: Library, c: nat, writer: bool, query: string, file: Database, description: string) {
    var first := c + if writer then 9 else 8;
    && lib.isSelect(query) == Some(true) && lib.eval(query, file).Some? && Quiet(lib.fails, c, first)
    && (description == "" || !lib.fails(Refreshed(lib.fails, first, Table(lib.eval(query, file).value, "")).1))
  }

  /** What a query needs: it is a SELECT with a result; attaching the reader, parsing and running it all work; and
      fetching its rows succeeds within the cap. */
  predicate QueryWorks(lib: Library, c: nat, writer: bool, query: string, file: Database, cap: nat) {
    var first := c + if writer then 5 else 4;
    && lib.isSelect(query) == Some(true) && lib.eval(query, file).Some? && Quiet(lib.fails, c, first)
    && Fetched(lib.fails, first, lib.eval(query, file).value.rows, cap).0
  }

  /** The rows a preview asks for. */
  function FirstRows(rows: seq<Row>, limit: int): seq<Row> {
    var n := if limit < 1 then 20 else if limit > 1000 then 1000 else limit;
    if n < |rows| then rows[..n] else rows
  }

  /** What a preview needs: the table is known and there; opening the read-write instance if it is closed and asking for
      the rows work, and so does fetching them. */
  predicate PreviewWorks(lib: Library, c: nat, writer: bool, known: bool, name: string, file: Database, limit: int) {
    var first := c + if writer then 1 else 2;
    && known && name in file && Quiet(lib.fails, c, first)
    && var rows := FirstRows(file[name].data.rows, limit);
       Fetched(lib.fails, first, rows, |rows|).0
  }

  function ThirdFails(): nat -> bool {
    k => k == 2
  }

  /** With two rows within the cap and the third call failing, the first row alone is returned as the
      whole answer. */
  lemma ShortAnswer(rows: seq<Row>, cap: nat)
    requires rows == [["a"], ["b"]] && cap == 10
    ensures Fetched(ThirdFails(), 0, rows, cap) == (true, [["a"]])
  {
    var rest := Fetched(ThirdFails(), 2, rows[1..], cap - 1);
    assert [rows[0]] + rest.1 == [["a"]];
  }

  datatype Op =
    | OpenOp | CloseOp | LoadOp(name: string, path: string)
    | SaveQueryOp(name: string, query: string, description: string) | QueryOp(query: string, cap: nat)
    | ExportOp(query: string, cap: nat) | PreviewOp(name: string, limit: int)
    | DescribeOp(name: string, description: string) | ResetOp

  lemma DropOne(m: Database, names: set<string>, left: set<string>, name: string)
    requires name in left && left <= names
    ensures m - (names - left) - {name} == m - (names - (left - {name}))
  {
  }

  lemma {:induction false} ScannedQuiet(fails: nat -> bool, c: nat, cols: seq<string>)
    requires Quiet(fails, c, Scanned(fails, c, cols).1)
    ensures c <= Scanned(fails, c, cols).1 && Scanned(fails, c, cols).0 == cols
    decreases |cols|
  {
    if cols != [] {
      assert Scanned(fails, c, cols).1 > c by {
        ScannedMoves(fails, c, cols);
      }
      ScannedMoves(fails, c + 2, cols[1..]);
      ScannedQuiet(fails, c + 2, cols[1..]);
    }
  }

  lemma {:induction false} ScannedMoves(fails: nat -> bool, c: nat, cols: seq<string>)
    ensures Scanned(fails, c, cols).1 >= c && (cols != [] ==> Scanned(fails, c, cols).1 > c)
    decreases |cols|
  {
    if cols != [] && !fails(c) {
      ScannedMoves(fails, c + 2, cols[1..]);
    }
  }

  /** If no call of the reading fails, the metadata read mirrors the table. */
  lemma RefreshedQuiet(fails: nat -> bool, c: nat, t: Table)
    requires Quiet(fails, c, Refreshed(fails, c, t).1)
    ensures Refreshed(fails, c, t).0 == MetaOf(t)
  {
    ScannedMoves(fails, c + 1, t.data.columns);
    ScannedQuiet(fails, c + 1, t.data.columns);
  }

  /** What is seen so far, followed by what the rest of the scan yields, is what the whole scan yields. */
  predicate Ahead(fails: nat -> bool, whole: (seq<string>, nat), seen: seq<string>, c: nat, rest: seq<string>) {
    whole.0 == seen + Scanned(fails, c, rest).0 && whole.1 == Scanned(fails, c, rest).1
  }

  lemma AheadOne(fails: nat -> bool, whole: (seq<string>, nat), seen: seq<string>, c: nat, rest: seq<string>)
    requires Ahead(fails, whole, seen, c, rest) && rest != [] && !fails(c)
    ensures Ahead(fails, whole, if fails(c + 1) then seen else seen + [rest[0]], c + 2, rest[1..])
  {
    Assoc(seen, [rest[0]], Scanned(fails, c + 2, rest[1..]).0);
  }

  lemma AheadEnds(fails: nat -> bool, whole: (seq<string>, nat), seen: seq<string>, c: nat, rest: seq<string>)
    requires Ahead(fails, whole, seen, c, rest) && (rest == [] || fails(c))
    ensures whole == (seen, if rest == [] then c else c + 1)
  {
    assert seen + [] == seen;
  }

  lemma AheadStarts(fails: nat -> bool, start: nat, cols: seq<string>)
    ensures Ahead(fails, Scanned(fails, start, cols), [], start, cols[0..])
  {
    assert cols[0..] == cols && [] + Scanned(fails, start, cols).0 == Scanned(fails, start, cols).0;
  }

  lemma MirrorUpdate(file: Database, name: string, t: Table)
    ensures MirrorOf(file[name := t]) == MirrorOf(file)[name := MetaOf(t)]
  {
  }

  /** What one row of the list of tables comes to: whether there may be more, the next call and the map. */
  predicate Turns(fails: nat -> bool, c: nat, t: Table, name: string, tables: map<string, Meta>, more: bool, d: nat,
                  after: map<string, Meta>)
  {
    if fails(c) then !more && after == tables
    else if fails(c + 1) then more && d == c + 2 && after == tables
    else
      var (m, e) := Refreshed(fails, c + 2, t);
      more && d == e && after == tables[name := m]
  }

  /** The scan of rest from here on ends in result; if it is undisturbed and all was heard so far, so is the whole. */
  predicate OnCourse(fails: nat -> bool, c: nat, rest: seq<string>, file: Database, tables: map<string, Meta>,
                     result: map<string, Meta>, heard: bool, whole: bool)
    requires forall i :: 0 <= i < |rest| ==> rest[i] in file
  {
    Rescanned(fails, c, rest, file, tables) == result && (heard && AllUndisturbed(fails, c, rest, file) ==> whole)
  }

  lemma {:induction false} CourseTurns(fails: nat -> bool, c: nat, rest: seq<string>, file: Database,
                                       tables: map<string, Meta>, result: map<string, Meta>, heard: bool, whole: bool,
                                       more: bool, d: nat, after: map<string, Meta>, now: bool)
    requires (forall i :: 0 <= i < |rest| ==> rest[i] in file) && rest != []
    requires OnCourse(fails, c, rest, file, tables, result, heard, whole)
    requires Turns(fails, c, file[rest[0]], rest[0], tables, more, d, after)
    requires now ==> heard && more && !fails(c + 1) && Undisturbed(fails, c + 2, file[rest[0]])
    ensures if more then OnCourse(fails, d, rest[1..], file, after, result, now, whole) else after == result
  {
    if !fails(c) && !fails(c + 1) {
      RefreshedIff(fails, c + 2, file[rest[0]]);
    }
  }

  lemma HeardEarlier(fails: nat -> bool, shorter: seq<Event>, longer: seq<Event>, c: nat, d: nat)
    requires shorter <= longer && c <= d && Heard(fails, longer, c)
    ensures Heard(fails, shorter, d)
  {
    forall k | d <= k < |shorter| ensures shorter[k] == longer[k] {
    }
  }

  /** The fetch so far: the rows taken, and what the calls from number c on make of the rest. */
  predicate Fetching(fails: nat -> bool, start: nat, all: seq<Row>, cap: nat, rows: seq<Row>, c: nat) {
    && rows <= all && |rows| <= cap
    && Fetched(fails, start, all, cap).0 == Fetched(fails, c, all[|rows|..], cap - |rows|).0
    && Fetched(fails, start, all, cap).1 == rows + Fetched(fails, c, all[|rows|..], cap - |rows|).1
  }

  lemma FetchStarts(fails: nat -> bool, start: nat, all: seq<Row>, cap: nat)
    ensures Fetching(fails, start, all, cap, [], start)
  {
    assert all[0..] == all && [] + Fetched(fails, start, all, cap).1 == Fetched(fails, start, all, cap).1;
  }

  lemma FetchTurns(fails: nat -> bool, start: nat, all: seq<Row>, cap: nat, rows: seq<Row>, c: nat)
    requires Fetching(fails, start, all, cap, rows, c) && |rows| < |all| && |rows| < cap && !fails(c) && !fails(c + 1)
    ensures Fetching(fails, start, all, cap, rows + [all[|rows|]], c + 2)
  {
    var rest := all[|rows|..];
    assert rest[1..] == all[|rows| + 1..];
    Assoc(rows, [rest[0]], Fetched(fails, c + 2, rest[1..], cap - |rows| - 1).1);
  }

  lemma FetchEnds(fails: nat -> bool, start: nat, all: seq<Row>, cap: nat, rows: seq<Row>, c: nat)
    requires Fetching(fails, start, all, cap, rows, c)
    requires |rows| == |all| || fails(c) || |rows| == cap || fails(c + 1)
    ensures Fetched(fails, start, all, cap) == (|rows| == |all| || fails(c), rows)
  {
    assert rows + [] == rows;
  }

  lemma DroppedMirror(before: Database, after: Database, all: bool)
    requires exists gone: set<string> :: after == before - gone && (all ==> gone == before.Keys)
    ensures MirrorOf(before) == MirrorOf(after) <==> before == after
    ensures all ==> after == map[]
  {
    if MirrorOf(before) == MirrorOf(after) {
      assert MirrorOf(before).Keys == before.Keys && MirrorOf(after).Keys == after.Keys;
    }
  }

  class Engine {
    const lib: Library
    var inUse: bool
    var writer: bool
    var tables: map<string, Meta>
    // The world outside: the session file, whether a reader is attached, and how many calls were made.
    var file: Database
    var reader: bool
    var calls: nat
    ghost var trace: seq<Event>

    /** The metadata map lists exactly the tables of the file, each as it is. */
    ghost predicate Mirrored()
      reads this
    {
      inUse ==> tables == MirrorOf(file)
    }

    /** Every call is on record, and each was safe. */
    ghost predicate Traced()
      reads this
    {
      Safe(trace) && |trace| == calls
    }

    ghost predicate Valid()
      reads this
    {
      Traced() && !reader && (writer ==> inUse) && (!inUse ==> tables == map[])
    }

    constructor (lib: Library, file: Database)
      ensures Valid() && Mirrored() && this.lib == lib && this.file == file && !inUse && calls == 0
    {
      this.lib, this.file := lib, file;
      inUse, writer, reader, tables, calls := false, false, false, map[], 0;
      trace := [];
    }

    method Touch(call: Call) returns (ok: bool)
      modifies this`calls, this`trace
      ensures trace == old(trace) + [Event(call, writer, reader)]
      ensures old(Traced()) && SafeEvent(Event(call, writer, reader)) ==> Traced()
      ensures calls == old(calls) + 1 && ok == !lib.fails(old(calls))
    {
      trace := trace + [Event(call, writer, reader)];
      ok := !lib.fails(calls);
      calls := calls + 1;
    }

    /** Runs a text the agent wrote on an instance; only the read-write one can change the file. */
    method Execute(sql: string, on: Instance) returns (result: Option<Data>)
      modifies this`calls, this`trace, this`file
      ensures trace == old(trace) + [Event(Agent(sql, on), writer, reader)] && calls == old(calls) + 1
      ensures old(Traced()) && SafeEvent(Event(Agent(sql, on), writer, reader)) ==> Traced()
      ensures file == if on.OnReader? then old(file) else lib.effect(sql, old(file))
      ensures result == if lib.fails(old(calls)) then None else lib.eval(sql, old(file))
    {
      var ok := Touch(Agent(sql, on));
      result := if ok then lib.eval(sql, file) else None;
      if on.OnWriter? {
        file := lib.effect(sql, file);
      }
    }

    method EnsureWriter() returns (ok: bool)
      requires Traced() && !reader
      modifies this`calls, this`trace, this`writer
      ensures Traced() && old(trace) <= trace && calls == old(calls) + if old(writer) then 0 else 1
      ensures ok == writer == (old(writer) || !lib.fails(old(calls)))
    {
      if writer {
        return true;
      }
      writer := true;
      ok := Touch(Own);
      writer := ok;
    }

    /** All calls since then were metadata queries. */
    ghost predicate Since(earlier: seq<Event>)
      reads this
    {
      Traced() && earlier <= trace && forall k :: |earlier| <= k < |trace| ==> trace[k].call == Metadata
    }

    /** A metadata query, or the fetch of one of its rows. */
    method Ask() returns (ok: bool)
      requires Traced() && writer && !reader
      modifies this`calls, this`trace
      ensures ok == !lib.fails(old(calls)) && calls == old(calls) + 1 && Since(old(trace))
      ensures forall earlier: seq<Event> :: old(Since(earlier)) ==> Since(earlier)
    {
      ok := Touch(Metadata);
    }

    /** The columns of one table, as far as they can be read. */
    method ScanColumns(cols: seq<string>) returns (seen: seq<string>)
      requires Traced() && writer && !reader
      modifies this`calls, this`trace
      ensures Since(old(trace)) && (seen, calls) == Columns(lib.fails, old(calls), cols)
    {
      seen := [];
      var listed := Ask();
      if !listed {
        return;
      }
      ghost var whole := Scanned(lib.fails, calls, cols);
      var i := 0;
      AheadStarts(lib.fails, calls, cols);
      while i < |cols|
        invariant 0 <= i <= |cols| && Since(old(trace))
        invariant Ahead(lib.fails, whole, seen, calls, cols[i..])
      {
        ghost var c, rest := calls, cols[i..];
        assert rest[1..] == cols[i + 1..];
        var next := Ask();
        if !next {
          AheadEnds(lib.fails, whole, seen, c, rest);
          return;
        }
        AheadOne(lib.fails, whole, seen, c, rest);
        var read := Ask();
        if read {
          seen := seen + [cols[i]];
        }
        i := i + 1;
      }
      AheadEnds(lib.fails, whole, seen, calls, cols[i..]);
    }

    /** With nothing but metadata queries since then, all of them heard means that none failed. */
    lemma HeardIsQuiet(earlier: seq<Event>)
      requires Since(earlier) && Heard(lib.fails, trace, |earlier|)
      ensures Quiet(lib.fails, |earlier|, calls)
    {
      forall k | |earlier| <= k < calls ensures !lib.fails(k) {
        assert trace[k].call == Metadata;
      }
    }

    /** Reads one table's metadata; whatever part cannot be read stays empty. */
    method RefreshTableMeta(name: string)
      requires Traced() && writer && !reader && name in file
      modifies this`calls, this`trace, this`tables
      ensures Since(old(trace))
      ensures tables == old(tables)[name := Refreshed(lib.fails, old(calls), file[name]).0]
      ensures calls == Refreshed(lib.fails, old(calls), file[name]).1 && old(calls) < calls
      ensures Heard(lib.fails, trace, old(calls)) ==>
                var t := file[name];
                && tables[name] == MetaOf(t) && tables[name].columns == t.data.columns
                && tables[name].rowCount == |t.data.rows| && tables[name].description == t.comment
    {
      var t := file[name];
      ScannedMoves(lib.fails, calls + 1, t.data.columns);
      var cols := ScanColumns(t.data.columns);
      var count := Ask();
      var comment := Ask();
      tables := tables[name := Meta(cols, if count then |t.data.rows| else 0, if comment then t.comment else "")];
      if Heard(lib.fails, trace, old(calls)) {
        HeardIsQuiet(old(trace));
        RefreshedQuiet(lib.fails, old(calls), t);
      }
    }

    /** The names of the tables, in the order the database lists them. */
    method Listing() returns (order: seq<string>)
      ensures Lists(order, file)
    {
      order := [];
      var left := file.Keys;
      while left != {}
        invariant left <= file.Keys
        invariant forall i :: 0 <= i < |order| ==> order[i] in file && order[i] !in left
        invariant forall i, j :: 0 <= i < j < |order| ==> order[i] != order[j]
        invariant forall n :: n in file ==> n in left || n in order
        decreases |left|
      {
        var name :| name in left;
        order := order + [name];
        left := left - {name};
      }
    }

    /** One row of the list of tables; tells whether there may be more. */
    method ScanName(name: string) returns (more: bool)
      requires Traced() && writer && !reader && name in file
      modifies this`calls, this`trace, this`tables
      ensures Since(old(trace)) && old(calls) < calls
      ensures Turns(lib.fails, old(calls), file[name], name, old(tables), more, calls, tables)
      ensures Heard(lib.fails, trace, old(calls)) ==>
                more && !lib.fails(old(calls) + 1) && Undisturbed(lib.fails, old(calls) + 2, file[name])
    {
      more := Ask();
      if more {
        var read := Ask();
        if read {
          ghost var so := trace;
          RefreshTableMeta(name);
          SinceBoth(old(trace), so);
          RefreshedIff(lib.fails, old(calls) + 2, file[name]);
          RemainsLater(old(calls), old(calls) + 2);
        }
      }
      if Heard(lib.fails, trace, old(calls)) {
        HeardIsQuiet(old(trace));
      }
    }

    lemma SinceBoth(earlier: seq<Event>, later: seq<Event>)
      requires Since(later) && earlier <= later && forall k :: |earlier| <= k < |later| ==> later[k].call == Metadata
      ensures Since(earlier)
    {
      forall k | |earlier| <= k < |trace| ensures trace[k].call == Metadata {
        if k < |later| {
          assert trace[k] == later[k];
        }
      }
    }

    /** One turn of the scan of the list. */
    method ScanTurn(rest: seq<string>, ghost first: nat, ghost result: map<string, Meta>, ghost whole: bool)
      returns (more: bool)
      requires Traced() && writer && !reader && Apart(rest, file) && rest != [] && first <= calls
      requires OnCourse(lib.fails, calls, rest, file, tables, result, Heard(lib.fails, trace, first), whole)
      modifies this`calls, this`trace, this`tables
      ensures Since(old(trace)) && (Heard(lib.fails, trace, first) ==> more)
      ensures if more then OnCourse(lib.fails, calls, rest[1..], file, tables, result, Heard(lib.fails, trace, first), whole)
              else tables == result
    {
      more := ScanName(rest[0]);
      Remains(old(trace), first);
      RemainsLater(first, old(calls));
      CourseTurns(lib.fails, old(calls), rest, file, old(tables), result, Heard(lib.fails, old(trace), first), whole,
                  more, calls, tables, Heard(lib.fails, trace, first));
    }

    /** The rows of the list, until one cannot be fetched. */
    method ScanNames(names: seq<string>)
      requires Traced() && writer && !reader && Apart(names, file)
      modifies this`calls, this`trace, this`tables
      ensures Since(old(trace))
      ensures tables == Rescanned(lib.fails, old(calls), names, file, old(tables))
      ensures Heard(lib.fails, trace, old(calls)) ==> AllUndisturbed(lib.fails, old(calls), names, file)
    {
      ghost var first := calls;
      ghost var result := Rescanned(lib.fails, first, names, file, tables);
      ghost var whole := AllUndisturbed(lib.fails, first, names, file);
      var i := 0;
      assert names[0..] == names;
      while i < |names|
        invariant 0 <= i <= |names| && Since(old(trace)) && Apart(names[i..], file)
        invariant OnCourse(lib.fails, calls, names[i..], file, tables, result, Heard(lib.fails, trace, first), whole)
      {
        ghost var so := trace;
        assert names[i..][1..] == names[i + 1..];
        var more := ScanTurn(names[i..], first, result, whole);
        SinceBoth(old(trace), so);
        if !more {
          return;
        }
        i := i + 1;
      }
    }

    method RebuildTableMeta() returns (ghost order: seq<string>)
      requires Traced() && writer && !reader && tables == map[]
      modifies this`calls, this`trace, this`tables
      ensures Since(old(trace)) && Lists(order, file) && tables == Rebuilt(lib.fails, old(calls), order, file)
      ensures Heard(lib.fails, trace, old(calls)) ==> tables == MirrorOf(file)
    {
      var names := Listing();
      order := names;
      var shown := Ask();
      ghost var so := trace;
      if shown {
        ScanNames(names);
        SinceBoth(old(trace), so);
      }
      if Heard(lib.fails, trace, old(calls)) {
        HeardIsQuiet(old(trace));
        RemainsLater(old(calls), |so|);
        RebuiltIff(lib.fails, old(calls), names, file);
      }
    }

    method Open() returns (ok: bool)
      requires Valid()
      modifies this`calls, this`trace, this`tables, this`writer, this`inUse
      ensures Valid() && ok == inUse && old(trace) <= trace
      ensures old(inUse) ==> ok && tables == old(tables) && writer == old(writer) && calls == old(calls)
      ensures !old(inUse) ==> (ok <==> Quiet(lib.fails, old(calls), old(calls) + 2))
      ensures !old(inUse) && ok ==>
                writer && exists order :: Lists(order, file) && tables == Rebuilt(lib.fails, old(calls) + 2, order, file)
      ensures old(Mirrored()) && Heard(lib.fails, trace, old(calls)) ==> Mirrored()
    {
      if inUse {
        return true;
      }
      var made := Touch(Own);
      if !made {
        return false;
      }
      var got := EnsureWriter();
      if !got {
        return false;
      }
      inUse := true;
      ghost var order := RebuildTableMeta();
      ok := true;
      if Heard(lib.fails, trace, old(calls)) {
        HeardEarlier(lib.fails, trace, trace, old(calls), old(calls) + 2);
      }
    }

    method Close() returns (ok: bool)
      requires Valid()
      modifies this`calls, this`trace, this`tables, this`writer, this`inUse
      ensures Valid() && !inUse && !writer && tables == map[] && old(trace) <= trace
      ensures ok <==> !old(writer) || !lib.fails(old(calls))
    {
      inUse, tables, ok := false, map[], true;
      if writer {
        ok := Touch(Own);
        writer := false;
      }
    }

    /** Closes the read-write instance and attaches a reader. */
    method OpenReader() returns (ok: bool)
      requires Valid() && inUse
      modifies this`calls, this`trace, this`writer, this`reader
      ensures Traced() && old(trace) <= trace && !writer && reader == ok
      ensures ok ==> calls == old(calls) + if old(writer) then 3 else 2
      ensures ok <==> Quiet(lib.fails, old(calls), old(calls) + if old(writer) then 3 else 2)
    {
      if writer {
        var closed := Touch(Own);
        writer := false;
        if !closed {
          return false;
        }
      }
      var made := Touch(Own);
      if !made {
        return false;
      }
      reader := true;
      ok := Touch(Own);
      reader := ok;
    }

    method CloseReader() returns (ok: bool)
      requires Traced() && reader && !writer
      modifies this`calls, this`trace, this`reader
      ensures Traced() && !reader
      ensures trace == old(trace) + [Event(Own, false, true)] && ok == !lib.fails(old(calls))
      ensures calls == old(calls) + 1
    {
      ok := Touch(Own);
      reader := false;
    }

    /** Attaches a reader for a text that parses as a single SELECT. */
    method OpenForSelect(query: string) returns (ok: bool)
      requires Valid() && inUse
      modifies this`calls, this`trace, this`writer, this`reader
      ensures Traced() && old(trace) <= trace && !writer && reader == ok
      ensures var first := old(calls) + if old(writer) then 4 else 3;
              && (ok <==> lib.isSelect(query) == Some(true) && Quiet(lib.fails, old(calls), first))
              && (ok ==> calls == first)
    {
      ok := OpenReader();
      if !ok {
        return;
      }
      var parsed := Touch(Own);
      if !parsed || lib.isSelect(query) != Some(true) {
        var _ := CloseReader();
        ok := false;
      }
    }

    /** What a load does under the lock. */
    method LoadOpened(name: string, path: string) returns (ok: bool)
      requires Valid() && inUse
      modifies this`calls, this`trace, this`tables, this`writer, this`file
      ensures Valid() && old(trace) <= trace && (ok <==> LoadWorks(lib, old(calls), old(writer), path))
      ensures ok ==> file == old(file)[name := Table(lib.load(path).value, "")]
      ensures ok ==>
                var first := old(calls) + if old(writer) then 2 else 3;
                tables == old(tables)[name := Refreshed(lib.fails, first, file[name]).0]
      ensures !ok ==> file == old(file) && tables == old(tables)
      ensures old(Mirrored()) && Heard(lib.fails, trace, old(calls)) ==> Mirrored()
    {
      var reachable := Touch(Own);
      if !reachable {
        return false;
      }
      var got := EnsureWriter();
      if !got {
        return false;
      }
      var ran := Touch(Own);
      if !ran || lib.load(path).None? {
        return false;
      }
      MirrorUpdate(file, name, Table(lib.load(path).value, ""));
      RefreshNew(name, Table(lib.load(path).value, ""));
      ok := true;
    }

    /** The statement that creates a table has run; its metadata is read. */
    method RefreshNew(name: string, t: Table)
      requires Valid() && writer
      modifies this`calls, this`trace, this`tables, this`file
      ensures Valid() && old(trace) <= trace && file == old(file)[name := t]
      ensures tables == old(tables)[name := Refreshed(lib.fails, old(calls), t).0]
      ensures calls == Refreshed(lib.fails, old(calls), t).1
      ensures forall c: nat :: c <= old(calls) && Heard(lib.fails, trace, c) ==> tables[name] == MetaOf(t)
    {
      file := file[name := t];
      RefreshTableMeta(name);
    }

    /** Loads a data file. from is the number of the first call once the database is open. */
    method LoadTable(name: string, path: string) returns (ok: bool, ghost from: nat)
      requires Valid()
      modifies this`calls, this`trace, this`tables, this`writer, this`inUse, this`file
      ensures Valid() && old(trace) <= trace
      ensures old(inUse) ==> from == old(calls)
      ensures ok <==>
                && (old(inUse) || Quiet(lib.fails, old(calls), old(calls) + 2))
                && LoadWorks(lib, from, old(inUse ==> writer), path)
      ensures ok ==> lib.load(path).Some? && file == old(file)[name := Table(lib.load(path).value, "")] && name in tables
      ensures ok && old(inUse) ==>
                var first := old(calls) + if old(writer) then 2 else 3;
                tables == old(tables)[name := Refreshed(lib.fails, first, file[name]).0]
      ensures !ok ==> file == old(file)
      ensures old(Mirrored()) && Heard(lib.fails, trace, old(calls)) ==> Mirrored()
    {
      var usable := Open();
      from := calls;
      if !usable {
        return false, from;
      }
      ghost var opening := trace;
      ok := LoadOpened(name, path);
      Remains(opening, old(calls));
      RemainsLater(old(calls), |opening|);
    }

    /** What was heard until now was heard earlier. */
    lemma Remains(earlier: seq<Event>, c: nat)
      requires earlier <= trace
      ensures Heard(lib.fails, trace, c) ==> Heard(lib.fails, earlier, c)
    {
      if Heard(lib.fails, trace, c) {
        HeardEarlier(lib.fails, earlier, trace, c, c);
      }
    }

    lemma RemainsLater(c: nat, d: nat)
      requires c <= d
      ensures Heard(lib.fails, trace, c) ==> Heard(lib.fails, trace, d)
    {
    }

    /** Runs the agent's query on a reader into a staging file and copies the one table across; the table it
        is about to create is its result. */
    method SaveQuery(name: string, query: string) returns (result: Option<Data>)
      requires Valid() && inUse
      modifies this`calls, this`trace, this`writer, this`reader, this`file
      ensures Valid() && old(trace) <= trace && file == old(file)
      ensures var first := old(calls) + if old(writer) then 9 else 8;
              && (result.Some? <==>
                   && name !in file && lib.isSelect(query) == Some(true) && lib.eval(query, file).Some?
                   && Quiet(lib.fails, old(calls), first))
              && (result.Some? ==> writer && lib.eval(query, file) == result && calls == first)
    {
      var reading := OpenForSelect(query);
      if !reading {
        return None;
      }
      var staged := Execute(query, OnReader);
      var closed := CloseReader();
      if staged.None? || !closed {
        return None;
      }
      var got := EnsureWriter();
      if !got {
        return None;
      }
      var attached := Touch(Own);
      if !attached {
        return None;
      }
      var created := Touch(Own);
      if !created || name in file {
        return None;
      }
      result := staged;
    }

    method DescribeNew(name: string, description: string) returns (ok: bool)
      requires Valid() && inUse && writer && name in file && name in tables
      modifies this`calls, this`trace, this`file, this`tables
      ensures Valid() && old(trace) <= trace && name in tables
      ensures trace[old(calls)..] == [Event(Own, true, false)] && ok == !lib.fails(old(calls))
      ensures file == if ok then old(file)[name := old(file)[name].(comment := description)] else old(file)
      ensures tables == if ok then old(tables)[name := old(tables)[name].(description := description)] else old(tables)
    {
      ok := Touch(Own);
      if ok {
        file := file[name := file[name].(comment := description)];
        tables := tables[name := tables[name].(description := description)];
      }
    }

    /** Adds the table of a query's result, and reads its metadata. */
    method CreateTable(name: string, query: string) returns (t: Option<Table>)
      requires Valid() && inUse
      modifies this`calls, this`trace, this`tables, this`writer, this`reader, this`file
      ensures Valid() && inUse && old(trace) <= trace
      ensures var first := old(calls) + if old(writer) then 9 else 8;
              && (t.Some? <==>
                   name !in old(file) && lib.isSelect(query) == Some(true) && lib.eval(query, old(file)).Some?
                   && Quiet(lib.fails, old(calls), first))
              && (t.Some? ==>
                    && t.value == Table(lib.eval(query, old(file)).value, "") && file == old(file)[name := t.value] && writer
                    && name in tables && calls == Refreshed(lib.fails, first, t.value).1
                    && (Heard(lib.fails, trace, old(calls)) ==> tables[name] == MetaOf(t.value)))
      ensures t.None? ==> file == old(file) && tables == old(tables)
      ensures old(Mirrored()) && Heard(lib.fails, trace, old(calls)) ==> Mirrored()
    {
      var saved := SaveQuery(name, query);
      if saved.None? {
        return None;
      }
      t := Some(Table(saved.value, ""));
      MirrorUpdate(old(file), name, t.value);
      RefreshNew(name, t.value);
    }

    /** What save-query does under the lock to a name that is free. */
    method CreateOpened(name: string, query: string, description: string) returns (r: Option<Meta>)
      requires Valid() && inUse && name !in tables
      modifies this`calls, this`trace, this`tables, this`writer, this`reader, this`file
      ensures Valid() && old(trace) <= trace
      ensures r.Some? <==>
                name !in old(file) && SaveWorks(lib, old(calls), old(writer), query, old(file), description)
      ensures r.Some? ==>
                && file == old(file)[name := Table(lib.eval(query, old(file)).value, description)]
                && name in tables && r.value == tables[name]
                && (Heard(lib.fails, trace, old(calls)) ==> r.value == MetaOf(file[name]))
      ensures r.None? ==>
                || file == old(file)
                || (name !in old(file) && lib.isSelect(query) == Some(true) && lib.eval(query, old(file)).Some?
                    && description != "" && file == old(file)[name := Table(lib.eval(query, old(file)).value, "")])
      ensures old(Mirrored()) && Heard(lib.fails, trace, old(calls)) ==> Mirrored()
    {
      var t := CreateTable(name, query);
      if t.None? {
        return None;
      }
      ghost var refreshed := trace;
      if description != "" {
        MirrorUpdate(file, name, t.value.(comment := description));
        var described := DescribeNew(name, description);
        Remains(refreshed, old(calls));
        if !described {
          return None;
        }
        assert file == old(file)[name := t.value.(comment := description)];
      }
      r := Some(tables[name]);
    }

    /** save-query: adds one table and touches no other, whatever the agent's SQL says and whatever fails. from is the
        number of the first call, and known the metadata, once the database is open. */
    method CreateFromQuery(name: string, query: string, description: string)
      returns (r: Option<Meta>, ghost from: nat, ghost known: map<string, Meta>)
      requires Valid()
      modifies this`calls, this`trace, this`tables, this`writer, this`inUse, this`reader, this`file
      ensures Valid() && old(trace) <= trace
      ensures old(inUse) ==> from == old(calls) && known == old(tables)
      ensures !old(inUse) && Identifier(name) && Quiet(lib.fails, old(calls), old(calls) + 2) ==>
                exists order :: Lists(order, old(file)) && known == Rebuilt(lib.fails, old(calls) + 2, order, old(file))
      ensures r.Some? <==>
                && Identifier(name) && (old(inUse) || Quiet(lib.fails, old(calls), old(calls) + 2))
                && name !in known && name !in old(file)
                && SaveWorks(lib, from, old(inUse ==> writer), query, old(file), description)
      ensures r.Some? ==>
                && lib.eval(query, old(file)).Some?
                && file == old(file)[name := Table(lib.eval(query, old(file)).value, description)]
                && name in tables && r.value == tables[name]
                && (Heard(lib.fails, trace, old(calls)) ==> r.value == MetaOf(file[name]))
      ensures r.None? ==>
                || file == old(file)
                || (name !in old(file) && lib.isSelect(query) == Some(true) && lib.eval(query, old(file)).Some?
                    && description != "" && file == old(file)[name := Table(lib.eval(query, old(file)).value, "")])
      ensures old(inUse) && name in old(tables) ==> r.None? && file == old(file) && tables == old(tables)
      ensures old(Mirrored()) && Heard(lib.fails, trace, old(calls)) ==> Mirrored()
    {
      from, known := calls, tables;
      if !Identifier(name) {
        return None, from, known;
      }
      var usable := Open();
      from, known := calls, tables;
      if !usable || name in tables {
        return None, from, known;
      }
      ghost var opening := trace;
      r := CreateOpened(name, query, description);
      Remains(opening, old(calls));
      RemainsLater(old(calls), |opening|);
    }

    /** The rows the driver hands out one by one: a fetch that fails ends the loop without an error. */
    method Fetch(data: Data, cap: nat) returns (within: bool, rows: seq<Row>)
      requires Traced() && !(reader && writer)
      modifies this`calls, this`trace
      ensures Traced() && old(trace) <= trace
      ensures |data.rows| <= cap && Quiet(lib.fails, old(calls), calls) ==> within
      ensures (within, rows) == Fetched(lib.fails, old(calls), data.rows, cap)
      ensures within ==> (rows == data.rows <==> NoRowLost(lib.fails, trace, old(calls)))
    {
      var all := data.rows;
      rows, within := [], true;
      FetchStarts(lib.fails, calls, all, cap);
      while |rows| < |all|
        invariant Traced() && old(trace) <= trace && |rows| <= cap
        invariant Fetching(lib.fails, old(calls), all, cap, rows, calls)
        invariant within && NoRowLost(lib.fails, trace, old(calls))
      {
        ghost var c := calls;
        var next := Touch(NextRow);
        if !next {
          FetchEnds(lib.fails, old(calls), all, cap, rows, c);
          assert trace[c].call == NextRow;
          return;
        }
        if |rows| >= cap {
          FetchEnds(lib.fails, old(calls), all, cap, rows, c);
          return false, rows;
        }
        var read := Touch(Own);
        if !read {
          FetchEnds(lib.fails, old(calls), all, cap, rows, c);
          return false, rows;
        }
        FetchTurns(lib.fails, old(calls), all, cap, rows, c);
        rows := rows + [all[|rows|]];
      }
      FetchEnds(lib.fails, old(calls), all, cap, rows, calls);
    }

    /** A successful query: what its fetches came to, and all its rows exactly if none of them failed. */
    ghost predicate Answered(query: string, cap: nat, since: nat, asked: nat, rows: seq<Row>)
      reads this
    {
      && lib.isSelect(query) == Some(true) && lib.eval(query, file).Some?
      && since <= asked < |trace| && trace[asked].call == Agent(query, OnReader)
      && Fetched(lib.fails, asked + 1, lib.eval(query, file).value.rows, cap) == (true, rows)
      && (rows == lib.eval(query, file).value.rows <==> NoRowLost(lib.fails, trace, asked))
    }

    /** The query has run: its rows are fetched, and the reader is closed. */
    method FetchAnswer(query: string, data: Data, cap: nat, ghost since: nat) returns (ok: bool, written: seq<Row>)
      requires Traced() && reader && !writer && since < calls
      requires lib.isSelect(query) == Some(true) && lib.eval(query, file) == Some(data)
      requires trace[calls - 1].call == Agent(query, OnReader)
      modifies this`calls, this`trace, this`reader
      ensures Traced() && !reader && old(trace) <= trace
      ensures (ok, written) == Fetched(lib.fails, old(calls), data.rows, cap)
      ensures ok ==> Answered(query, cap, since, old(calls) - 1, written)
    {
      ok, written := Fetch(data, cap);
      ghost var fetched := trace;
      var _ := CloseReader();
      assert trace == fetched + [Event(Own, false, true)];
    }

    /** The query on a reader, capped, under the lock. written is what was fetched even on failure, asked the
        number of the call that ran the query. */
    method RunOpened(query: string, cap: nat) returns (ok: bool, written: seq<Row>, ghost asked: nat)
      requires Valid() && inUse
      modifies this`calls, this`trace, this`writer, this`reader, this`file
      ensures Valid() && file == old(file) && old(trace) <= trace
      ensures ok ==> Answered(query, cap, old(calls), asked, written)
      ensures ok <==> QueryWorks(lib, old(calls), old(writer), query, file, cap)
      ensures lib.isSelect(query) == Some(true) && lib.eval(query, file).Some? ==>
                var first := old(calls) + if old(writer) then 5 else 4;
                Quiet(lib.fails, old(calls), first) ==>
                  (ok, written) == Fetched(lib.fails, first, lib.eval(query, file).value.rows, cap)
    {
      written, asked := [], 0;
      var reading := OpenForSelect(query);
      if !reading {
        return false, [], asked;
      }
      var data := Execute(query, OnReader);
      if data.None? {
        var _ := CloseReader();
        return false, [], asked;
      }
      asked := calls - 1;
      ok, written := FetchAnswer(query, data.value, cap, old(calls));
    }

    /** What both read paths share; from is the number of the first call once the database is open. */
    method RunBounded(query: string, cap: nat)
      returns (ok: bool, written: seq<Row>, ghost asked: nat, ghost from: nat)
      requires Valid()
      modifies this`calls, this`trace, this`tables, this`writer, this`inUse, this`reader, this`file
      ensures Valid() && file == old(file) && old(trace) <= trace
      ensures ok ==> Answered(query, cap, old(calls), asked, written)
      ensures old(inUse) ==> from == old(calls)
      ensures ok <==>
                && (old(inUse) || Quiet(lib.fails, old(calls), old(calls) + 2))
                && QueryWorks(lib, from, old(inUse ==> writer), query, file, cap)
      ensures old(inUse) && lib.isSelect(query) == Some(true) && lib.eval(query, file).Some? ==>
                var first := old(calls) + if old(writer) then 5 else 4;
                Quiet(lib.fails, old(calls), first) ==>
                  (ok, written) == Fetched(lib.fails, first, lib.eval(query, file).value.rows, cap)
      ensures old(inUse) ==> tables == old(tables)
      ensures old(Mirrored()) && Heard(lib.fails, trace, old(calls)) ==> Mirrored()
    {
      var usable := Open();
      from := calls;
      if !usable {
        return false, [], 0, from;
      }
      ghost var opening := trace;
      ok, written, asked := RunOpened(query, cap);
      Remains(opening, old(calls));
    }

    method QuerySQL(query: string, cap: nat) returns (rows: Option<seq<Row>>, ghost asked: nat, ghost from: nat)
      requires Valid()
      modifies this`calls, this`trace, this`tables, this`writer, this`inUse, this`reader, this`file
      ensures Valid() && file == old(file) && old(trace) <= trace
      ensures rows.Some? ==>
                && Answered(query, cap, old(calls), asked, rows.value)
                && rows.value <= lib.eval(query, file).value.rows && |rows.value| <= cap
      ensures old(inUse) ==> from == old(calls)
      ensures rows.Some? <==>
                && (old(inUse) || Quiet(lib.fails, old(calls), old(calls) + 2))
                && QueryWorks(lib, from, old(inUse ==> writer), query, file, cap)
      ensures old(Mirrored()) && Heard(lib.fails, trace, old(calls)) ==> Mirrored()
    {
      var ok, written;
      ok, written, asked, from := RunBounded(query, cap);
      if ok {
        FetchedIsPrefix(lib.fails, asked + 1, lib.eval(query, file).value.rows, cap);
      }
      rows := if ok then Some(written) else None;
    }

    /** The first rows of a table: as many as asked for, but at most 1000, and 20 for a limit that is not positive. */
    method PreviewTable(name: string, limit: int) returns (rows: Option<seq<Row>>)
      requires Valid()
      modifies this`calls, this`trace, this`tables, this`writer, this`inUse
      ensures Valid() && old(trace) <= trace
      ensures rows.Some? ==> name in file && rows.value <= file[name].data.rows && |rows.value| <= 1000
      ensures old(inUse) ==>
                (rows.Some? <==> PreviewWorks(lib, old(calls), old(writer), name in old(tables), name, file, limit))
      ensures old(inUse) && name in old(tables) && name in file && Quiet(lib.fails, old(calls), calls) ==>
                && rows.Some?
                && var n, all := if limit < 1 then 20 else if limit > 1000 then 1000 else limit, file[name].data.rows;
                   rows.value == if n < |all| then all[..n] else all
      ensures old(Mirrored()) && Heard(lib.fails, trace, old(calls)) ==> Mirrored()
    {
      var usable := Open();
      ghost var opening := trace;
      if !usable || name !in tables {
        return None;
      }
      rows := PreviewOpened(name, limit);
      Remains(opening, old(calls));
    }

    method PreviewOpened(name: string, limit: int) returns (rows: Option<seq<Row>>)
      requires Valid() && inUse
      modifies this`calls, this`trace, this`writer
      ensures Valid() && old(trace) <= trace
      ensures rows.Some? <==> PreviewWorks(lib, old(calls), old(writer), true, name, file, limit)
      ensures rows.Some? ==> rows.value <= FirstRows(file[name].data.rows, limit)
      ensures name in file && Quiet(lib.fails, old(calls), calls) ==>
                rows == Some(FirstRows(file[name].data.rows, limit))
    {
      var got := EnsureWriter();
      if !got {
        return None;
      }
      var ran := Touch(Own);
      if !ran || name !in file {
        return None;
      }
      rows := FetchPreview(file[name].data.(rows := FirstRows(file[name].data.rows, limit)));
    }

    method FetchPreview(data: Data) returns (rows: Option<seq<Row>>)
      requires Traced() && !reader
      modifies this`calls, this`trace
      ensures Traced() && old(trace) <= trace
      ensures rows.Some? <==> Fetched(lib.fails, old(calls), data.rows, |data.rows|).0
      ensures rows.Some? ==> rows.value <= data.rows
      ensures Quiet(lib.fails, old(calls), calls) ==> rows == Some(data.rows)
    {
      FetchedIsPrefix(lib.fails, calls, data.rows, |data.rows|);
      var ok, fetched := Fetch(data, |data.rows|);
      rows := if ok then Some(fetched) else None;
    }

    method SetTableDescription(name: string, description: string) returns (ok: bool)
      requires Valid()
      modifies this`calls, this`trace, this`tables, this`writer, this`file
      ensures Valid() && old(trace) <= trace
      ensures ok <==>
                && old(inUse) && name in old(file)
                && Quiet(lib.fails, old(calls), old(calls) + if old(writer) then 1 else 2)
      ensures ok ==> file == old(file)[name := old(file)[name].(comment := description)]
      ensures ok ==> tables.Keys == old(tables).Keys
      ensures ok ==>
                forall n :: n in tables ==>
                  tables[n] == if n == name then old(tables)[n].(description := description) else old(tables)[n]
      ensures !ok ==> file == old(file) && tables == old(tables)
      ensures old(Mirrored()) ==> Mirrored()
    {
      if !inUse {
        return false;
      }
      var got := EnsureWriter();
      if !got {
        return false;
      }
      var ran := Touch(Own);
      if !ran || name !in file {
        return false;
      }
      MirrorUpdate(file, name, file[name].(comment := description));
      file := file[name := file[name].(comment := description)];
      if name in tables {
        tables := tables[name := tables[name].(description := description)];
      }
      ok := true;
    }

    /** Drops the tables one by one. A failure half way leaves the metadata of the tables already dropped, so
        that the map mirrors the file exactly if none was dropped before. */
    method Reset() returns (ok: bool)
      requires Valid()
      modifies this`calls, this`trace, this`tables, this`writer, this`file
      ensures Valid() && old(trace) <= trace
      ensures old(inUse) ==>
                (ok <==> Quiet(lib.fails, old(calls), old(calls) + |old(tables)| + if old(writer) then 0 else 1))
      ensures ok && old(inUse) ==> tables == map[] && file == old(file) - old(tables).Keys
      ensures !ok ==> tables == old(tables)
      ensures forall n :: n in file ==> n in old(file) && file[n] == old(file)[n]
      ensures old(inUse) && old(Mirrored()) ==> (Mirrored() <==> ok || file == old(file))
      ensures old(inUse) && old(Mirrored()) && ok ==> file == map[]
      ensures old(Mirrored()) && Heard(lib.fails, trace, old(calls)) ==> Mirrored()
    {
      if !inUse {
        return true;
      }
      var got := EnsureWriter();
      if !got {
        return false;
      }
      ghost var first := calls;
      ok := DropTables();
      RemainsLater(old(calls), first);
      if old(Mirrored()) {
        DroppedMirror(old(file), file, ok);
      }
      if ok {
        tables := map[];
      }
    }

    method DropTables() returns (ok: bool)
      requires Traced() && writer && !reader && inUse
      modifies this`calls, this`trace, this`file
      ensures Traced() && old(trace) <= trace
      ensures ok <==> Quiet(lib.fails, old(calls), old(calls) + |tables|)
      ensures ok ==> file == old(file) - tables.Keys
      ensures !ok ==> !Heard(lib.fails, trace, old(calls)) && exists gone: set<string> :: file == old(file) - gone
      ensures file.Keys <= old(file).Keys
    {
      var left := tables.Keys;
      while left != {}
        invariant left <= tables.Keys && Traced() && old(trace) <= trace
        invariant file == old(file) - (tables.Keys - left)
        invariant calls == old(calls) + |tables| - |left| && Quiet(lib.fails, old(calls), calls)
        decreases |left|
      {
        var name :| name in left;
        ghost var c := calls;
        var dropped := Touch(Drop);
        if !dropped {
          assert trace[c].call == Drop;
          return false;
        }
        DropOne(old(file), tables.Keys, left, name);
        file := file - {name};
        left := left - {name};
      }
      assert tables.Keys - left == tables.Keys;
      ok := true;
    }

    method Perform(op: Op)
      requires Valid()
      modifies this
      ensures Valid() && old(trace) <= trace
      ensures op.QueryOp? || op.ExportOp? || op.PreviewOp? || op.OpenOp? || op.CloseOp? ==> file == old(file)
      ensures op.SaveQueryOp? ==> forall n :: n in old(file) ==> n in file && file[n] == old(file)[n]
      ensures op.SaveQueryOp? ==> file.Keys <= old(file).Keys + {op.name}
      ensures old(Mirrored()) && Heard(lib.fails, trace, old(calls)) ==> Mirrored()
    {
      match op
      case OpenOp => var _ := Open();
      case CloseOp => var _ := Close();
      case LoadOp(n, p) => var _, _ := LoadTable(n, p);
      case SaveQueryOp(n, q, d) => var _, _, _ := CreateFromQuery(n, q, d);
      case QueryOp(q, cap) => var _, _, _ := QuerySQL(q, cap);
      case ExportOp(q, cap) => var _, _, _, _ := RunBounded(q, cap);
      case PreviewOp(n, l) => var _ := PreviewTable(n, l);
      case DescribeOp(n, d) => var _ := SetTableDescription(n, d);
      case ResetOp => var _ := Reset();
    }

    /** Over any sequence of operations and failures: never two instances on the file, agent SQL on readers only,
        and metadata that mirrors the tables unless a metadata query, or the drop of a table, failed. A session of
        queries, previews and saved queries never changes or removes a table that was there. */
    method Session(ops: seq<Op>)
      requires Valid()
      modifies this
      ensures Valid() && old(trace) <= trace
      ensures old(Mirrored()) && Heard(lib.fails, trace, old(calls)) ==> Mirrored()
      ensures (forall i :: 0 <= i < |ops| ==> !(ops[i].LoadOp? || ops[i].DescribeOp? || ops[i].ResetOp?)) ==>
                forall n :: n in old(file) ==> n in file && file[n] == old(file)[n]
    {
      for i := 0 to |ops|
        invariant Valid() && old(trace) <= trace
        invariant old(Mirrored()) && Heard(lib.fails, trace, old(calls)) ==> Mirrored()
        invariant (forall k :: 0 <= k < i ==> !(ops[k].LoadOp? || ops[k].DescribeOp? || ops[k].ResetOp?)) ==>
                    forall n :: n in old(file) ==> n in file && file[n] == old(file)[n]
      {
        ghost var so := trace;
        Perform(ops[i]);
        Remains(so, old(calls));
        RemainsLater(old(calls), |so|);
      }
    }
  }

  /** The list of tables cannot be read, which opening the database does not report: it is in use, and its one
      table is missing from the metadata. */
  method MissesATable() returns (e: Engine)
    ensures fresh(e) && e.Valid() && e.inUse && e.file.Keys == {"t"} && e.tables == map[]
  {
    var none := (q: string, file: Database) => None;
    var lib := Library(ThirdFails(), q => None, none, (q: string, file: Database) => file, p => None);
    var file: Database := map["t" := Table(Data(["c"], []), "")];
    e := new Engine(lib, file);
    var ok := e.Open();
    assert lib.fails(2);
  }
}
