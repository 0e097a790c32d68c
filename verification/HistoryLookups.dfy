/** What the two lookups of a tool call return on any history, where ids and names may be used more than once. */
module HistoryLookups {
  import opened History
  import opened Options
  import opened Records

  /** The fallback by name takes the first call of that name. */
  lemma {:induction false} FirstOfTheName(calls: seq<ToolCall>, name: string)
    ensures (forall k :: 0 <= k < |calls| ==> calls[k].name != name) ==> ArgsByName(calls, name) == ""
    ensures forall i :: 0 <= i < |calls| && calls[i].name == name && (forall k :: 0 <= k < i ==> calls[k].name != name) ==>
              ArgsByName(calls, name) == calls[i].args
  {
    if calls != [] && calls[0].name != name {
      FirstOfTheName(calls[1..], name);
      forall i | 0 <= i < |calls| && calls[i].name == name && (forall k :: 0 <= k < i ==> calls[k].name != name)
        ensures ArgsByName(calls, name) == calls[i].args
      {
        assert calls[1..][i - 1] == calls[i];
        assert forall k :: 0 <= k < i - 1 ==> calls[1..][k] == calls[k + 1];
      }
    }
  }

  predicate CallAt(rs: seq<Record>, id: string, i: nat, j: nat) {
    i < |rs| && rs[i].role.Assistant? && j < |rs[i].calls| && rs[i].calls[j].id == id
  }

  predicate ResultAt(rs: seq<Record>, id: string, n: nat) {
    n < |rs| && rs[n].role.Tool? && rs[n].toolCallID == id
  }

  ghost predicate LastCallAt(rs: seq<Record>, id: string, i: nat, j: nat) {
    CallAt(rs, id, i, j) && forall k: nat, l: nat :: CallAt(rs, id, k, l) ==> k < i || (k == i && l <= j)
  }

  predicate LastIn(calls: seq<ToolCall>, id: string, j: nat) {
    j < |calls| && calls[j].id == id && forall l :: j < l < |calls| ==> calls[l].id != id
  }

  predicate LastResultAt(rs: seq<Record>, id: string, n: nat) {
    ResultAt(rs, id, n) && forall k: nat :: n < k < |rs| ==> !ResultAt(rs, id, k)
  }

  /** The arguments are those of the last call with the id, the result is the last one. */
  ghost predicate TellsTheLast(p: Partial, rs: seq<Record>, id: string) {
    && (p.callTs.None? ==> p.args == "" && forall i: nat, j: nat :: !CallAt(rs, id, i, j))
    && (p.callTs.Some? ==> exists i: nat, j: nat ::
          LastCallAt(rs, id, i, j) && p.args == rs[i].calls[j].args && p.callTs == Some(rs[i].ts)
          && (rs[i].calls[j].name != "" ==> p.name == rs[i].calls[j].name))
    && (p.resultTs.None? ==> p.result == "" && p.status == "" && forall n: nat :: !ResultAt(rs, id, n))
    && (p.resultTs.Some? ==> exists n: nat ::
          LastResultAt(rs, id, n) && p.result == rs[n].content && p.status == StatusOf(rs[n])
          && p.resultTs == Some(rs[n].ts))
  }

  lemma {:induction false} LastExists(calls: seq<ToolCall>, id: string) returns (j: nat)
    requires !NoCall(calls, id)
    ensures LastIn(calls, id, j)
  {
    var k := |calls| - 1;
    if calls[k].id == id {
      j := k;
    } else {
      j := LastExists(calls[..k], id);
      assert calls[..k][j] == calls[j] && forall l :: j < l < k ==> calls[..k][l] == calls[l];
    }
  }

  lemma {:induction false} ScanAtLast(p: Partial, ts: int, calls: seq<ToolCall>, id: string, j: nat)
    requires LastIn(calls, id, j)
    ensures ScanCalls(p, ts, calls, id) == p.(name := calls[j].name, args := calls[j].args, callTs := Some(ts))
  {
    var k := |calls| - 1;
    if calls[k].id != id {
      assert calls[..k][j] == calls[j] && forall l :: j < l < k ==> calls[..k][l] == calls[l];
      ScanAtLast(p, ts, calls[..k], id, j);
    } else {
      ScanKeepsTheRest(p, ts, calls[..k], id);
    }
  }

  lemma {:induction false} ScanKeepsTheRest(p: Partial, ts: int, calls: seq<ToolCall>, id: string)
    ensures var q := ScanCalls(p, ts, calls, id);
            q.result == p.result && q.status == p.status && q.resultTs == p.resultTs
  {
    if calls != [] {
      ScanKeepsTheRest(p, ts, calls[..|calls| - 1], id);
    }
  }

  lemma CallsBefore(rs: seq<Record>, r: Record, id: string)
    ensures forall i: nat, j: nat :: CallAt(rs + [r], id, i, j) <==>
              CallAt(rs, id, i, j) || (i == |rs| && r.role.Assistant? && j < |r.calls| && r.calls[j].id == id)
    ensures forall n: nat :: ResultAt(rs + [r], id, n) <==>
              ResultAt(rs, id, n) || (n == |rs| && r.role.Tool? && r.toolCallID == id)
  {
  }

  lemma LastsStay(rs: seq<Record>, r: Record, id: string, i: nat, j: nat)
    requires LastCallAt(rs, id, i, j) && !(r.role.Assistant? && !NoCall(r.calls, id))
    ensures LastCallAt(rs + [r], id, i, j)
  {
    CallsBefore(rs, r, id);
  }

  lemma CallPartGrows(p: Partial, q: Partial, rs: seq<Record>, r: Record, id: string)
    requires TellsTheLast(p, rs, id) && q == ScanRecord(p, r, id)
    ensures var all := rs + [r];
            && (q.callTs.None? ==> q.args == "" && forall i: nat, j: nat :: !CallAt(all, id, i, j))
            && (q.callTs.Some? ==> exists i: nat, j: nat ::
                  LastCallAt(all, id, i, j) && q.args == all[i].calls[j].args && q.callTs == Some(all[i].ts)
                  && (all[i].calls[j].name != "" ==> q.name == all[i].calls[j].name))
  {
    var all := rs + [r];
    CallsBefore(rs, r, id);
    if r.role.Assistant? && !NoCall(r.calls, id) {
      var j := LastExists(r.calls, id);
      ScanAtLast(p, r.ts, r.calls, id, j);
      assert LastCallAt(all, id, |rs|, j) && all[|rs|] == r;
    } else {
      if r.role.Assistant? {
        ScanNoCall(p, r.ts, r.calls, id);
      }
      if p.callTs.Some? {
        var i: nat, j: nat :| LastCallAt(rs, id, i, j) && p.args == rs[i].calls[j].args && p.callTs == Some(rs[i].ts)
          && (rs[i].calls[j].name != "" ==> p.name == rs[i].calls[j].name);
        LastsStay(rs, r, id, i, j);
        assert all[i] == rs[i];
      }
    }
  }

  lemma ResultPartGrows(p: Partial, q: Partial, rs: seq<Record>, r: Record, id: string)
    requires TellsTheLast(p, rs, id) && q == ScanRecord(p, r, id)
    ensures var all := rs + [r];
            && (q.resultTs.None? ==> q.result == "" && q.status == "" && forall n: nat :: !ResultAt(all, id, n))
            && (q.resultTs.Some? ==> exists n: nat ::
                  LastResultAt(all, id, n) && q.result == all[n].content && q.status == StatusOf(all[n])
                  && q.resultTs == Some(all[n].ts))
  {
    var all := rs + [r];
    CallsBefore(rs, r, id);
    if r.role.Tool? && r.toolCallID == id {
      assert LastResultAt(all, id, |rs|) && all[|rs|] == r;
    } else {
      if r.role.Assistant? {
        ScanKeepsTheRest(p, r.ts, r.calls, id);
      }
      if p.resultTs.Some? {
        var n: nat :| LastResultAt(rs, id, n) && p.result == rs[n].content && p.status == StatusOf(rs[n])
          && p.resultTs == Some(rs[n].ts);
        assert LastResultAt(all, id, n) && all[n] == rs[n];
      }
    }
  }

  lemma {:induction false} ScanTellsTheLast(rs: seq<Record>, id: string)
    ensures TellsTheLast(Scan(BLANK, rs, id), rs, id)
  {
    if rs != [] {
      var k := |rs| - 1;
      var p, q := Scan(BLANK, rs[..k], id), Scan(BLANK, rs, id);
      ScanTellsTheLast(rs[..k], id);
      assert rs == rs[..k] + [rs[k]];
      CallPartGrows(p, q, rs[..k], rs[k], id);
      ResultPartGrows(p, q, rs[..k], rs[k], id);
    }
  }

  /** On any history, in the grammar or not, the lookup by id finds something exactly if some call or result carries the
      id; it then shows the arguments of the last such call and the content of the last such result. */
  lemma LookupByIdIsTheLast(rs: seq<Record>, id: string)
    requires id != ""
    ensures DetailsById(rs, id) == NotFound <==>
            (forall i: nat, j: nat :: !CallAt(rs, id, i, j)) && forall n: nat :: !ResultAt(rs, id, n)
    ensures DetailsById(rs, id) != NotFound ==>
              var p := Scan(BLANK, rs, id);
              && TellsTheLast(p, rs, id)
              && DetailsById(rs, id) == Found(Details(p.name, p.args, p.result, p.status, p.callTs, p.resultTs))
  {
    ScanTellsTheLast(rs, id);
    var p := Scan(BLANK, rs, id);
    if p.callTs.Some? {
      var i: nat, j: nat :| LastCallAt(rs, id, i, j);
      assert CallAt(rs, id, i, j);
    }
    if p.resultTs.Some? {
      var n: nat :| LastResultAt(rs, id, n);
      assert ResultAt(rs, id, n);
    }
  }
}
