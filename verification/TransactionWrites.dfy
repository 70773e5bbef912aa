/** Nested blocks told from outside, by executions and by single keys: what one statement does, in what order
    statements are executed, which write decides a row, and what other connections get to see. */
module TransactionWrites {
  import opened Wrappers
  import opened TransactionSpec

  predicate IsLastTo(ws: seq<Write>, i: nat, key: int)
  {
    i < |ws| && ws[i].key == key && forall j :: i < j < |ws| ==> ws[j].key != key
  }

  predicate Untouched(ws: seq<Write>, key: int) { forall i :: 0 <= i < |ws| ==> ws[i].key != key }

  /** A row is what the last write to its key made of it, or else as it was. */
  lemma {:induction false} LastWriteDecides(t: Table, ws: seq<Write>, key: int)
    ensures Untouched(ws, key) ==> (key in ApplyAll(t, ws) <==> key in t) && (key in t ==> ApplyAll(t, ws)[key] == t[key])
    ensures forall i: nat | IsLastTo(ws, i, key) ::
              && (key in ApplyAll(t, ws) <==> ws[i].value.Some?)
              && (ws[i].value.Some? ==> ApplyAll(t, ws)[key] == ws[i].value.value)
  {
    if ws != [] {
      var init, w := ws[..|ws| - 1], ws[|ws| - 1];
      LastWriteDecides(t, init, key);
      forall i: nat | IsLastTo(ws, i, key)
        ensures (key in ApplyAll(t, ws) <==> ws[i].value.Some?) && (ws[i].value.Some? ==> ApplyAll(t, ws)[key] == ws[i].value.value)
      {
        if i < |init| {
          assert IsLastTo(init, i, key) && w.key != key;
        }
      }
    }
  }

  /** The final table of a program, row by row: the last write to the key that no raising block took back. */
  lemma LastSurvivorDecides(p: Program, t: Table, nested: bool, key: int)
    ensures var after, ws := Meaning(p, t, nested).table, Survivors(p, t, nested).writes;
            && (Untouched(ws, key) ==> (key in after <==> key in t) && (key in t ==> after[key] == t[key]))
            && forall i: nat | IsLastTo(ws, i, key) ::
                 (key in after <==> ws[i].value.Some?) && (ws[i].value.Some? ==> after[key] == ws[i].value.value)
  {
    OnlySurvivorsApply(p, t, nested);
    LastWriteDecides(t, Survivors(p, t, nested).writes, key);
  }

  // ---------- one statement, and one after the other ----------

  /** What each statement does to one row and to the durable states. */
  lemma StatementIs(s: Stmt, t: Table, nested: bool, key: int)
    ensures var o := MeaningOf(s, t, nested);
            match s
            case Do(w) =>
              && !o.raised && o.commits == (if nested then [] else [o.table])
              && (key in o.table <==> if key == w.key then w.value.Some? else key in t)
              && (key in o.table ==> o.table[key] == if key == w.key then w.value.value else t[key])
            case Raise => o.raised && o.table == t && o.commits == []
            case Swallow(body) => !o.raised && o.table == Meaning(body, t, nested).table && o.commits == Meaning(body, t, nested).commits
            case Choose(test, yes, no) => o == Meaning(if test(t) then yes else no, t, nested)
            case Block(body, refused) =>
              var inner := Meaning(body, t, true);
              && (o.raised <==> inner.raised || (refused && !nested))
              && (o.raised ==> o.table == t && o.commits == [])
              && (!o.raised ==> o.table == inner.table && o.commits == if nested then [] else [inner.table])
  {
  }

  function Statements(p: Program): seq<Stmt>
  {
    if p.Stop? then [] else [p.first] + Statements(p.rest)
  }

  // Tables before and after each of n statements, of which only the last may raise.
  predicate Executes(ss: seq<Stmt>, tables: seq<Table>, nested: bool)
  {
    && 1 <= |tables| <= |ss| + 1
    && forall i :: 0 <= i < |tables| - 1 ==>
         && MeaningOf(ss[i], tables[i], nested).table == tables[i + 1]
         && (i < |tables| - 2 ==> !MeaningOf(ss[i], tables[i], nested).raised)
  }

  /** A program is its statements one after the other, each on what the one before has left, up to the first
      that raises: it raises exactly if one does, and nothing after that is executed. */
  lemma {:induction false} UpToTheFirstRaise(p: Program, t: Table, nested: bool) returns (tables: seq<Table>)
    ensures Executes(Statements(p), tables, nested) && tables[0] == t && tables[|tables| - 1] == Meaning(p, t, nested).table
    ensures Meaning(p, t, nested).raised <==>
            |tables| >= 2 && MeaningOf(Statements(p)[|tables| - 2], tables[|tables| - 2], nested).raised
    ensures !Meaning(p, t, nested).raised ==> |tables| == |Statements(p)| + 1
  {
    match p
    case Stop => tables := [t];
    case Then(first, rest) =>
      var o := MeaningOf(first, t, nested);
      if o.raised {
        tables := [t] + [o.table];
        assert Statements(p)[0] == first;
      } else {
        var later := UpToTheFirstRaise(rest, o.table, nested);
        tables := [t] + later;
        ExecutesCons(first, Statements(rest), t, later, nested);
      }
  }

  lemma ExecutesCons(s: Stmt, ss: seq<Stmt>, t: Table, tables: seq<Table>, nested: bool)
    requires Executes(ss, tables, nested) && tables[0] == MeaningOf(s, t, nested).table && !MeaningOf(s, t, nested).raised
    ensures Executes([s] + ss, [t] + tables, nested)
  {
    forall i | 0 <= i < |tables|
      ensures MeaningOf(([s] + ss)[i], ([t] + tables)[i], nested).table == tables[i]
      ensures i < |tables| - 1 ==> !MeaningOf(([s] + ss)[i], ([t] + tables)[i], nested).raised
    {
      assert i > 0 ==> ([s] + ss)[i] == ss[i - 1] && ([t] + tables)[i] == tables[i - 1];
    }
  }

  // ---------- durable states ----------

  predicate InOrder(cuts: seq<nat>, n: nat)
  {
    && (forall i :: 0 <= i < |cuts| ==> cuts[i] <= n)
    && forall i, j :: 0 <= i <= j < |cuts| ==> cuts[i] <= cuts[j]
  }

  predicate AreCuts(t: Table, ws: seq<Write>, commits: seq<Table>, cuts: seq<nat>)
  {
    && |cuts| == |commits| && InOrder(cuts, |ws|)
    && (forall i :: 0 <= i < |cuts| ==> commits[i] == ApplyAll(t, ws[..cuts[i]]))
    && (if cuts == [] then ws == [] else cuts[|cuts| - 1] == |ws|)
  }

  lemma CutInFirst(t: Table, a: seq<Write>, b: seq<Write>, x: nat)
    requires x <= |a|
    ensures ApplyAll(t, (a + b)[..x]) == ApplyAll(t, a[..x])
  {
    assert (a + b)[..x] == a[..x];
  }

  lemma CutInSecond(t: Table, a: seq<Write>, b: seq<Write>, y: nat)
    requires y <= |b|
    ensures ApplyAll(t, (a + b)[..|a| + y]) == ApplyAll(ApplyAll(t, a), b[..y])
  {
    assert (a + b)[..|a| + y] == a + b[..y];
    ApplyAllConcat(t, a, b[..y]);
  }

  lemma InOrderConcat(xs: seq<nat>, n: nat, ys: seq<nat>, m: nat, cuts: seq<nat>)
    requires InOrder(xs, n) && InOrder(ys, m) && |cuts| == |xs| + |ys|
    requires forall i :: 0 <= i < |cuts| ==> cuts[i] == if i < |xs| then xs[i] else n + ys[i - |xs|]
    ensures InOrder(cuts, n + m)
  {
  }

  function Joined(xs: seq<nat>, n: nat, ys: seq<nat>): (cuts: seq<nat>)
    ensures |cuts| == |xs| + |ys|
    ensures forall i :: 0 <= i < |cuts| ==> cuts[i] == if i < |xs| then xs[i] else n + ys[i - |xs|]
  {
    seq(|xs| + |ys|, i requires 0 <= i < |xs| + |ys| => if i < |xs| then xs[i] else n + ys[i - |xs|])
  }

  lemma CutsConcat(t: Table, a: seq<Write>, ca: seq<Table>, xs: seq<nat>, b: seq<Write>, cb: seq<Table>, ys: seq<nat>)
    requires AreCuts(t, a, ca, xs) && AreCuts(ApplyAll(t, a), b, cb, ys)
    ensures AreCuts(t, a + b, ca + cb, Joined(xs, |a|, ys))
  {
    var cuts := Joined(xs, |a|, ys);
    InOrderConcat(xs, |a|, ys, |b|, cuts);
    forall i | 0 <= i < |cuts| ensures (ca + cb)[i] == ApplyAll(t, (a + b)[..cuts[i]]) {
      CutAt(t, a, ca, xs, b, cb, ys, i);
    }
    assert ys == [] ==> b == [];
  }

  lemma CutAt(t: Table, a: seq<Write>, ca: seq<Table>, xs: seq<nat>, b: seq<Write>, cb: seq<Table>, ys: seq<nat>, i: nat)
    requires AreCuts(t, a, ca, xs) && AreCuts(ApplyAll(t, a), b, cb, ys) && i < |xs| + |ys|
    ensures Joined(xs, |a|, ys)[i] <= |a + b| && (ca + cb)[i] == ApplyAll(t, (a + b)[..Joined(xs, |a|, ys)[i]])
  {
    if i < |xs| {
      CutInFirst(t, a, b, xs[i]);
    } else {
      CutInSecond(t, a, b, ys[i - |xs|]);
    }
  }

  /** What other connections see of a program outside any block is never half a block: each durable state is the
      table at the start with an initial stretch of the surviving writes, the stretches grow, and the last one
      is all of them. */
  lemma {:induction false} DurableStatesAreCuts(p: Program, t: Table) returns (cuts: seq<nat>)
    ensures AreCuts(t, Survivors(p, t, false).writes, Meaning(p, t, false).commits, cuts)
    decreases p
  {
    match p
    case Stop => cuts := [];
    case Then(first, rest) =>
      var xs := DurableStatesOfStmt(first, t);
      OnlySurvivorsApplyStmt(first, t, false);
      var a, o := SurvivorsOf(first, t, false), MeaningOf(first, t, false);
      if a.raised {
        cuts := xs;
      } else {
        var ys := DurableStatesAreCuts(rest, o.table);
        cuts := Joined(xs, |a.writes|, ys);
        CutsConcat(t, a.writes, o.commits, xs, Survivors(rest, o.table, false).writes, Meaning(rest, o.table, false).commits, ys);
      }
  }

  lemma {:induction false} DurableStatesOfStmt(s: Stmt, t: Table) returns (cuts: seq<nat>)
    ensures AreCuts(t, SurvivorsOf(s, t, false).writes, MeaningOf(s, t, false).commits, cuts)
    decreases s
  {
    OnlySurvivorsApplyStmt(s, t, false);
    match s
    case Do(w) =>
      cuts := [1];
      assert [w][..1] == [w];
    case Raise => cuts := [];
    case Swallow(body) => cuts := DurableStatesAreCuts(body, t);
    case Choose(test, yes, no) =>
      if test(t) {
        cuts := DurableStatesAreCuts(yes, t);
      } else {
        cuts := DurableStatesAreCuts(no, t);
      }
    case Block(body, refused) =>
      var ws := SurvivorsOf(s, t, false).writes;
      cuts := if MeaningOf(s, t, false).raised then [] else [|ws|];
      assert ws[..|ws|] == ws;
  }
}
