/** Nested `transaction()` blocks as a language, with the meaning its users rely on: a block that
    raises leaves no trace, a block that does not is part of whatever encloses it. */
module TransactionSpec {
  import opened Wrappers

  type Table = map<int, int>

  // A row is written, or deleted with None.
  datatype Write = Write(key: int, value: Option<int>)

  datatype Stmt =
    | Do(write: Write)
    | Raise
    | Swallow(body: Program)                               // try ... except Exception: pass
    | Choose(test: Table -> bool, yes: Program, no: Program)  // control flow may depend on what is read
    | Block(body: Program, commitFails: bool)              // with db.transaction(); COMMIT may be refused

  datatype Program = Stop | Then(first: Stmt, rest: Program)

  // `commits` are the states other connections get to see, in order.
  datatype Outcome = Outcome(table: Table, raised: bool, commits: seq<Table>)

  function Apply(t: Table, w: Write): Table
  {
    if w.value.Some? then t[w.key := w.value.value] else t - {w.key}
  }

  // Statements outside any block commit on their own.
  function Meaning(p: Program, t: Table, nested: bool): Outcome
    decreases p
  {
    match p
    case Stop => Outcome(t, false, [])
    case Then(first, rest) =>
      var o := MeaningOf(first, t, nested);
      if o.raised then o
      else var q := Meaning(rest, o.table, nested); q.(commits := o.commits + q.commits)
  }

  function MeaningOf(s: Stmt, t: Table, nested: bool): Outcome
    decreases s
  {
    match s
    case Do(w) => Outcome(Apply(t, w), false, if nested then [] else [Apply(t, w)])
    case Raise => Outcome(t, true, [])
    case Swallow(body) => Meaning(body, t, nested).(raised := false)
    case Choose(test, yes, no) => if test(t) then Meaning(yes, t, nested) else Meaning(no, t, nested)
    case Block(body, commitFails) =>
      var o := Meaning(body, t, true);
      if o.raised || (!nested && commitFails) then Outcome(t, true, [])
      else Outcome(o.table, false, if nested then [] else [o.table])
  }

  // ---------- what the meaning says about writes ----------

  function ApplyAll(t: Table, ws: seq<Write>): Table
  {
    if ws == [] then t else Apply(ApplyAll(t, ws[..|ws| - 1]), ws[|ws| - 1])
  }

  datatype Trace = Trace(writes: seq<Write>, raised: bool)

  // The writes executed, in order, without those of any block that raised; no state is restored here.
  function Survivors(p: Program, t: Table, nested: bool): Trace
    decreases p
  {
    match p
    case Stop => Trace([], false)
    case Then(first, rest) =>
      var a := SurvivorsOf(first, t, nested);
      if a.raised then a
      else var b := Survivors(rest, ApplyAll(t, a.writes), nested); Trace(a.writes + b.writes, b.raised)
  }

  function SurvivorsOf(s: Stmt, t: Table, nested: bool): Trace
    decreases s
  {
    match s
    case Do(w) => Trace([w], false)
    case Raise => Trace([], true)
    case Swallow(body) => Survivors(body, t, nested).(raised := false)
    case Choose(test, yes, no) => if test(t) then Survivors(yes, t, nested) else Survivors(no, t, nested)
    case Block(body, commitFails) =>
      var a := Survivors(body, t, true);
      if a.raised || (!nested && commitFails) then Trace([], true) else a
  }

  lemma {:induction false} ApplyAllConcat(t: Table, a: seq<Write>, b: seq<Write>)
    ensures ApplyAll(t, a + b) == ApplyAll(ApplyAll(t, a), b)
  {
    if b == [] {
      assert a + b == a;
    } else {
      assert (a + b)[..|a + b| - 1] == a + b[..|b| - 1];
      ApplyAllConcat(t, a, b[..|b| - 1]);
    }
  }

  /** All or nothing, at every depth: the final table is the entry table with exactly the writes
      applied that are not inside a raising block. */
  lemma {:induction false} OnlySurvivorsApply(p: Program, t: Table, nested: bool)
    ensures var o := Meaning(p, t, nested);
            var a := Survivors(p, t, nested);
            o.table == ApplyAll(t, a.writes) && o.raised == a.raised
    decreases p
  {
    match p
    case Stop =>
    case Then(first, rest) =>
      OnlySurvivorsApplyStmt(first, t, nested);
      var a := SurvivorsOf(first, t, nested);
      if !a.raised {
        var t' := ApplyAll(t, a.writes);
        OnlySurvivorsApply(rest, t', nested);
        ApplyAllConcat(t, a.writes, Survivors(rest, t', nested).writes);
      }
  }

  lemma {:induction false} OnlySurvivorsApplyStmt(s: Stmt, t: Table, nested: bool)
    ensures var o := MeaningOf(s, t, nested);
            var a := SurvivorsOf(s, t, nested);
            o.table == ApplyAll(t, a.writes) && o.raised == a.raised
    decreases s
  {
    match s
    case Do(w) =>
      assert ApplyAll(t, [w]) == Apply(ApplyAll(t, [w][..0]), w);
    case Raise =>
    case Swallow(body) => OnlySurvivorsApply(body, t, nested);
    case Choose(test, yes, no) =>
      OnlySurvivorsApply(yes, t, nested);
      OnlySurvivorsApply(no, t, nested);
    case Block(body, commitFails) => OnlySurvivorsApply(body, t, true);
  }

  function Latest(t: Table, commits: seq<Table>): Table
  {
    if commits == [] then t else commits[|commits| - 1]
  }

  /** Nothing is left half done at top level: however the program ends, its table is the last state it
      made durable, and code inside a block makes nothing durable by itself. */
  lemma {:induction false} TopLevelIsDurable(p: Program, t: Table)
    ensures Meaning(p, t, true).commits == []
    ensures Meaning(p, t, false).table == Latest(t, Meaning(p, t, false).commits)
    decreases p
  {
    match p
    case Stop =>
    case Then(first, rest) =>
      TopLevelIsDurableStmt(first, t);
      TopLevelIsDurable(rest, MeaningOf(first, t, true).table);
      var o := MeaningOf(first, t, false);
      TopLevelIsDurable(rest, o.table);
      LatestConcat(t, o.commits, Meaning(rest, o.table, false).commits);
  }

  lemma LatestConcat(t: Table, a: seq<Table>, b: seq<Table>)
    ensures Latest(t, a + b) == Latest(Latest(t, a), b)
  {
  }

  lemma {:induction false} TopLevelIsDurableStmt(s: Stmt, t: Table)
    ensures MeaningOf(s, t, true).commits == []
    ensures MeaningOf(s, t, false).table == Latest(t, MeaningOf(s, t, false).commits)
    decreases s
  {
    match s
    case Do(_) =>
    case Raise =>
    case Swallow(body) => TopLevelIsDurable(body, t);
    case Choose(test, yes, no) =>
      TopLevelIsDurable(yes, t);
      TopLevelIsDurable(no, t);
    case Block(body, _) => TopLevelIsDurable(body, t);
  }

  // ---------- blocks that do not raise may be removed ----------

  function Append(p: Program, q: Program): Program
  {
    match p
    case Stop => q
    case Then(first, rest) => Then(first, Append(rest, q))
  }

  // The same statements without any transaction() around them.
  function Flatten(p: Program): Program
    decreases p
  {
    match p
    case Stop => Stop
    case Then(first, rest) => Append(FlattenStmt(first), Flatten(rest))
  }

  function FlattenStmt(s: Stmt): Program
    decreases s
  {
    match s
    case Swallow(body) => Then(Swallow(Flatten(body)), Stop)
    case Choose(test, yes, no) => Then(Choose(test, Flatten(yes), Flatten(no)), Stop)
    case Block(body, _) => Flatten(body)
    case _ => Then(s, Stop)
  }

  // No statement that could raise occurs anywhere.
  predicate Quiet(p: Program)
    decreases p
  {
    match p
    case Stop => true
    case Then(first, rest) => QuietStmt(first) && Quiet(rest)
  }

  predicate QuietStmt(s: Stmt)
    decreases s
  {
    match s
    case Do(_) => true
    case Raise => false
    case Swallow(body) => Quiet(body)
    case Choose(_, yes, no) => Quiet(yes) && Quiet(no)
    case Block(body, commitFails) => Quiet(body) && !commitFails
  }

  lemma {:induction false} MeaningOfAppend(p: Program, q: Program, t: Table, nested: bool)
    ensures var o := Meaning(p, t, nested);
            var r := Meaning(Append(p, q), t, nested);
            if o.raised then r.table == o.table && r.raised
            else r.table == Meaning(q, o.table, nested).table && r.raised == Meaning(q, o.table, nested).raised
    decreases p
  {
    match p
    case Stop =>
    case Then(first, rest) =>
      MeaningOfAppend(rest, q, MeaningOf(first, t, nested).table, nested);
  }

  /** Without failures nesting is invisible: all blocks together change the table as the bare
      statements would. */
  lemma {:induction false} QuietBlocksAreTransparent(p: Program, t: Table, nested: bool)
    requires Quiet(p)
    ensures !Meaning(p, t, nested).raised
    ensures !Meaning(Flatten(p), t, true).raised
    ensures Meaning(p, t, nested).table == Meaning(Flatten(p), t, true).table
    decreases p
  {
    match p
    case Stop =>
    case Then(first, rest) =>
      QuietStmtIsTransparent(first, t, nested);
      QuietBlocksAreTransparent(rest, MeaningOf(first, t, nested).table, nested);
      MeaningOfAppend(FlattenStmt(first), Flatten(rest), t, true);
  }

  lemma {:induction false} QuietStmtIsTransparent(s: Stmt, t: Table, nested: bool)
    requires QuietStmt(s)
    ensures !MeaningOf(s, t, nested).raised
    ensures !Meaning(FlattenStmt(s), t, true).raised
    ensures MeaningOf(s, t, nested).table == Meaning(FlattenStmt(s), t, true).table
    decreases s
  {
    match s
    case Do(w) =>
      assert Meaning(Then(s, Stop), t, true).table == MeaningOf(s, t, true).table;
    case Swallow(body) =>
      QuietBlocksAreTransparent(body, t, nested);
      var bare := Swallow(Flatten(body));
      assert Meaning(Then(bare, Stop), t, true).table == MeaningOf(bare, t, true).table;
    case Choose(test, yes, no) =>
      QuietBlocksAreTransparent(yes, t, nested);
      QuietBlocksAreTransparent(no, t, nested);
      var bare := Choose(test, Flatten(yes), Flatten(no));
      assert Meaning(Then(bare, Stop), t, true).table == MeaningOf(bare, t, true).table;
    case Block(body, _) => QuietBlocksAreTransparent(body, t, true);
  }
}
