/** `Database.transaction` over a SQLite connection: a depth counter and savepoints named after it. */
module Transactions {
  import opened TransactionSpec

  // "sp_n" for the savepoint opened at depth n.
  datatype Name = Unnamed | Savepoint(depth: nat)

  datatype Mark = Mark(name: Name, saved: Table)

  // The innermost mark of that name.
  function Find(marks: seq<Mark>, name: Name): (i: int)
    ensures -1 <= i < |marks|
    ensures 0 <= i ==> marks[i].name == name
    ensures forall j :: i < j < |marks| ==> marks[j].name != name
  {
    if marks == [] then -1
    else if marks[|marks| - 1].name == name then |marks| - 1
    else Find(marks[..|marks| - 1], name)
  }

  /** The transaction statements of SQLite.  Each answers false, and does nothing, when the engine
      would refuse it; `committed` is what other connections see. */
  class Connection {
    var table: Table
    var marks: seq<Mark>
    var committed: Table
    ghost var commits: seq<Table>

    ghost predicate Valid()
      reads this
    {
      committed == if marks == [] then table else marks[0].saved
    }

    constructor ()
      ensures Valid() && table == map[] && marks == [] && commits == []
    {
      table, marks, committed, commits := map[], [], map[], [];
    }

    method Perform(w: Write)
      requires Valid()
      modifies this
      ensures Valid() && table == Apply(old(table), w) && marks == old(marks)
      ensures commits == old(commits) + if marks == [] then [table] else []
    {
      table := Apply(table, w);
      if marks == [] {
        committed := table;
        commits := commits + [table];
      }
    }

    method Begin() returns (ok: bool)
      requires Valid()
      modifies this`marks
      ensures Valid() && ok == (old(marks) == [])
      ensures marks == if ok then [Mark(Unnamed, table)] else old(marks)
    {
      ok := marks == [];
      if ok {
        marks := [Mark(Unnamed, table)];
      }
    }

    method OpenSavepoint(name: Name)
      requires Valid()
      modifies this`marks
      ensures Valid() && marks == old(marks) + [Mark(name, table)]
    {
      marks := marks + [Mark(name, table)];
    }

    method Commit(refused: bool) returns (ok: bool)
      requires Valid()
      modifies this
      ensures Valid() && table == old(table)
      ensures ok == (old(marks) != [] && !refused)
      ensures if ok then marks == [] && commits == old(commits) + [table] else marks == old(marks) && commits == old(commits)
    {
      ok := marks != [] && !refused;
      if ok {
        marks := [];
        committed := table;
        commits := commits + [table];
      }
    }

    method Rollback() returns (ok: bool)
      requires Valid()
      modifies this`marks, this`table
      ensures Valid() && ok == (old(marks) != []) && marks == []
      ensures table == if ok then old(marks)[0].saved else old(table)
    {
      ok := marks != [];
      if ok {
        table := marks[0].saved;
        marks := [];
      }
    }

    // Releasing the mark that opened the transaction commits it.
    method Release(name: Name) returns (ok: bool)
      requires Valid()
      modifies this
      ensures Valid() && table == old(table) && ok == (Find(old(marks), name) >= 0)
      ensures marks == if ok then old(marks)[..Find(old(marks), name)] else old(marks)
      ensures commits == old(commits) + if ok && marks == [] then [table] else []
    {
      var i := Find(marks, name);
      ok := i >= 0;
      if ok {
        marks := marks[..i];
        if marks == [] {
          committed := table;
          commits := commits + [table];
        }
      }
    }

    method RollbackTo(name: Name) returns (ok: bool)
      requires Valid()
      modifies this`marks, this`table
      ensures Valid() && ok == (Find(old(marks), name) >= 0)
      ensures marks == if ok then old(marks)[..Find(old(marks), name) + 1] else old(marks)
      ensures table == if ok then old(marks)[Find(old(marks), name)].saved else old(table)
    {
      var i := Find(marks, name);
      ok := i >= 0;
      if ok {
        table := marks[i].saved;
        marks := marks[..i + 1];
      }
    }
  }

  function NameAt(depth: nat): Name { if depth == 1 then Unnamed else Savepoint(depth) }

  class Database {
    const conn: Connection
    var txDepth: nat

    /** The depth counter is the number of open marks, and the mark at height n is named after n:
        in particular no two live savepoints share a name. */
    ghost predicate WellNested()
      reads this, conn
    {
      && conn.Valid()
      && txDepth == |conn.marks|
      && forall i :: 0 <= i < |conn.marks| ==> conn.marks[i].name == NameAt(i + 1)
    }

    constructor ()
      ensures WellNested() && txDepth == 0 && fresh(conn) && conn.table == map[] && conn.commits == []
    {
      conn := new Connection();
      txDepth := 0;
    }

    /** Running any program, at any depth, gives its meaning: table, exception and durable states. */
    method Execute(p: Program) returns (raised: bool)
      requires WellNested()
      modifies this, conn
      ensures WellNested() && conn.marks == old(conn.marks)
      ensures var o := Meaning(p, old(conn.table), old(txDepth) > 0);
              conn.table == o.table && raised == o.raised && conn.commits == old(conn.commits) + o.commits
      decreases p, 0
    {
      match p {
        case Stop =>
          return false;
        case Then(first, rest) =>
          raised := ExecuteStmt(first);
          if !raised {
            raised := Execute(rest);
          }
      }
    }

    method ExecuteStmt(s: Stmt) returns (raised: bool)
      requires WellNested()
      modifies this, conn
      ensures WellNested() && conn.marks == old(conn.marks)
      ensures var o := MeaningOf(s, old(conn.table), old(txDepth) > 0);
              conn.table == o.table && raised == o.raised && conn.commits == old(conn.commits) + o.commits
      decreases s, 0
    {
      match s {
        case Do(w) =>
          conn.Perform(w);
          return false;
        case Raise =>
          return true;
        case Swallow(body) =>
          var _ := Execute(body);
          return false;
        case Choose(test, yes, no) =>
          if test(conn.table) {
            raised := Execute(yes);
          } else {
            raised := Execute(no);
          }
        case Block(body, commitFails) =>
          raised := Transaction(body, commitFails);
      }
    }

    /** One `with transaction():` around the body. */
    method Transaction(body: Program, commitFails: bool) returns (raised: bool)
      requires WellNested()
      modifies this, conn
      ensures WellNested() && conn.marks == old(conn.marks)
      ensures var o := MeaningOf(Block(body, commitFails), old(conn.table), old(txDepth) > 0);
              conn.table == o.table && raised == o.raised && conn.commits == old(conn.commits) + o.commits
      decreases body, 1
    {
      ghost var before, entry := conn.marks, conn.table;
      TopLevelIsDurable(body, entry);
      Enter();
      raised := Execute(body);
      if txDepth == 1 {
        raised := LeaveOuter(raised, commitFails, entry);
      } else {
        LeaveInner(raised, before, entry);
      }
    }

    // BEGIN or SAVEPOINT.
    method Enter()
      requires WellNested()
      modifies this, conn`marks
      ensures WellNested() && txDepth == old(txDepth) + 1
      ensures conn.marks == old(conn.marks) + [Mark(NameAt(txDepth), conn.table)]
    {
      txDepth := txDepth + 1;
      if txDepth == 1 {
        var ok := conn.Begin();
        assert ok;
      } else {
        conn.OpenSavepoint(Savepoint(txDepth));
      }
    }

    // COMMIT, or ROLLBACK when the body or the COMMIT itself has failed.
    method LeaveOuter(bodyRaised: bool, commitFails: bool, ghost entry: Table) returns (raised: bool)
      requires WellNested() && txDepth == 1 && conn.marks == [Mark(Unnamed, entry)]
      modifies this, conn
      ensures WellNested() && txDepth == 0 && conn.marks == []
      ensures raised == (bodyRaised || commitFails)
      ensures conn.table == (if raised then entry else old(conn.table))
      ensures conn.commits == old(conn.commits) + (if raised then [] else [conn.table])
    {
      raised := bodyRaised;
      if !raised {
        var ok := conn.Commit(commitFails);
        raised := !ok;
      }
      if raised {
        var ok := conn.Rollback();
        assert ok;
      }
      txDepth := txDepth - 1;
    }

    // RELEASE, after ROLLBACK TO when the body has failed.
    method LeaveInner(raised: bool, ghost before: seq<Mark>, ghost entry: Table)
      requires WellNested() && txDepth > 1 && conn.marks == before + [Mark(Savepoint(txDepth), entry)]
      modifies this, conn
      ensures WellNested() && txDepth == old(txDepth) - 1 && conn.marks == before
      ensures conn.table == (if raised then entry else old(conn.table))
      ensures conn.commits == old(conn.commits)
    {
      var savepoint := Savepoint(txDepth);
      assert conn.marks[..|before|] == before && conn.marks[..|before| + 1] == conn.marks;
      assert Find(conn.marks, savepoint) == |before|;
      if raised {
        var ok := conn.RollbackTo(savepoint);
        assert ok;
      }
      var ok := conn.Release(savepoint);
      assert ok;
      txDepth := txDepth - 1;
    }
  }

  /** No two live savepoints share a name, so a name always means the mark that was opened with it. */
  lemma LiveNamesAreDistinct(db: Database, i: nat, j: nat)
    requires db.WellNested() && i < j < |db.conn.marks|
    ensures db.conn.marks[i].name != db.conn.marks[j].name
  {
    assert db.conn.marks[i].name == NameAt(i + 1) && db.conn.marks[j].name == NameAt(j + 1);
  }
}
