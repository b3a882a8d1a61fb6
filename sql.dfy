/**
  A stub for the `database/sql` handle and the MySQL server behind it. This is an assumption
  standing in for the real store, not code of the service: every call may fail for reasons
  the model does not see (chosen nondeterministically), a failed call leaves the tables as they
  were, and a successful insert appends one row whose key is one more than the table's
  auto-increment counter. Tables are named by the text between the fixed prefix and suffix of the two
  statement shapes in `Queries`; no other SQL is understood by the stub.
 */
module Sql {
  import opened Wrappers
  import opened Queries

  type Bytes = seq<bv8>

  /** One committed row: the generated key and the stored object id. */
  datatype Row = Row(id: nat, oid: Bytes)

  /** A table's rows in commit order and the last key its auto-increment counter handed out. */
  datatype Table = Table(rows: seq<Row>, autoIncrement: nat)

  /** A prepared statement handle (`*sql.Stmt`): the text it was prepared from. */
  datatype Stmt = Stmt(query: string)

  /** What `Stmt.Exec` returns on success (`sql.Result`): the key the insert generated. */
  datatype ExecResult = ExecResult(insertId: nat)

  /** The key the next successful insert into `t` receives. */
  function NextId(tables: map<string, Table>, t: string): nat
    requires t in tables
  {
    tables[t].autoIncrement + 1
  }

  /** The store after one successful insert of `oid` into `t`. */
  function Insert(tables: map<string, Table>, t: string, oid: Bytes): (after: map<string, Table>)
    requires t in tables
    ensures after.Keys == tables.Keys
    ensures after[t].rows == tables[t].rows + [Row(NextId(tables, t), oid)]
    ensures after[t].autoIncrement == NextId(tables, t)
    ensures forall u :: u in tables && u != t ==> after[u] == tables[u]
  {
    var id := NextId(tables, t);
    tables[t := Table(tables[t].rows + [Row(id, oid)], id)]
  }

  class DB {
    /** The tables the store holds. */
    var tables: map<string, Table>
    /** How many `Stmt.Exec` round trips the store has received, failed ones included. */
    var execCount: nat

    constructor (tables: map<string, Table>)
      ensures this.tables == tables && execCount == 0
    {
      this.tables := tables;
      execCount := 0;
    }

    /** `db.Query` on a DDL text: creates the named table if it is absent, or fails. */
    method Query(q: string) returns (ok: bool)
      modifies this
      ensures execCount == old(execCount)
      ensures ok ==> CreateTarget(q).Some?
      ensures ok ==> var t := CreateTarget(q).value;
        tables == if t in old(tables) then old(tables) else old(tables)[t := Table([], 0)]
      ensures !ok ==> tables == old(tables)
    {
      var fails: bool :| true;
      var target := CreateTarget(q);
      if fails || target.None? {
        ok := false;
      } else {
        ok := true;
        if target.value !in tables {
          tables := tables[target.value := Table([], 0)];
        }
      }
    }

    /** `db.Prepare` on an INSERT text: succeeds only for an existing table, and may fail anyway. */
    method Prepare(q: string) returns (r: Option<Stmt>)
      ensures r.Some? ==> r.value == Stmt(q) && InsertTarget(q).Some? && InsertTarget(q).value in tables
    {
      var fails: bool :| true;
      var target := InsertTarget(q);
      if fails || target.None? || target.value !in tables {
        r := None;
      } else {
        r := Some(Stmt(q));
      }
    }

    /** `Stmt.Exec(oid)`: one round trip; on success exactly one row reaches the store. */
    method Exec(stmt: Stmt, oid: Bytes) returns (r: Option<ExecResult>)
      modifies this
      ensures execCount == old(execCount) + 1
      ensures r.None? ==> tables == old(tables)
      ensures r.Some? ==> InsertTarget(stmt.query).Some? && InsertTarget(stmt.query).value in old(tables)
      ensures r.Some? ==> var t := InsertTarget(stmt.query).value;
        r.value.insertId == NextId(old(tables), t) && tables == Insert(old(tables), t, oid)
    {
      execCount := execCount + 1;
      var fails: bool :| true;
      var target := InsertTarget(stmt.query);
      if fails || target.None? || target.value !in tables {
        r := None;
      } else {
        r := Some(ExecResult(NextId(tables, target.value)));
        tables := Insert(tables, target.value, oid);
      }
    }

    /** `sql.Result.LastInsertId`: the generated key, unless the driver reports an error. */
    method LastInsertId(res: ExecResult) returns (r: Option<nat>)
      ensures r.Some? ==> r.value == res.insertId
    {
      var fails: bool :| true;
      r := if fails then None else Some(res.insertId);
    }
  }
}
