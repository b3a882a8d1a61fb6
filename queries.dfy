/**
  The SQL text the server builds for each configured sequence (sidserver/main.go:116-119, 124).
  Both statements are the sequence name spliced, unescaped, between a fixed prefix and a fixed
  suffix. `Unsplice` is the partner the database stub uses to recover the table name from a
  statement's text.
 */
module Queries {
  import opened Wrappers

  /** Text before and after the name in the DDL (main.go:116-119), whitespace as in the source. */
  const CreatePrefix: string := "CREATE TABLE IF NOT EXISTS "
  const CreateSuffix: string :=
    " (\n\t\t\t\tid BIGINT UNSIGNED PRIMARY KEY AUTO_INCREMENT,\n\t\t\t\toid BINARY(14)\n\t\t\t)"

  /** Text before and after the name in the prepared INSERT (main.go:124). */
  const InsertPrefix: string := "INSERT INTO "
  const InsertSuffix: string := " (oid) VALUES (?)"

  function Splice(prefix: string, name: string, suffix: string): string
  {
    prefix + name + suffix
  }

  /** The name between `prefix` and `suffix`, if `q` has that shape. */
  function Unsplice(prefix: string, q: string, suffix: string): (r: Option<string>)
    ensures r.Some? ==> Splice(prefix, r.value, suffix) == q
    ensures r.None? ==> |q| < |prefix| + |suffix| || q[..|prefix|] != prefix || q[|q| - |suffix|..] != suffix
  {
    if |prefix| + |suffix| <= |q| && q[..|prefix|] == prefix && q[|q| - |suffix|..] == suffix then
      var name := q[|prefix|..|q| - |suffix|];
      assert q == q[..|prefix|] + name + q[|q| - |suffix|..];
      Some(name)
    else
      None
  }

  /** Round trip: the stub reads back exactly the name that was spliced in, whatever it contains. */
  lemma UnspliceSplice(prefix: string, name: string, suffix: string)
    ensures Unsplice(prefix, Splice(prefix, name, suffix), suffix) == Some(name)
  {
  }

  /** Distinct names give distinct statement texts. */
  lemma SpliceInjective(prefix: string, a: string, b: string, suffix: string)
    ensures Splice(prefix, a, suffix) == Splice(prefix, b, suffix) <==> a == b
  {
    if Splice(prefix, a, suffix) == Splice(prefix, b, suffix) {
      UnspliceSplice(prefix, a, suffix);
      UnspliceSplice(prefix, b, suffix);
    }
  }

  /** The DDL of main.go:116-119 for `sequence`. */
  function CreateTableQuery(sequence: string): (q: string)
    ensures CreateTarget(q) == Some(sequence)
  {
    UnspliceSplice(CreatePrefix, sequence, CreateSuffix);
    Splice(CreatePrefix, sequence, CreateSuffix)
  }

  /** The table a `CREATE TABLE IF NOT EXISTS` text of this shape names. */
  function CreateTarget(q: string): Option<string>
  {
    Unsplice(CreatePrefix, q, CreateSuffix)
  }

  /** The INSERT statement text of main.go:124 for `sequence`. */
  function InsertQuery(sequence: string): (q: string)
    ensures InsertTarget(q) == Some(sequence)
  {
    UnspliceSplice(InsertPrefix, sequence, InsertSuffix);
    Splice(InsertPrefix, sequence, InsertSuffix)
  }

  /** The table an `INSERT INTO ... (oid) VALUES (?)` text of this shape writes to. */
  function InsertTarget(q: string): Option<string>
  {
    Unsplice(InsertPrefix, q, InsertSuffix)
  }

  /** Two sequences share an INSERT statement text only if they have the same name. */
  lemma InsertQueryInjective(a: string, b: string)
    ensures InsertQuery(a) == InsertQuery(b) <==> a == b
  {
  }

  /** Two sequences share a DDL text only if they have the same name. */
  lemma CreateTableQueryInjective(a: string, b: string)
    ensures CreateTableQuery(a) == CreateTableQuery(b) <==> a == b
  {
  }
}
