# sid: sequence id server, modelled in Dafny

This project models the core of `sidserver/main.go`, a gRPC service that hands out numeric ids.
Each configured *sequence* is a MySQL table with an auto-increment key. A request names a sequence and
carries an opaque object id (`Oid`). The server inserts the `Oid` into that table and replies with the
generated key.

The model has four modules:

- `Wrappers` holds `Option`, which stands for Go's `(value, error)` pairs and for nil pointers.
- `Queries` builds the two SQL texts the server concatenates for a sequence name: the `CREATE TABLE IF
  NOT EXISTS` DDL and the prepared `INSERT`. It also holds `Unsplice`, their partner, which recovers the
  name from a text. Round-trip and injectivity lemmas connect the two.
- `Sql` is a stub for `database/sql` and MySQL. It is an assumption of the model, not code of the
  service. Its class `DB` holds the tables (rows plus an auto-increment counter) and a count of `Exec`
  round trips. Every stub call may fail, chosen nondeterministically. A failed call leaves the tables as
  they were. A successful insert appends exactly one row, keyed one above the table's counter.
- `SidServer` holds the reply codes (the `iota` block), `SequenceConfig` and `Config`, the provisioning
  loop `ProvisionSequences` and the startup method `Start`. It also holds the class `SIDServer`, whose
  `Generate` method is the request handler.

`Generate` is a method because it calls the stateful store stub. Its contract covers all five exits:

- an empty name returns code `ErrCodeSequenceRequired`;
- a name that is not a key of the registry returns `ErrCodeSequenceUndefined`;
- a failed `Exec` returns `ErrCodeStatementExecuteFailed`;
- a failed `LastInsertId` returns `ErrCodeFailedToGetLastInsertId`;
- otherwise the reply is a success.

The contract also states what happened to the store on each path. The two validation failures leave it
untouched. Every other path makes exactly one `Exec` round trip. The code-3 path has already committed
exactly one row. A success echoes the caller's `Oid` and carries the committed row's key. The registry
entries are never modified.

The `iota` block makes `ErrCodeSequenceRequired` equal to 0, which is also the success code. The model
keeps this as written. `SequenceRequiredLooksLikeSuccess` states the collision. `Generate`'s contract
shows that the code cannot tell the two replies apart; the key always can, since success keys are at
least 1.

`ProvisionSequences` is the startup loop over the registry map. It visits the names in an arbitrary
order, as Go's map iteration does. For each name it runs the DDL, prepares the INSERT and stores the
statement into the entry object, in place. It is proved to leave every name provisioned, meaning its
entry exists, holds exactly `INSERT INTO <name> (oid) VALUES (?)` and its table exists. Tables that
already existed keep their rows, and tables it created are empty. Any failure ends the loop with a
`Fatal` outcome. `Start` creates a server only after a `Ready` outcome.

The contracts of `Generate`, `ProvisionSequences` and `Start` use `old`/`modifies`, because the source
changes state there.

Three behaviours of the code are kept as written:

- The first error code is 0, the same number as the success literal at `main.go:64`.
- There is no check for duplicate sequence names. In the model the registry is a map, so names are
  unique keys.
- A JSON `null` entry makes the code dereference a nil pointer at `main.go:128`. That panic is modelled
  as `Fatal(n, NilEntry)`.

## Model

| member | source | states |
|---|---|---|
| `SidServer.ErrorCodesConsecutive` | sidserver/main.go:29-34 | the four error codes are 0, 1, 2, 3 in declaration order, hence distinct and consecutive |
| `SidServer.SequenceRequiredLooksLikeSuccess` | sidserver/main.go:29-45 | `ErrCodeSequenceRequired` equals the success code 0 of line 64; the empty-name reply is the same value as a success reply with key 0 and an empty `Oid` |
| `SidServer.SIDServer.Generate` | sidserver/main.go:43-65 | empty name: reply sets only `Code = 0`, store untouched; unknown name (exact key match): only `Code = 1`, store untouched; otherwise exactly one `Exec` round trip; `Exec` failure: only `Code = 2`, no row written; `LastInsertId` failure: only `Code = 3`, yet exactly one row with the `Oid` was committed; success: `Code = 0`, `Id` = the committed row's key, `Oid` = the request's `Oid`; the registry entries are unchanged; a code-0 reply has key 0 exactly when the name was empty |
| `SidServer.SequenceConfig.constructor` | sidserver/main.go:75-77 | a fresh registry entry has no statement (`Stmt` is nil) |
| `SidServer.ProvisionSequences` | sidserver/main.go:112-129 | on completion every configured name has a non-nil entry holding the prepared `INSERT INTO <name> (oid) VALUES (?)` and its table exists; the set of tables grows by exactly the configured names; existing tables keep their rows and created tables are empty; on every outcome, failures included, only configured names can have gained a table; no insert is executed; a failure names a configured sequence, and a nil-entry failure names one whose entry is nil |
| `SidServer.SIDServer.constructor` | sidserver/main.go:143 | the server holds exactly the decoded configuration and the store handle |
| `SidServer.Start` | sidserver/main.go:112-143 | a server exists exactly when provisioning completed; the server it returns is fresh, holds the configuration and store and has every configured name provisioned; a DDL, prepare or nil-entry failure yields no server and names a configured sequence; tables that existed keep their rows and created tables are empty; only configured names can have gained a table, whether startup succeeded or not; no insert is executed |
| `Queries.CreateTableQuery` | sidserver/main.go:116-119 | the DDL built for a name is `CREATE TABLE IF NOT EXISTS`, the name and the fixed column list, and the name read back from it is exactly that name |
| `Queries.CreateTableQueryInjective` | sidserver/main.go:116-119 | two names get the same DDL text if and only if they are equal |
| `Queries.InsertQuery` | sidserver/main.go:124 | the INSERT built for a name is `INSERT INTO`, the name and ` (oid) VALUES (?)`, and the table read back from it is exactly that name |
| `Queries.InsertQueryInjective` | sidserver/main.go:124 | two names get the same INSERT text if and only if they are equal, so in the store stub each entry's statement writes to its own table (MySQL's own name resolution is not modelled, see "## Left out") |
| `Queries.UnspliceSplice` | sidserver/main.go:116-124 | a name spliced between a fixed prefix and suffix is recovered exactly, whatever characters it contains |
| `Sql.DB.Query` | sidserver/main.go:120 | store stub for `db.Query` on the DDL: on success the named table exists and an existing table's rows are untouched; on failure nothing changes |
| `Sql.DB.Prepare` | sidserver/main.go:124 | store stub for `db.Prepare`: a statement is returned only for an INSERT text whose table exists, and it carries that text |
| `Sql.DB.Exec` | sidserver/main.go:53 | store stub for `Stmt.Exec`: one round trip; on failure no row is written; on success exactly one row with the `Oid` is appended under the next key, which is returned |
| `Sql.DB.LastInsertId` | sidserver/main.go:58 | store stub for `LastInsertId`: when it succeeds it returns the key of the insert |

## Left out

- The gRPC server, `net.Listen`, reflection registration and `Serve` (`main.go:137-151`) are
  transport plumbing. `Start` ends where the server value is built.
- Reading the config file, `json.Unmarshal`, `sql.Open`, `Ping`, logging and the deferred `Close`
  calls (`main.go:85-110`, `131-135`) are I/O and foreign library calls. The decoded `Config` and an
  opened `DB` are parameters. The DSN is carried in `Config` but never used.
- MySQL itself is a stub. Failures are nondeterministic, and keys are one above a per-table counter.
  The increasing keys are an assumption of the stub, not something proved about the service.
- The `BINARY(14)` padding and truncation of `Oid` is not modelled; an over-long `Oid` is just one of
  the reasons an `Exec` may fail.
- SQL injection through the concatenated names is not modelled. The stub reads a table name as exactly
  the text between the fixed prefix and suffix. MySQL resolves names its own way (`jobs` and ` jobs`
  reach the same table), so distinct texts reaching distinct tables holds only in the stub.
- A failed `Exec` whose row MySQL committed anyway (for example when the connection drops after the
  write) is not modelled. The stub writes no row on a failed `Exec`, so Generate's "no row written" on
  code 2 rests on that assumption.
- The rows value returned by `db.Query` at `main.go:120` is discarded and never closed. Its effect on
  the connection pool is not modelled.
- Sql.DB.LastInsertId: the Go result is an `int64` and the column is `BIGINT UNSIGNED`; the model's
  keys are unbounded naturals, so wrap-around past 2^63 keys is not modelled.
- Concurrency and cancellation are not modelled. gRPC runs handlers concurrently, the code takes no
  locks, and `ctx` is never read (`main.go:43`). Each `Generate` call is modelled as one atomic step.
- SidServer.SIDServer.Generate: requires that every entry is provisioned, which `Start` establishes
  before a server exists. The nil-pointer panics a non-provisioned entry would cause are not modelled.
- SidServer.ProvisionSequences: requires that distinct names point to distinct entry objects, as
  `json.Unmarshal` produces them. Aliased entries are not modelled.
- A duplicate-name check is not modelled, because the code has none. Repeated JSON keys are
  decoder behaviour.
- The two clients (`sidclient/client.go`, `sid-client/client.go`) are not part of this model. They
  only dial, call and print.
