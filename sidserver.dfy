/**
  The sequence id server (sidserver/main.go): the reply codes, the configuration registry, the
  `Generate` handler and the startup loop that provisions one table and one prepared INSERT per
  configured sequence before serving begins.
 */
module SidServer {
  import opened Wrappers
  import opened Queries
  import Sql

  /*
    The reply codes of main.go:29-34. They come from an `iota` block, so the first one is 0,
    the same number the success reply of main.go:64 carries.
   */
  const ErrCodeSequenceRequired: int := 0
  const ErrCodeSequenceUndefined: int := 1
  const ErrCodeStatementExecuteFailed: int := 2
  const ErrCodeFailedToGetLastInsertId: int := 3
  /** The literal code of the success reply (main.go:64). */
  const SuccessCode: int := 0

  /** The request message: the sequence name and the caller's object id. */
  datatype SIDRequest = SIDRequest(sequence: string, oid: Sql.Bytes)

  /** The reply message. Fields left out of a Go composite literal are 0 and nil (empty). */
  datatype SIDReply = SIDReply(code: int, id: int, oid: Sql.Bytes)

  /** A reply that sets only `Code`, as every error return of `Generate` does. */
  function ErrorReply(code: int): (r: SIDReply)
  {
    SIDReply(code, 0, [])
  }

  /** The four error codes are 0, 1, 2 and 3 in declaration order, hence pairwise distinct. */
  lemma ErrorCodesConsecutive()
    ensures [ErrCodeSequenceRequired, ErrCodeSequenceUndefined,
             ErrCodeStatementExecuteFailed, ErrCodeFailedToGetLastInsertId] == [0, 1, 2, 3]
  {
  }

  /**
    The reply to an empty sequence name is the very value a success that allocated key 0 for an
    empty object id would be: its code cannot tell it from a success. The key always can, since
    the store's keys start at 1.
   */
  lemma SequenceRequiredLooksLikeSuccess()
    ensures ErrCodeSequenceRequired == SuccessCode
    ensures ErrorReply(ErrCodeSequenceRequired) == SIDReply(SuccessCode, 0, [])
  {
  }

  /** `SequenceConfig`: the entry each configured name points to; `Stmt` is nil until provisioned. */
  class SequenceConfig {
    var stmt: Option<Sql.Stmt>

    constructor ()
      ensures stmt == None
    {
      stmt := None;
    }
  }

  datatype MySQLBackendConfig = MySQLBackendConfig(dsn: string)
  datatype BackendConfig = BackendConfig(mysql: MySQLBackendConfig)

  /** `Config`: the backend settings and the registry, a map of names to (nullable) entries. */
  datatype Config = Config(backend: BackendConfig, sequences: map<string, SequenceConfig?>)

  /** The entry objects of a registry. */
  function Entries(sequences: map<string, SequenceConfig?>): set<SequenceConfig?>
  {
    set n | n in sequences :: sequences[n]
  }

  /**
    Each name points to an object of its own. `json.Unmarshal` allocates one entry per key, so
    the registry the server is started with has this shape.
   */
  predicate DistinctEntries(sequences: map<string, SequenceConfig?>)
  {
    forall a, b :: a in sequences && b in sequences && a != b && sequences[a] != null ==>
      sequences[a] != sequences[b]
  }

  /** Name `n` is ready to serve: its entry exists, holds its INSERT statement and its table exists. */
  ghost predicate Provisioned(sequences: map<string, SequenceConfig?>, db: Sql.DB, n: string)
    requires n in sequences
    reads db, Entries(sequences)
  {
    && sequences[n] != null
    && sequences[n].stmt == Some(Sql.Stmt(InsertQuery(n)))
    && n in db.tables
  }

  /** Why startup stops: the failing step and the sequence it failed for. */
  datatype Cause = CreateTableFailed | PrepareFailed | NilEntry
  datatype Provisioning = Ready | Fatal(sequence: string, cause: Cause)

  /**
    The loop of main.go:112-129. Names are visited in an arbitrary order (Go's map order); for
    each one the table is created if absent, the INSERT is prepared and stored into the entry.
    Any failure stops the loop (`log.Fatal`; a nil entry panics on the store at line 128).
   */
  method ProvisionSequences(sequences: map<string, SequenceConfig?>, db: Sql.DB)
    returns (outcome: Provisioning)
    requires DistinctEntries(sequences)
    modifies db, Entries(sequences)
    ensures outcome.Ready? ==> forall n :: n in sequences ==> Provisioned(sequences, db, n)
    ensures outcome.Ready? ==> db.tables.Keys == old(db.tables.Keys) + sequences.Keys
    ensures outcome.Fatal? ==> outcome.sequence in sequences
    ensures outcome.Fatal? && outcome.cause == NilEntry ==> sequences[outcome.sequence] == null
    ensures forall t :: t in old(db.tables) ==> t in db.tables && db.tables[t] == old(db.tables[t])
    ensures forall t :: t in db.tables && t !in old(db.tables) ==> db.tables[t] == Sql.Table([], 0)
    ensures db.tables.Keys <= old(db.tables.Keys) + sequences.Keys
    ensures db.execCount == old(db.execCount)
  {
    var pending := sequences.Keys;
    while pending != {}
      invariant pending <= sequences.Keys
      invariant forall n :: n in sequences && n !in pending ==> Provisioned(sequences, db, n)
      invariant db.tables.Keys == old(db.tables.Keys) + (sequences.Keys - pending)
      invariant forall t :: t in old(db.tables) ==> t in db.tables && db.tables[t] == old(db.tables[t])
      invariant forall t :: t in db.tables && t !in old(db.tables) ==> db.tables[t] == Sql.Table([], 0)
      invariant db.execCount == old(db.execCount)
      decreases pending
    {
      var sequence :| sequence in pending;
      var created := db.Query(CreateTableQuery(sequence));
      if !created {
        return Fatal(sequence, CreateTableFailed);
      }
      var stmt := db.Prepare(InsertQuery(sequence));
      if stmt.None? {
        return Fatal(sequence, PrepareFailed);
      }
      var sconf := sequences[sequence];
      if sconf == null {
        return Fatal(sequence, NilEntry);
      }
      sconf.stmt := stmt;
      pending := pending - {sequence};
    }
    return Ready;
  }

  /** `SIDServer`: the registry and the store handle the handler works with. */
  class SIDServer {
    const config: Config
    const db: Sql.DB

    /** Every configured name is provisioned: what startup establishes before serving. */
    ghost predicate Valid()
      reads db, Entries(config.sequences)
    {
      forall n :: n in config.sequences ==> Provisioned(config.sequences, db, n)
    }

    constructor (config: Config, db: Sql.DB)
      ensures this.config == config && this.db == db
    {
      this.config := config;
      this.db := db;
    }

    /**
      The handler of main.go:43-65. Validation failures touch nothing; otherwise exactly one
      `Exec` round trip is made and the reply reports how far it got.
     */
    method Generate(req: SIDRequest) returns (reply: SIDReply)
      requires Valid()
      modifies db
      ensures Valid()
      ensures unchanged(Entries(config.sequences))
      ensures |req.sequence| == 0 ==>
        reply == ErrorReply(ErrCodeSequenceRequired) && unchanged(db)
      // The code alone cannot tell an empty name from a success; with the stub's keys
      // starting at 1, the key can.
      ensures reply.code == SuccessCode ==> (reply.id == 0 <==> |req.sequence| == 0)
      ensures |req.sequence| > 0 && req.sequence !in config.sequences ==>
        reply == ErrorReply(ErrCodeSequenceUndefined) && unchanged(db)
      ensures |req.sequence| > 0 && req.sequence in config.sequences ==>
        && db.execCount == old(db.execCount) + 1
        && reply.code in {ErrCodeStatementExecuteFailed, ErrCodeFailedToGetLastInsertId, SuccessCode}
        && (reply.code == ErrCodeStatementExecuteFailed ==>
              reply == ErrorReply(ErrCodeStatementExecuteFailed) && db.tables == old(db.tables))
        && (reply.code != ErrCodeStatementExecuteFailed ==>
              db.tables == Sql.Insert(old(db.tables), req.sequence, req.oid))
        && (reply.code == ErrCodeFailedToGetLastInsertId ==>
              reply == ErrorReply(ErrCodeFailedToGetLastInsertId))
        && (reply.code == SuccessCode ==>
              reply == SIDReply(SuccessCode, Sql.NextId(old(db.tables), req.sequence), req.oid))
    {
      if |req.sequence| == 0 {
        return ErrorReply(ErrCodeSequenceRequired);
      }
      if req.sequence !in config.sequences {
        return ErrorReply(ErrCodeSequenceUndefined);
      }
      var sconf := config.sequences[req.sequence];
      var res := db.Exec(sconf.stmt.value, req.oid);
      if res.None? {
        return ErrorReply(ErrCodeStatementExecuteFailed);
      }
      var id := db.LastInsertId(res.value);
      if id.None? {
        return ErrorReply(ErrCodeFailedToGetLastInsertId);
      }
      return SIDReply(SuccessCode, id.value, req.oid);
    }
  }

  /**
    Startup from the point the configuration is decoded and the store reached (main.go:112-143):
    provisioning runs to completion before a server exists, and a failure means no server.
   */
  method Start(config: Config, db: Sql.DB) returns (outcome: Provisioning, server: SIDServer?)
    requires DistinctEntries(config.sequences)
    modifies db, Entries(config.sequences)
    ensures outcome.Ready? <==> server != null
    ensures server != null ==> fresh(server) && server.config == config && server.db == db
    ensures server != null ==> server.Valid()
    ensures server != null ==> db.tables.Keys == old(db.tables.Keys) + config.sequences.Keys
    ensures outcome.Fatal? ==> outcome.sequence in config.sequences
    ensures forall t :: t in old(db.tables) ==> t in db.tables && db.tables[t] == old(db.tables[t])
    ensures forall t :: t in db.tables && t !in old(db.tables) ==> db.tables[t] == Sql.Table([], 0)
    ensures db.tables.Keys <= old(db.tables.Keys) + config.sequences.Keys
    ensures db.execCount == old(db.execCount)
  {
    outcome := ProvisionSequences(config.sequences, db);
    if outcome.Fatal? {
      return outcome, null;
    }
    server := new SIDServer(config, db);
  }
}
