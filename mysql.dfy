/** The database server the application talks to, reduced to the part of its state the
    application's statements touch: whether the database `ScalrTest` and its table
    `ScalrValues` exist, and the values stored in that table in retrieval order. */
module MySql {
  import opened Wrappers

  /** Error codes the MySQL server and client report. */
  const MYSQL_ERROR_CODE_UNKNOWN_DB := 1049
  const MYSQL_ERROR_CODE_NO_HOST := 2005
  const MYSQL_ERROR_CODE_ACCESS_DENIED := 1045
  /** Reported for a statement that names a table the database does not hold;
      MySQLdb raises it as a `ProgrammingError`, not an `OperationalError`. */
  const MYSQL_ERROR_CODE_NO_SUCH_TABLE := 1146

  const SCHEMA_DATABASE := "ScalrTest"
  const SCHEMA_TABLE := "ScalrValues"

  /** A snapshot of the server. */
  datatype ServerState = ServerState(databaseExists: bool, tableExists: bool, rows: seq<string>)
  {
    /** The table lives in the database, and a table that does not exist holds nothing. */
    predicate Valid() {
      (tableExists ==> databaseExists) && (!tableExists ==> rows == [])
    }
  }

  /** The schema the primary provisions when it connects:
      `CREATE DATABASE IF NOT EXISTS`, `USE`, `CREATE TABLE IF NOT EXISTS`. */
  function Provisioned(s: ServerState): (t: ServerState)
    requires s.Valid()
    ensures t.Valid() && t.databaseExists && t.tableExists
    ensures t.rows == s.rows
    ensures s.databaseExists && s.tableExists ==> t == s
  {
    s.(databaseExists := true, tableExists := true)
  }

  /** Provisioning is idempotent: a second run changes nothing. */
  lemma ProvisionedIdempotent(s: ServerState)
    requires s.Valid()
    ensures Provisioned(Provisioned(s)) == Provisioned(s)
  {
  }

  /** How `MySQLdb.connect` ended: with a connection, or with an OperationalError code.
      A connection may carry the OperationalError the server raises for `USE ScalrTest`
      whatever the database's state, such as 1044 when the user has no rights on it. */
  datatype ConnectOutcome = Connected(useError: Option<int>) | Refused(code: int)

  /** A server reachable over the network. Each method is one SQL statement. */
  class DatabaseServer {
    var databaseExists: bool
    var tableExists: bool
    var rows: seq<string>

    function State(): ServerState
      reads this
    {
      ServerState(databaseExists, tableExists, rows)
    }

    ghost predicate Valid()
      reads this
    {
      State().Valid()
    }

    constructor (s: ServerState)
      requires s.Valid()
      ensures Valid() && State() == s
    {
      databaseExists, tableExists, rows := s.databaseExists, s.tableExists, s.rows;
    }

    /** `CREATE DATABASE IF NOT EXISTS ScalrTest` */
    method CreateDatabaseIfNotExists()
      requires Valid()
      modifies this
      ensures Valid()
      ensures State() == old(State()).(databaseExists := true)
    {
      databaseExists := true;
    }

    /** `USE ScalrTest`: fails with the error the session imposes, if any, and otherwise
        with "unknown database" when the database is absent. */
    method Use(sessionError: Option<int>) returns (error: Option<int>)
      ensures sessionError.Some? ==> error == sessionError
      ensures sessionError.None? ==>
        error == if databaseExists then None else Some(MYSQL_ERROR_CODE_UNKNOWN_DB)
    {
      error := if sessionError.Some? then sessionError
               else if databaseExists then None else Some(MYSQL_ERROR_CODE_UNKNOWN_DB);
    }

    /** `CREATE TABLE IF NOT EXISTS ScalrValues (...)`, issued after `USE ScalrTest` succeeded. */
    method CreateTableIfNotExists()
      requires Valid() && databaseExists
      modifies this
      ensures Valid()
      ensures State() == old(State()).(tableExists := true)
    {
      tableExists := true;
    }

    /** `SELECT val FROM ScalrValues`: one single-column row per stored value, in storage order. */
    method SelectValues() returns (r: Result<seq<seq<string>>, int>)
      requires databaseExists
      ensures !tableExists ==> r == Err(MYSQL_ERROR_CODE_NO_SUCH_TABLE)
      ensures tableExists ==> r.Ok? && |r.value| == |rows|
      ensures tableExists ==> forall i :: 0 <= i < |rows| ==> r.value[i] == [rows[i]]
    {
      r := if tableExists then Ok(seq(|rows|, i requires 0 <= i < |rows| reads this => [rows[i]]))
           else Err(MYSQL_ERROR_CODE_NO_SUCH_TABLE);
    }

    /** `INSERT INTO ScalrValues (val) VALUES (%s)` followed by `COMMIT`: the row is stored
        at once and after every row already there. */
    method InsertAndCommit(value: string) returns (error: Option<int>)
      requires Valid() && databaseExists
      modifies this
      ensures Valid()
      ensures !old(tableExists) ==> error == Some(MYSQL_ERROR_CODE_NO_SUCH_TABLE) && State() == old(State())
      ensures old(tableExists) ==> error == None && State() == old(State()).(rows := old(rows) + [value])
    {
      if !tableExists {
        return Some(MYSQL_ERROR_CODE_NO_SUCH_TABLE);
      }
      rows := rows + [value];
      error := None;
    }
  }
}
