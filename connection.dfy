/** A connection descriptor (`DBConnectionInformation`) and what it does against a server:
    open a connection and classify its failure, provision the schema on the primary,
    read the stored values and insert one. */
module Connection {
  import opened Wrappers
  import opened Text
  import opened Sorting
  import opened MySql

  /** The width of the `val CHAR(...)` column; inserted values are cut to it. */
  const VALUE_LENGTH := 200

  /** What `socket.gethostbyname_ex` yields for a hostname: its addresses, or the
      message of the `socket.gaierror` it raised. */
  datatype Resolution = Resolved(addresses: seq<string>) | GaiError(message: string)

  /** The three kinds of connection failure, in the order they are tested. */
  datatype Reason = HostDoesNotExist | AccessDenied | OtherError(code: int)

  /** A `NoConnectionEstablished` exception: the descriptor that failed and the message. */
  datatype NoConnectionEstablished = NoConnectionEstablished(connectionInfo: DBConnectionInformation, error: string)

  /** What a data-access call raises: a classified connection failure, or, from a later
      statement, a `MySQLdb.OperationalError` (an unknown database) or a
      `MySQLdb.ProgrammingError` (a missing table) with its code. */
  datatype DbError =
    | NotEstablished(failure: NoConnectionEstablished)
    | Operational(code: int)
    | Programming(code: int)

  /** The cursor `get_cursor` hands back, with the database it has selected. */
  datatype Cursor = Cursor(database: string)

  /** A bound method `obj.name`; Python compares two of them by their function and by
      `==` on their receivers, which for a class without `__eq__` is identity. */
  datatype BoundMethod = BoundMethod(receiver: DBConnectionInformation, name: string)

  /** Maps a connect error code to its reason: 2005 first, then 1045, then anything else. */
  function ReasonOf(code: int): (r: Reason)
    ensures r == HostDoesNotExist <==> code == MYSQL_ERROR_CODE_NO_HOST
    ensures r == AccessDenied <==> code == MYSQL_ERROR_CODE_ACCESS_DENIED
    ensures r.OtherError? ==> r.code == code
  {
    if code == MYSQL_ERROR_CODE_NO_HOST then HostDoesNotExist
    else if code == MYSQL_ERROR_CODE_ACCESS_DENIED then AccessDenied
    else OtherError(code)
  }

  const UNKNOWN_ERROR_PREFIX := "An error occured: Code "

  const HOST_PREFIX := "The host ["
  const USERNAME_PREFIX := "The username ["
  const PASSWORD_PREFIX := "] or password ["

  /** The message shown to the operator for a failure of `info` with the given reason:
      it names the host, or the username and the password, or carries the raw code. */
  function Describe(info: DBConnectionInformation, reason: Reason): (r: string)
    ensures reason == HostDoesNotExist ==>
      |r| > |HOST_PREFIX| + |info.hostname| &&
      r[..|HOST_PREFIX|] == HOST_PREFIX &&
      r[|HOST_PREFIX|..|HOST_PREFIX| + |info.hostname|] == info.hostname
    ensures reason == AccessDenied ==>
      var u := |USERNAME_PREFIX| + |info.username|;
      var p := u + |PASSWORD_PREFIX|;
      |r| > p + |info.password| &&
      r[..|USERNAME_PREFIX|] == USERNAME_PREFIX &&
      r[|USERNAME_PREFIX|..u] == info.username &&
      r[p..p + |info.password|] == info.password
    ensures reason.OtherError? ==>
      |UNKNOWN_ERROR_PREFIX| <= |r| &&
      r[..|UNKNOWN_ERROR_PREFIX|] == UNKNOWN_ERROR_PREFIX &&
      ParseInt(r[|UNKNOWN_ERROR_PREFIX|..]) == Some(reason.code)
  {
    match reason
    case HostDoesNotExist => HOST_PREFIX + info.hostname + "] does not exist."
    case AccessDenied => USERNAME_PREFIX + info.username + PASSWORD_PREFIX + info.password + "] is incorrect."
    case OtherError(code) =>
      var digits := IntToDecimal(code);
      IntToDecimalRoundTrip(code);
      assert (UNKNOWN_ERROR_PREFIX + digits)[|UNKNOWN_ERROR_PREFIX|..] == digits;
      UNKNOWN_ERROR_PREFIX + digits
  }

  /** Reads the reason back from a message produced for `info`. */
  function ReasonFromMessage(info: DBConnectionInformation, message: string): Option<Reason> {
    if message == Describe(info, HostDoesNotExist) then Some(HostDoesNotExist)
    else if message == Describe(info, AccessDenied) then Some(AccessDenied)
    else if |UNKNOWN_ERROR_PREFIX| <= |message| && message[..|UNKNOWN_ERROR_PREFIX|] == UNKNOWN_ERROR_PREFIX then
      match ParseInt(message[|UNKNOWN_ERROR_PREFIX|..])
      case Some(code) => Some(OtherError(code))
      case None => None
    else None
  }

  /** No information is lost in the message: the reason, and for an unclassified failure
      the raw code, can be read back from it. */
  lemma DescribeRoundTrip(info: DBConnectionInformation, reason: Reason)
    ensures ReasonFromMessage(info, Describe(info, reason)) == Some(reason)
  {
    var m := Describe(info, reason);
    match reason
    case HostDoesNotExist =>
    case AccessDenied =>
      assert m[4] == 'u' && Describe(info, HostDoesNotExist)[4] == 'h';
    case OtherError(code) =>
      assert m[0] == 'A';
      assert Describe(info, HostDoesNotExist)[0] == 'T' && Describe(info, AccessDenied)[0] == 'T';
  }

  /** The exception a failed connect raises: it always carries the descriptor, and its
      message names the host, the credentials or the raw code according to the reason. */
  function Classify(info: DBConnectionInformation, code: int): (e: NoConnectionEstablished)
    ensures e.connectionInfo == info
    ensures ReasonFromMessage(info, e.error) == Some(ReasonOf(code))
  {
    DescribeRoundTrip(info, ReasonOf(code));
    NoConnectionEstablished(info, Describe(info, ReasonOf(code)))
  }

  /** `value[:VALUE_LENGTH]` */
  function Truncate(value: string): (r: string)
    ensures |r| == if |value| <= VALUE_LENGTH then |value| else VALUE_LENGTH
    ensures r == value[..|r|]
  {
    if |value| <= VALUE_LENGTH then value else value[..VALUE_LENGTH]
  }

  /** Truncating a value that already fits changes nothing, so truncation is idempotent. */
  lemma TruncateIdempotent(value: string)
    ensures Truncate(Truncate(value)) == Truncate(value)
    ensures |value| <= VALUE_LENGTH ==> Truncate(value) == value
  {
  }

  /** `[value[0] for value in cursor.fetchall()]` */
  function FirstColumn(fetched: seq<seq<string>>): (r: seq<string>)
    requires forall i :: 0 <= i < |fetched| ==> |fetched[i]| >= 1
    ensures |r| == |fetched|
    ensures forall i :: 0 <= i < |r| ==> r[i] == fetched[i][0]
  {
    if fetched == [] then [] else [fetched[0][0]] + FirstColumn(fetched[1..])
  }

  predicate CommaFree(xs: seq<string>) {
    forall i :: 0 <= i < |xs| ==> ',' !in xs[i]
  }

  lemma SortCommaFree(xs: seq<string>)
    requires CommaFree(xs)
    ensures CommaFree(Sort(xs)) && |Sort(xs)| == |xs|
  {
    var s := Sort(xs);
    forall i | 0 <= i < |s|
      ensures ',' !in s[i]
    {
      assert s[i] in multiset(xs);
    }
    assert |multiset(s)| == |xs|;
  }

  const RESOLUTION_ERROR_PREFIX := "Resolution error: "

  /** The text `ips()` shows for a resolution. A resolver error shows its message after a
      fixed prefix. When a host resolves, splitting the text back at the commas gives the
      addresses in ascending order, each as often as it was resolved. */
  function FormatAddresses(res: Resolution): (r: string)
    ensures res.GaiError? ==>
      |r| == |RESOLUTION_ERROR_PREFIX| + |res.message| &&
      r[..|RESOLUTION_ERROR_PREFIX|] == RESOLUTION_ERROR_PREFIX &&
      r[|RESOLUTION_ERROR_PREFIX|..] == res.message
    ensures res.Resolved? && |res.addresses| >= 1 && CommaFree(res.addresses) ==>
      Sorted(Split(',', r)) && multiset(Split(',', r)) == multiset(res.addresses)
  {
    match res
    case Resolved(addresses) =>
      if |addresses| >= 1 && CommaFree(addresses) then
        SortCommaFree(addresses);
        SplitJoin(',', Sort(addresses));
        Join(',', Sort(addresses))
      else
        Join(',', Sort(addresses))
    case GaiError(message) => RESOLUTION_ERROR_PREFIX + message
  }

  /** Two successful resolutions are shown alike exactly when they hold the same addresses. */
  lemma FormatAddressesEqualIff(a: seq<string>, b: seq<string>)
    requires |a| >= 1 && |b| >= 1
    requires CommaFree(a) && CommaFree(b)
    ensures FormatAddresses(Resolved(a)) == FormatAddresses(Resolved(b)) <==> multiset(a) == multiset(b)
  {
    var sa, sb := Sort(a), Sort(b);
    SortCommaFree(a);
    SortCommaFree(b);
    JoinInjective(',', sa, sb);
    SortEqualIff(a, b);
  }

  /** How to reach the database of one role. Its fields never change after construction. */
  class DBConnectionInformation {
    const hostname: string
    const username: string
    const password: string
    /** True for the primary (writable) role, false for the replica. */
    const master: bool

    constructor (hostname: string, username: string, password: string, master: bool)
      ensures this.hostname == hostname && this.username == username
      ensures this.password == password && this.master == master
    {
      this.hostname := hostname;
      this.username := username;
      this.password := password;
      this.master := master;
    }

    /** `ips()`: the addresses of the hostname, as shown on the status page. */
    function Ips(resolve: string -> Resolution): (r: string)
      ensures resolve(hostname).GaiError? ==> r == RESOLUTION_ERROR_PREFIX + resolve(hostname).message
      ensures resolve(hostname).Resolved? ==> r == Join(',', Sort(resolve(hostname).addresses))
    {
      FormatAddresses(resolve(hostname))
    }

    /** `get_cursor()`: connects; a refused connection raises its classified failure.
        The primary then provisions the schema; the replica only selects the database,
        which fails with "unknown database" when the replica has never received it. */
    method GetCursor(server: DatabaseServer, connect: ConnectOutcome) returns (r: Result<Cursor, DbError>)
      requires server.Valid()
      modifies server
      ensures server.Valid()
      ensures connect.Refused? ==>
        r == Err(NotEstablished(Classify(this, connect.code))) && server.State() == old(server.State())
      ensures connect.Connected? && connect.useError.Some? ==>
        r == Err(Operational(connect.useError.value)) &&
        server.State() == if master then old(server.State()).(databaseExists := true) else old(server.State())
      ensures connect.Connected? && connect.useError.None? && master ==>
        r == Ok(Cursor(SCHEMA_DATABASE)) && server.State() == Provisioned(old(server.State()))
      ensures connect.Connected? && connect.useError.None? && !master ==>
        server.State() == old(server.State()) &&
        r == if server.databaseExists then Ok(Cursor(SCHEMA_DATABASE)) else Err(Operational(MYSQL_ERROR_CODE_UNKNOWN_DB))
    {
      if connect.Refused? {
        return Err(NotEstablished(Classify(this, connect.code)));
      }
      if master {
        server.CreateDatabaseIfNotExists();
      }
      var error := server.Use(connect.useError);
      if error.Some? {
        return Err(Operational(error.value));
      }
      if master {
        server.CreateTableIfNotExists();
      }
      r := Ok(Cursor(SCHEMA_DATABASE));
    }

    /** `get_values()`: every stored value in storage order; an "unknown database" error
        reads as no values; every other OperationalError is re-raised, and a failed
        connect and a missing table are not caught at all. */
    method GetValues(server: DatabaseServer, connect: ConnectOutcome) returns (r: Result<seq<string>, DbError>)
      requires server.Valid()
      modifies server
      ensures server.Valid()
      ensures connect.Refused? ==>
        r == Err(NotEstablished(Classify(this, connect.code))) && server.State() == old(server.State())
      ensures connect.Connected? && connect.useError.Some? ==>
        r == (if connect.useError.value == MYSQL_ERROR_CODE_UNKNOWN_DB then Ok([])
              else Err(Operational(connect.useError.value))) &&
        server.State() == if master then old(server.State()).(databaseExists := true) else old(server.State())
      ensures connect.Connected? && connect.useError.None? && master ==>
        server.State() == Provisioned(old(server.State())) && r == Ok(old(server.rows))
      ensures connect.Connected? && connect.useError.None? && !master ==>
        server.State() == old(server.State()) &&
        r == if !server.databaseExists then Ok([])
             else if !server.tableExists then Err(Programming(MYSQL_ERROR_CODE_NO_SUCH_TABLE))
             else Ok(server.rows)
    {
      // the statements inside `try`
      var attempt: Result<seq<seq<string>>, DbError>;
      var cursor := GetCursor(server, connect);
      if cursor.Err? {
        attempt := Err(cursor.error);
      } else {
        var fetched := server.SelectValues();
        attempt := if fetched.Ok? then Ok(fetched.value) else Err(Programming(fetched.error));
      }
      // `except MySQLdb.OperationalError` and `else`
      r := match attempt
        case Err(Operational(code)) =>
          if code == MYSQL_ERROR_CODE_UNKNOWN_DB then Ok([]) else Err(Operational(code))
        case Err(failure) => Err(failure)  // not caught: a connect failure or a ProgrammingError
        case Ok(fetched) => Ok(FirstColumn(fetched));
      assert attempt.Ok? ==> FirstColumn(attempt.value) == server.rows;
    }

    /** `insert(value)`: stores `value[:VALUE_LENGTH]` after the rows already there and
        commits at once. Nothing stops a call on the replica descriptor; there the
        statements fail when the schema has not reached the replica. */
    method Insert(server: DatabaseServer, connect: ConnectOutcome, value: string) returns (r: Outcome<DbError>)
      requires server.Valid()
      modifies server
      ensures server.Valid()
      ensures connect.Refused? ==>
        r == Fail(NotEstablished(Classify(this, connect.code))) && server.State() == old(server.State())
      ensures connect.Connected? && connect.useError.Some? ==>
        r == Fail(Operational(connect.useError.value)) &&
        server.State() == if master then old(server.State()).(databaseExists := true) else old(server.State())
      ensures connect.Connected? && connect.useError.None? && master ==>
        r == Pass && server.State() == Provisioned(old(server.State())).(rows := old(server.rows) + [Truncate(value)])
      ensures connect.Connected? && connect.useError.None? && !master && !old(server.databaseExists) ==>
        r == Fail(Operational(MYSQL_ERROR_CODE_UNKNOWN_DB)) && server.State() == old(server.State())
      ensures connect.Connected? && connect.useError.None? && !master && old(server.databaseExists) && !old(server.tableExists) ==>
        r == Fail(Programming(MYSQL_ERROR_CODE_NO_SUCH_TABLE)) && server.State() == old(server.State())
      ensures connect.Connected? && connect.useError.None? && !master && old(server.tableExists) ==>
        r == Pass && server.State() == old(server.State()).(rows := old(server.rows) + [Truncate(value)])
    {
      var cursor := GetCursor(server, connect);
      if cursor.Err? {
        return Fail(cursor.error);
      }
      var error := server.InsertAndCommit(Truncate(value));
      r := if error.Some? then Fail(Programming(error.value)) else Pass;
    }
  }
}
